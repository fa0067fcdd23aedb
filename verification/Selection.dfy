/**
 Server selection (router/router.go) as functions on values: the snapshot of the
 candidates, the distance sort, the tiers, the rotating scan and the best-effort
 scan. The methods of module Routing are proved to compute these functions; here
 the functions are related to the plain statement "nearest server with room".
 */
module Selection {
  import opened Common
  import opened Backend

  /** A candidate as `route` saw it: the counter is a copy taken when it was read. */
  datatype Info = Info(url: Url, distance: int, maxConn: int, inflight: int) {
    predicate HasRoom() {
      inflight < maxConn
    }
  }

  function InfoOf(slots: Slots, u: Url): Info
    requires u in slots
  {
    Info(u, slots[u].server.distance, slots[u].server.maxConn, slots[u].inflight)
  }

  /** The healthy servers that are also pooled, in the order discovery lists them. */
  function Snapshot(urls: seq<Url>, slots: Slots): seq<Info> {
    if urls == [] then []
    else
      var init, last := urls[..|urls| - 1], urls[|urls| - 1];
      Snapshot(init, slots) + if last in slots then [InfoOf(slots, last)] else []
  }

  lemma {:induction false} SnapshotMembers(urls: seq<Url>, slots: Slots)
    ensures forall x :: x in Snapshot(urls, slots)
                        <==> x.url in urls && x.url in slots && x == InfoOf(slots, x.url)
  {
    if urls != [] {
      SnapshotMembers(urls[..|urls| - 1], slots);
      assert urls == urls[..|urls| - 1] + [urls[|urls| - 1]];
    }
  }

  /** `infos` are the pooled ones among `urls`, those at the positions `at`, as the pool has them. */
  predicate ListsInOrder(infos: seq<Info>, urls: seq<Url>, slots: Slots, at: seq<nat>) {
    && |infos| == |at|
    && (forall k :: 0 <= k < |at| ==>
          && at[k] < |urls| && urls[at[k]] in slots
          && infos[k] == Info(urls[at[k]], slots[urls[at[k]]].server.distance, slots[urls[at[k]]].server.maxConn,
                              slots[urls[at[k]]].inflight))
    && (forall j, k :: 0 <= j < k < |at| ==> at[j] < at[k])
    && (forall i :: 0 <= i < |urls| && urls[i] in slots ==> i in at)
  }

  /** The candidates are in the order in which discovery lists them, and none is missing. */
  lemma {:induction false} SnapshotInOrder(urls: seq<Url>, slots: Slots) returns (at: seq<nat>)
    ensures ListsInOrder(Snapshot(urls, slots), urls, slots, at)
  {
    at := [];
    if urls != [] {
      var init, last := urls[..|urls| - 1], urls[|urls| - 1];
      var before := SnapshotInOrder(init, slots);
      at := before + if last in slots then [|init|] else [];
      forall i | 0 <= i < |urls| && urls[i] in slots ensures i in at {
        assert i < |init| ==> urls[i] == init[i];
      }
    }
  }

  // -------------------------------------------------------------------------
  // The distance sort
  // -------------------------------------------------------------------------

  /**
   `sort.Slice` is not stable, but it looks at nothing except comparisons of distances:
   which permutation it applies is determined by the sequence of distances.
   */
  type Sorter = seq<int> -> seq<nat>

  ghost predicate SortsBy(order: seq<nat>, distances: seq<int>) {
    && |order| == |distances|
    && (forall i :: 0 <= i < |order| ==> order[i] < |distances|)
    && Distinct(order)
    && (forall k :: 0 <= k < |distances| ==> k in order)
    && (forall i, j :: 0 <= i < j < |order| ==> distances[order[i]] <= distances[order[j]])
  }

  ghost predicate IsSorter(f: Sorter) {
    forall ds :: SortsBy(f(ds), ds)
  }

  /** Insertion of the last element behind the ones not farther away. */
  function InsertBy(order: seq<nat>, distances: seq<int>, k: nat): seq<nat>
    requires k < |distances| && forall i :: 0 <= i < |order| ==> order[i] < |distances|
  {
    if order == [] || distances[order[|order| - 1]] <= distances[k] then order + [k]
    else InsertBy(order[..|order| - 1], distances, k) + [order[|order| - 1]]
  }

  lemma {:induction false} InsertByKeepsOrder(order: seq<nat>, ds: seq<int>, k: nat)
    requires k < |ds| && forall i :: 0 <= i < |order| ==> order[i] < |ds|
    requires k !in order
    requires Distinct(order)
    requires forall i, j :: 0 <= i < j < |order| ==> ds[order[i]] <= ds[order[j]]
    ensures var r := InsertBy(order, ds, k);
      && |r| == |order| + 1
      && (forall x :: x in r <==> x in order || x == k)
      && Distinct(r)
      && (forall i :: 0 <= i < |r| ==> r[i] < |ds|)
      && (forall i, j :: 0 <= i < j < |r| ==> ds[r[i]] <= ds[r[j]])
  {
    if order != [] && ds[k] < ds[order[|order| - 1]] {
      var init := order[..|order| - 1];
      assert order == init + [order[|order| - 1]];
      InsertByKeepsOrder(init, ds, k);
      var s := InsertBy(init, ds, k);
      forall i | 0 <= i < |s| ensures s[i] != order[|order| - 1] && ds[s[i]] <= ds[order[|order| - 1]] {
        assert s[i] in s;
        assert s[i] == k || s[i] in init;
      }
    }
  }

  function StableOrder(distances: seq<int>): seq<nat> {
    StableOrderUpTo(distances, |distances|)
  }

  /** A permutation of the first `n` positions that sorts them by distance. */
  ghost predicate SortsFirst(order: seq<nat>, distances: seq<int>, n: nat)
    requires n <= |distances|
  {
    && |order| == n && Distinct(order)
    && (forall i :: 0 <= i < |order| ==> order[i] < n)
    && (forall k :: 0 <= k < n ==> k in order)
    && (forall i, j :: 0 <= i < j < |order| ==> distances[order[i]] <= distances[order[j]])
  }

  lemma InsertNext(order: seq<nat>, distances: seq<int>, n: nat)
    requires n < |distances| && SortsFirst(order, distances, n)
    ensures SortsFirst(InsertBy(order, distances, n), distances, n + 1)
  {
    InsertByKeepsOrder(order, distances, n);
    var r := InsertBy(order, distances, n);
    forall i | 0 <= i < |r| ensures r[i] < n + 1 {
      assert r[i] in r;
    }
  }

  function StableOrderUpTo(distances: seq<int>, n: nat): (order: seq<nat>)
    requires n <= |distances|
    ensures SortsFirst(order, distances, n)
  {
    if n == 0 then []
    else
      var order := StableOrderUpTo(distances, n - 1);
      InsertNext(order, distances, n - 1);
      InsertBy(order, distances, n - 1)
  }

  /** The assumption made of `sort.Slice` can be met: a stable insertion sort meets it. */
  lemma StableOrderIsSorter()
    ensures IsSorter(StableOrder)
  {
  }

  function Distances(infos: seq<Info>): (ds: seq<int>)
    ensures |ds| == |infos|
  {
    seq(|infos|, i requires 0 <= i < |infos| => infos[i].distance)
  }

  function Arrange(infos: seq<Info>, order: seq<nat>): (s: seq<Info>)
    requires forall i :: 0 <= i < |order| ==> order[i] < |infos|
    ensures |s| == |order|
  {
    seq(|order|, i requires 0 <= i < |order| => infos[order[i]])
  }

  ghost function Sorted(infos: seq<Info>, f: Sorter): seq<Info>
    requires IsSorter(f)
  {
    assert SortsBy(f(Distances(infos)), Distances(infos));
    Arrange(infos, f(Distances(infos)))
  }

  ghost predicate Ascending(s: seq<Info>) {
    forall i, j :: 0 <= i < j < |s| ==> s[i].distance <= s[j].distance
  }

  lemma SortedIsAscendingPermutation(infos: seq<Info>, f: Sorter)
    requires IsSorter(f)
    ensures |Sorted(infos, f)| == |infos| && Ascending(Sorted(infos, f))
    ensures forall x :: x in Sorted(infos, f) <==> x in infos
  {
    var order := f(Distances(infos));
    assert SortsBy(order, Distances(infos));
    var s := Sorted(infos, f);
    forall x | x in infos ensures x in s {
      var k :| 0 <= k < |infos| && infos[k] == x;
      assert k in order;
      var i :| 0 <= i < |order| && order[i] == k;
      assert s[i] == x;
    }
  }

  /** What the sorter says of the distances is what becomes of the candidates. */
  lemma SortedFollowsSorter(infos: seq<Info>, f: Sorter, ds: seq<int>)
    requires IsSorter(f) && |ds| == |infos| && forall i :: 0 <= i < |ds| ==> ds[i] == infos[i].distance
    ensures |Sorted(infos, f)| == |f(ds)|
    ensures forall i :: 0 <= i < |f(ds)| ==> f(ds)[i] < |infos| && Sorted(infos, f)[i] == infos[f(ds)[i]]
  {
    assert ds == Distances(infos);
    assert SortsBy(f(ds), ds);
  }

  predicate KeepsTies(order: seq<nat>, ds: seq<int>)
    requires forall i :: 0 <= i < |order| ==> order[i] < |ds|
  {
    forall i, j :: 0 <= i < j < |order| && ds[order[i]] == ds[order[j]] ==> order[i] < order[j]
  }

  lemma {:induction false} InsertKeepsTies(order: seq<nat>, ds: seq<int>, k: nat)
    requires k < |ds| && Distinct(order) && forall i :: 0 <= i < |order| ==> order[i] < k
    requires forall i, j :: 0 <= i < j < |order| ==> ds[order[i]] <= ds[order[j]]
    requires KeepsTies(order, ds)
    ensures forall i :: 0 <= i < |InsertBy(order, ds, k)| ==> InsertBy(order, ds, k)[i] < |ds|
    ensures KeepsTies(InsertBy(order, ds, k), ds)
  {
    InsertByKeepsOrder(order, ds, k);
    if order != [] && ds[k] < ds[order[|order| - 1]] {
      var init, last := order[..|order| - 1], order[|order| - 1];
      InsertKeepsTies(init, ds, k);
      InsertByKeepsOrder(init, ds, k);
      TiesStayBehind(InsertBy(init, ds, k), init, last, ds, k);
    }
  }

  lemma TiesStayBehind(s: seq<nat>, init: seq<nat>, last: nat, ds: seq<int>, k: nat)
    requires last < |ds| && k < |ds| && ds[k] < ds[last] && forall x :: x in s ==> x in init || x == k
    requires forall i :: 0 <= i < |init| ==> init[i] < |ds| && (ds[init[i]] == ds[last] ==> init[i] < last)
    requires (forall i :: 0 <= i < |s| ==> s[i] < |ds|) && KeepsTies(s, ds)
    ensures KeepsTies(s + [last], ds)
  {
    forall i | 0 <= i < |s| && ds[s[i]] == ds[last] ensures s[i] < last {
      assert s[i] in s;
      var j :| 0 <= j < |init| && init[j] == s[i];
    }
  }

  lemma {:induction false} StableOrderKeepsTies(ds: seq<int>, n: nat)
    requires n <= |ds|
    ensures KeepsTies(StableOrderUpTo(ds, n), ds)
  {
    if n > 0 {
      StableOrderKeepsTies(ds, n - 1);
      InsertKeepsTies(StableOrderUpTo(ds, n - 1), ds, n - 1);
    }
  }

  lemma SortedArePooled(urls: seq<Url>, slots: Slots, f: Sorter)
    requires IsSorter(f)
    ensures forall x :: x in Sorted(Snapshot(urls, slots), f) ==> x.url in slots
  {
    SnapshotMembers(urls, slots);
    SortedIsAscendingPermutation(Snapshot(urls, slots), f);
  }

  // -------------------------------------------------------------------------
  // Tiers of equal distance
  // -------------------------------------------------------------------------

  /** How many leading candidates share the distance of the first. */
  function RunLength(s: seq<Info>, from: nat): (n: nat)
    requires 0 < from <= |s|
    ensures from <= n <= |s|
    ensures forall i :: from <= i < n ==> s[i].distance == s[0].distance
    ensures n < |s| ==> s[n].distance != s[0].distance
    decreases |s| - from
  {
    if from < |s| && s[from].distance == s[0].distance then RunLength(s, from + 1) else from
  }

  function Groups(s: seq<Info>): (gs: seq<seq<Info>>)
    ensures forall g :: 0 <= g < |gs| ==> |gs[g]| > 0
    decreases |s|
  {
    if s == [] then [] else [s[..RunLength(s, 1)]] + Groups(s[RunLength(s, 1)..])
  }

  function Concat(gs: seq<seq<Info>>): seq<Info> {
    if gs == [] then [] else gs[0] + Concat(gs[1..])
  }

  ghost predicate OneDistance(g: seq<Info>) {
    |g| > 0 && forall i :: 0 <= i < |g| ==> g[i].distance == g[0].distance
  }

  /** The tiers cut the sorted list, in order, into maximal runs of one distance. */
  ghost predicate IsTiering(groups: seq<seq<Info>>, s: seq<Info>) {
    && Concat(groups) == s
    && (forall g :: 0 <= g < |groups| ==> |groups[g]| > 0)
    && (forall g :: 0 <= g < |groups| ==> OneDistance(groups[g]))
    && (forall g, h :: 0 <= g < h < |groups| ==> groups[g][0].distance < groups[h][0].distance)
  }

  lemma GroupsPartition(s: seq<Info>)
    requires Ascending(s)
    ensures IsTiering(Groups(s), s)
  {
    GroupsConcat(s);
    GroupsHaveOneDistance(s);
    forall g, h | 0 <= g < h < |Groups(s)|
      ensures Groups(s)[g][0].distance < Groups(s)[h][0].distance
    {
      TierHeadsAscend(s, g, h);
    }
  }

  lemma {:induction false} GroupsConcat(s: seq<Info>)
    ensures Concat(Groups(s)) == s
    decreases |s|
  {
    if s != [] {
      var n := RunLength(s, 1);
      GroupsConcat(s[n..]);
      assert s == s[..n] + s[n..];
    }
  }

  lemma {:induction false} GroupsHaveOneDistance(s: seq<Info>)
    ensures forall g :: 0 <= g < |Groups(s)| ==> OneDistance(Groups(s)[g])
    decreases |s|
  {
    if s != [] {
      var n := RunLength(s, 1);
      GroupsHaveOneDistance(s[n..]);
      assert OneDistance(s[..n]);
    }
  }

  lemma {:induction false} TierHeadsAscend(s: seq<Info>, g: nat, h: nat)
    requires Ascending(s) && g < h < |Groups(s)|
    ensures Groups(s)[g][0].distance < Groups(s)[h][0].distance
    decreases |s|
  {
    if g == 0 {
      TierHeadsIncrease(s);
    } else {
      TierHeadsAscend(s[RunLength(s, 1)..], g - 1, h - 1);
    }
  }

  lemma TierHeadsIncrease(s: seq<Info>)
    requires Ascending(s) && s != []
    ensures forall h :: 0 < h < |Groups(s)| ==> s[0].distance < Groups(s)[h][0].distance
  {
  }

  lemma {:induction false} GroupsMembers(s: seq<Info>)
    ensures forall x :: x in s <==> exists g :: 0 <= g < |Groups(s)| && x in Groups(s)[g]
    decreases |s|
  {
    if s != [] {
      var n := RunLength(s, 1);
      GroupsMembers(s[n..]);
      assert s == s[..n] + s[n..];
      var gs := Groups(s);
      forall x ensures x in s <==> exists g :: 0 <= g < |gs| && x in gs[g] {
        if x in s[..n] {
          assert x in gs[0];
        } else if x in s[n..] {
          var g :| 0 <= g < |Groups(s[n..])| && x in Groups(s[n..])[g];
          assert x in gs[g + 1];
        }
        if g :| 0 <= g < |gs| && x in gs[g] && g > 0 {
          assert x in Groups(s[n..])[g - 1];
        }
      }
    }
  }

  // -------------------------------------------------------------------------
  // The rotating scan
  // -------------------------------------------------------------------------

  /** Position `k` steps after `idx` in a cycle of `n`. */
  function Cyclic(idx: nat, k: nat, n: nat): (p: nat)
    requires idx < n && k < n
    ensures p == if idx + k < n then idx + k else idx + k - n
  {
    WrapOnce(idx + k, n);
    (idx + k) % n
  }

  lemma WrapOnce(x: nat, n: nat)
    requires n > 0 && x < 2 * n
    ensures x % n == if x < n then x else x - n
  {
  }

  /** The smallest offset, from `k` on, whose server had room in the snapshot. */
  function FirstRoom(g: seq<Info>, idx: nat, k: nat): (r: Option<nat>)
    requires idx < |g| && k <= |g|
    ensures match r
      case Some(j) =>
        && k <= j < |g|
        && g[Cyclic(idx, j, |g|)].HasRoom()
        && forall i :: k <= i < j ==> !g[Cyclic(idx, i, |g|)].HasRoom()
      case None => forall i :: k <= i < |g| ==> !g[Cyclic(idx, i, |g|)].HasRoom()
    decreases |g| - k
  {
    if k == |g| then None
    else if g[Cyclic(idx, k, |g|)].HasRoom() then Some(k)
    else FirstRoom(g, idx, k + 1)
  }

  /** The scan misses nobody: an offset reaches each position of the tier. */
  lemma FirstRoomMissesNobody(g: seq<Info>, idx: nat)
    requires idx < |g|
    ensures FirstRoom(g, idx, 0).None? <==> forall x :: x in g ==> !x.HasRoom()
  {
    if FirstRoom(g, idx, 0).None? {
      forall p | 0 <= p < |g| ensures !g[p].HasRoom() {
        var k := if idx <= p then p - idx else p - idx + |g|;
        assert Cyclic(idx, k, |g|) == p;
      }
    }
  }

  datatype Scanned = Scanned(pick: Option<Info>, rr: nat)

  /**
   Tier after tier, one shared round-robin number per model. `live` says whether the
   request's context still admits an acquire; a done one makes every attempt fail.
   */
  function Scan(groups: seq<seq<Info>>, rr: nat, live: bool): Scanned
    requires forall g :: 0 <= g < |groups| ==> |groups[g]| > 0
  {
    if groups == [] then Scanned(None, rr)
    else
      var g := groups[0];
      var idx := rr % |g|;
      var k := FirstRoom(g, idx, 0);
      if live && k.Some? then Scanned(Some(g[Cyclic(idx, k.value, |g|)]), idx + 1)
      else Scan(groups[1..], idx + 1, live)
  }

  /** Where the scan of tier `g` starts: the number left by the tiers before it. */
  function Start(groups: seq<seq<Info>>, rr: nat, g: nat): (idx: nat)
    requires g < |groups| && forall h :: 0 <= h < |groups| ==> |groups[h]| > 0
    ensures idx < |groups[g]|
    decreases g
  {
    if g == 0 then rr % |groups[0]| else (Start(groups, rr, g - 1) + 1) % |groups[g]|
  }

  ghost predicate NoRoom(s: seq<Info>) {
    forall x :: x in s ==> !x.HasRoom()
  }

  /** The winner is at offset `k` of tier `g`, and everything scanned before it was full. */
  ghost predicate FirstInScanOrder(groups: seq<seq<Info>>, rr: nat, g: nat, k: nat)
    requires forall h :: 0 <= h < |groups| ==> |groups[h]| > 0
  {
    && g < |groups| && k < |groups[g]|
    && groups[g][Cyclic(Start(groups, rr, g), k, |groups[g]|)].HasRoom()
    && (forall i :: 0 <= i < k ==> !groups[g][Cyclic(Start(groups, rr, g), i, |groups[g]|)].HasRoom())
    && (forall h :: 0 <= h < g ==> NoRoom(groups[h]))
  }

  lemma {:induction false} StartOfTail(groups: seq<seq<Info>>, rr: nat, g: nat)
    requires 0 < g < |groups| && forall h :: 0 <= h < |groups| ==> |groups[h]| > 0
    ensures Start(groups, rr, g) == Start(groups[1..], rr % |groups[0]| + 1, g - 1)
    decreases g
  {
    if g > 1 {
      StartOfTail(groups, rr, g - 1);
    }
  }

  /** The scan of a live request succeeds with the first server with room in scan order. */
  lemma {:induction false} ScanFindsFirst(groups: seq<seq<Info>>, rr: nat) returns (g: nat, k: nat)
    requires forall h :: 0 <= h < |groups| ==> |groups[h]| > 0
    ensures Scan(groups, rr, true).pick.None? ==> forall h :: 0 <= h < |groups| ==> NoRoom(groups[h])
    ensures Scan(groups, rr, true).pick.Some? ==>
      && FirstInScanOrder(groups, rr, g, k)
      && Scan(groups, rr, true)
         == Scanned(Some(groups[g][Cyclic(Start(groups, rr, g), k, |groups[g]|)]), Start(groups, rr, g) + 1)
  {
    g, k := 0, 0;
    if groups != [] {
      var idx := rr % |groups[0]|;
      FirstRoomMissesNobody(groups[0], idx);
      var first := FirstRoom(groups[0], idx, 0);
      if first.Some? {
        k := first.value;
      } else {
        var rest := groups[1..];
        g, k := ScanFindsFirst(rest, idx + 1);
        if Scan(rest, idx + 1, true).pick.Some? {
          TailScanOrder(groups, rr, g, k);
          StartOfTail(groups, rr, g + 1);
          g := g + 1;
        } else {
          forall h | 0 <= h < |groups| ensures NoRoom(groups[h]) {
            if h > 0 {
              assert groups[h] == rest[h - 1];
            }
          }
        }
      }
    }
  }

  /** The first tier starts at the number found, and each further one just past the start before it. */
  lemma StartsInTurn(groups: seq<seq<Info>>, rr: nat, g: nat)
    requires g < |groups| && forall h :: 0 <= h < |groups| ==> |groups[h]| > 0
    ensures Start(groups, rr, g)
         == (if g == 0 then rr else Start(groups, rr, g - 1) + 1) % |groups[g]|
  {
  }

  /** A scan that takes nothing leaves the number one past the start of the last tier. */
  lemma {:induction false} EmptyScanLeaves(groups: seq<seq<Info>>, rr: nat, live: bool)
    requires groups != [] && forall h :: 0 <= h < |groups| ==> |groups[h]| > 0
    requires !live || forall h :: 0 <= h < |groups| ==> NoRoom(groups[h])
    ensures Scan(groups, rr, live) == Scanned(None, Start(groups, rr, |groups| - 1) + 1)
  {
    var idx := rr % |groups[0]|;
    FirstRoomMissesNobody(groups[0], idx);
    assert live ==> NoRoom(groups[0]);
    if |groups| > 1 {
      assert forall h :: 0 <= h < |groups[1..]| ==> groups[1..][h] == groups[h + 1];
      EmptyScanLeaves(groups[1..], idx + 1, live);
      StartOfTail(groups, rr, |groups| - 1);
    } else {
      assert groups[1..] == [];
    }
  }

  lemma TailScanOrder(groups: seq<seq<Info>>, rr: nat, g: nat, k: nat)
    requires groups != [] && forall h :: 0 <= h < |groups| ==> |groups[h]| > 0
    requires NoRoom(groups[0])
    requires FirstInScanOrder(groups[1..], rr % |groups[0]| + 1, g, k)
    ensures FirstInScanOrder(groups, rr, g + 1, k)
  {
    StartOfTail(groups, rr, g + 1);
    forall h | 0 <= h < g + 1 ensures NoRoom(groups[h]) {
      if h > 0 {
        assert groups[h] == groups[1..][h - 1];
      }
    }
  }

  lemma {:induction false} DoneContextPicksNothing(groups: seq<seq<Info>>, rr: nat)
    requires forall g :: 0 <= g < |groups| ==> |groups[g]| > 0
    ensures Scan(groups, rr, false).pick.None?
  {
    if groups != [] {
      DoneContextPicksNothing(groups[1..], rr % |groups[0]| + 1);
    }
  }

  /** What the sort, the tiers and the scan amount to: the nearest server with room. */
  lemma ScanPicksNearestWithRoom(infos: seq<Info>, f: Sorter, rr: nat)
    requires IsSorter(f)
    ensures var groups := Groups(Sorted(infos, f));
      && (forall g :: 0 <= g < |groups| ==> |groups[g]| > 0)
      && var pick := Scan(groups, rr, true).pick;
         && (pick.None? <==> NoRoom(infos))
         && (pick.Some? ==>
               && pick.value in infos && pick.value.HasRoom()
               && forall x :: x in infos && x.HasRoom() ==> pick.value.distance <= x.distance)
  {
    var s := Sorted(infos, f);
    var groups := Groups(s);
    SortedIsAscendingPermutation(infos, f);
    GroupsPartition(s);
    GroupsMembers(s);
    var g, k := ScanFindsFirst(groups, rr);
    var r := Scan(groups, rr, true);
    if r.pick.Some? {
      assert r.pick.value in groups[g];
      assert r.pick.value in s;
      forall x | x in infos && x.HasRoom() ensures r.pick.value.distance <= x.distance {
        EarlierTiersFull(s, rr, g, k, r.pick.value, x);
      }
    }
  }

  lemma TierOrder(s: seq<Info>, g: nat, h: nat, x: Info, y: Info)
    requires Ascending(s) && g <= h < |Groups(s)|
    requires x in Groups(s)[g] && y in Groups(s)[h]
    ensures x.distance <= y.distance
  {
    GroupsPartition(s);
    assert OneDistance(Groups(s)[g]) && OneDistance(Groups(s)[h]);
    assert x.distance == Groups(s)[g][0].distance;
    assert y.distance == Groups(s)[h][0].distance;
  }

  lemma EarlierTiersFull(s: seq<Info>, rr: nat, g: nat, k: nat, winner: Info, x: Info)
    requires Ascending(s) && FirstInScanOrder(Groups(s), rr, g, k)
    requires winner in Groups(s)[g] && x in s && x.HasRoom()
    ensures winner.distance <= x.distance
  {
    GroupsMembers(s);
    var h :| 0 <= h < |Groups(s)| && x in Groups(s)[h];
    if h < g {
      assert false;
    } else {
      TierOrder(s, g, h, winner, x);
    }
  }

  // -------------------------------------------------------------------------
  // The best-effort scan
  // -------------------------------------------------------------------------

  /** inflight / maxConn of `x` is strictly below that of `y`, as an exact rational. */
  predicate LowerRatio(x: Info, y: Info) {
    x.inflight * y.maxConn < y.inflight * x.maxConn
  }

  /** The position of the running minimum after the whole list. */
  function Best(infos: seq<Info>): (b: nat)
    requires infos != []
    ensures b < |infos|
  {
    var n := |infos| - 1;
    if n == 0 then 0
    else
      var b := Best(infos[..n]);
      if LowerRatio(infos[n], infos[b]) then n else b
  }

  lemma RatioTransitive(a: Info, b: Info, c: Info)
    requires a.maxConn > 0 && b.maxConn > 0 && c.maxConn > 0
    requires !LowerRatio(b, a) && !LowerRatio(c, b)
    ensures !LowerRatio(c, a)
    ensures LowerRatio(a, b) || LowerRatio(b, c) ==> LowerRatio(a, c)
  {
  }

  /** A minimum of the load ratio; among equals the one that comes first. */
  lemma {:induction false} BestIsFirstMinimum(infos: seq<Info>)
    requires infos != [] && forall x :: x in infos ==> x.maxConn > 0
    ensures forall i :: 0 <= i < |infos| ==> !LowerRatio(infos[i], infos[Best(infos)])
    ensures forall i :: 0 <= i < Best(infos) ==> LowerRatio(infos[Best(infos)], infos[i])
  {
    var n := |infos| - 1;
    if n > 0 {
      var init := infos[..n];
      assert infos == init + [infos[n]];
      BestIsFirstMinimum(init);
      var b := Best(init);
      if LowerRatio(infos[n], infos[b]) {
        forall i | 0 <= i < n
          ensures LowerRatio(infos[n], infos[i]) && !LowerRatio(infos[i], infos[n])
        {
          assert infos[i] == init[i];
          RatioTransitive(infos[n], infos[b], infos[i]);
        }
      }
    }
  }

  // -------------------------------------------------------------------------
  // One call of `route`
  // -------------------------------------------------------------------------

  datatype Strategy = FailFast | BestEffort | Queue

  datatype RouteError = NoServers | AllBusy

  datatype Decision = Granted(url: Url) | Rejected(error: RouteError) | Park

  datatype Outcome = Outcome(decision: Decision, slots: Slots, rr: map<Model, nat>)

  function RrOf(rr: map<Model, nat>, m: Model): nat {
    if m in rr then rr[m] else 0
  }

  /** What follows the scan: its pick, or else the strategy's fallback over the sorted candidates. */
  function Conclude(sorted: seq<Info>, r: Scanned, slots: Slots, rr: map<Model, nat>,
                    strategy: Strategy, live: bool, m: Model, allowQueue: bool): Outcome
    requires sorted != []
  {
    var rr' := rr[m := r.rr];
    if r.pick.Some? then
      Outcome(Granted(r.pick.value.url), Bump(slots, r.pick.value.url, 1), rr')
    else if strategy == BestEffort && live then
      Outcome(Granted(sorted[Best(sorted)].url), Bump(slots, sorted[Best(sorted)].url, 1), rr')
    else if strategy == Queue && allowQueue then Outcome(Park, slots, rr')
    else Outcome(Rejected(AllBusy), slots, rr')
  }

  ghost function RouteStep(servers: seq<Url>, slots: Slots, rr: map<Model, nat>, f: Sorter,
                           strategy: Strategy, live: bool, m: Model, allowQueue: bool): Outcome
    requires IsSorter(f)
  {
    var infos := Snapshot(servers, slots);
    if infos == [] then Outcome(Rejected(NoServers), slots, rr)
    else
      var sorted := Sorted(infos, f);
      SortedIsAscendingPermutation(infos, f);
      Conclude(sorted, Scan(Groups(sorted), RrOf(rr, m), live), slots, rr, strategy, live, m, allowQueue)
  }

  /** A healthy server of the model that is in the pool. */
  predicate Candidate(servers: seq<Url>, slots: Slots, u: Url) {
    u in servers && u in slots
  }

  ghost predicate NoCandidateHasRoom(servers: seq<Url>, slots: Slots) {
    forall u :: Candidate(servers, slots, u) ==> !slots[u].HasRoom()
  }

  lemma SnapshotRoom(servers: seq<Url>, slots: Slots)
    ensures NoRoom(Snapshot(servers, slots)) <==> NoCandidateHasRoom(servers, slots)
    ensures Snapshot(servers, slots) == [] <==> forall u :: !Candidate(servers, slots, u)
  {
    SnapshotMembers(servers, slots);
    var infos := Snapshot(servers, slots);
    forall u | Candidate(servers, slots, u) ensures InfoOf(slots, u) in infos {
    }
    if infos != [] {
      assert infos[0] in infos;
      assert Candidate(servers, slots, infos[0].url);
    }
  }

  /**
   The simple selection a sequential `route` with a live context refines: a grant below
   capacity goes to the nearest candidate with room, and the fallback is reached exactly
   when no candidate has room.
   */
  lemma RouteRefinesNearest(servers: seq<Url>, slots: Slots, rr: map<Model, nat>, f: Sorter, strategy: Strategy,
                            m: Model, allowQueue: bool)
    requires IsSorter(f)
    ensures var o := RouteStep(servers, slots, rr, f, strategy, true, m, allowQueue);
      && (o.decision == Rejected(NoServers) <==> forall u :: !Candidate(servers, slots, u))
      && (!NoCandidateHasRoom(servers, slots) ==>
            && o.decision.Granted?
            && Candidate(servers, slots, o.decision.url)
            && slots[o.decision.url].HasRoom()
            && forall u :: Candidate(servers, slots, u) && slots[u].HasRoom()
                 ==> slots[o.decision.url].server.distance <= slots[u].server.distance)
      && (NoCandidateHasRoom(servers, slots) && o.decision != Rejected(NoServers) ==>
            (o.decision.Granted? <==> strategy == BestEffort))
      && (o.decision == Park <==>
            NoCandidateHasRoom(servers, slots) && strategy == Queue && allowQueue
            && exists u :: Candidate(servers, slots, u))
  {
    var infos := Snapshot(servers, slots);
    SnapshotRoom(servers, slots);
    SnapshotMembers(servers, slots);
    if infos != [] {
      ScanPicksNearestWithRoom(infos, f, RrOf(rr, m));
      var pick := Scan(Groups(Sorted(infos, f)), RrOf(rr, m), true).pick;
      if pick.Some? {
        forall u | Candidate(servers, slots, u) && slots[u].HasRoom()
          ensures pick.value.distance <= slots[u].server.distance
        {
          assert InfoOf(slots, u) in infos;
        }
      }
    }
  }

  /**
   Which of the nearest servers wins: the first with room in cyclic order from the start
   of its tier, every tier before it being full; the model's number moves just past that start.
   */
  lemma RouteTakesFirstInCyclicOrder(servers: seq<Url>, slots: Slots, rr: map<Model, nat>, f: Sorter,
                                     strategy: Strategy, m: Model, allowQueue: bool)
    returns (g: nat, k: nat)
    requires IsSorter(f) && !NoCandidateHasRoom(servers, slots)
    ensures var groups := Groups(Sorted(Snapshot(servers, slots), f));
      && FirstInScanOrder(groups, RrOf(rr, m), g, k)
      && var start := Start(groups, RrOf(rr, m), g);
         var winner := groups[g][Cyclic(start, k, |groups[g]|)].url;
         RouteStep(servers, slots, rr, f, strategy, true, m, allowQueue)
         == Outcome(Granted(winner), Bump(slots, winner, 1), rr[m := start + 1])
  {
    var infos := Snapshot(servers, slots);
    SomeRoom(servers, slots);
    g, k := ScanWins(infos, f, RrOf(rr, m));
    var groups := Groups(Sorted(infos, f));
    var start := Start(groups, RrOf(rr, m), g);
    var winner := groups[g][Cyclic(start, k, |groups[g]|)];
    RouteOfWinner(servers, slots, rr, f, strategy, m, allowQueue, winner, start + 1);
  }

  ghost predicate Decides(d: Decision, servers: seq<Url>, slots: Slots, strategy: Strategy, live: bool,
                          allowQueue: bool) {
    if forall u :: !Candidate(servers, slots, u) then d == Rejected(NoServers)
    else if live && !NoCandidateHasRoom(servers, slots) then d.Granted?
    else
      match strategy
      case BestEffort => if live then d.Granted? else d == Rejected(AllBusy)
      case Queue => d == if allowQueue then Park else Rejected(AllBusy)
      case FailFast => d == Rejected(AllBusy)
  }

  /** The decision on every request: live or done, whatever the candidates and the strategy. */
  lemma RouteDecides(servers: seq<Url>, slots: Slots, rr: map<Model, nat>, f: Sorter,
                     strategy: Strategy, live: bool, m: Model, allowQueue: bool)
    requires IsSorter(f)
    ensures Decides(RouteStep(servers, slots, rr, f, strategy, live, m, allowQueue).decision,
                    servers, slots, strategy, live, allowQueue)
  {
    SnapshotRoom(servers, slots);
    if live {
      RouteRefinesNearest(servers, slots, rr, f, strategy, m, allowQueue);
    } else if Snapshot(servers, slots) != [] {
      DoneContextPicksNothing(Groups(Sorted(Snapshot(servers, slots), f)), RrOf(rr, m));
    }
  }

  /** A model nobody asked for before starts at the front of its nearest tier. */
  lemma FirstRequestStartsInFront(servers: seq<Url>, slots: Slots, rr: map<Model, nat>, f: Sorter,
                                  strategy: Strategy, m: Model, allowQueue: bool)
    requires IsSorter(f) && m !in rr && Snapshot(servers, slots) != []
    ensures var sorted := Sorted(Snapshot(servers, slots), f);
            var o := RouteStep(servers, slots, rr, f, strategy, true, m, allowQueue);
      && sorted != []
      && (sorted[0].inflight < sorted[0].maxConn ==> o.decision == Granted(sorted[0].url) && o.rr == rr[m := 1])
  {
    var sorted := Sorted(Snapshot(servers, slots), f);
    SortedIsAscendingPermutation(Snapshot(servers, slots), f);
    var first := Groups(sorted)[0];
    if sorted[0].HasRoom() {
      assert first[0] == sorted[0] && Cyclic(0, 0, |first|) == 0;
    }
  }

  /** Without candidates nothing moves. */
  lemma RouteWithoutCandidates(servers: seq<Url>, slots: Slots, rr: map<Model, nat>, f: Sorter,
                               strategy: Strategy, live: bool, m: Model, allowQueue: bool)
    requires IsSorter(f) && forall u :: !Candidate(servers, slots, u)
    ensures RouteStep(servers, slots, rr, f, strategy, live, m, allowQueue)
         == Outcome(Rejected(NoServers), slots, rr)
  {
    SnapshotRoom(servers, slots);
  }

  /**
   A request that takes nothing from a tier moves its model's number, and no other, to one
   past the start of the last tier.
   */
  lemma RouteMovesNumber(servers: seq<Url>, slots: Slots, rr: map<Model, nat>, f: Sorter,
                         strategy: Strategy, live: bool, m: Model, allowQueue: bool)
    requires IsSorter(f) && (!live || NoCandidateHasRoom(servers, slots))
    requires exists u :: Candidate(servers, slots, u)
    ensures var groups := Groups(Sorted(Snapshot(servers, slots), f));
      groups != []
      && RouteStep(servers, slots, rr, f, strategy, live, m, allowQueue).rr
         == rr[m := Start(groups, RrOf(rr, m), |groups| - 1) + 1]
  {
    NothingToTake(servers, slots, live);
    RoomlessRoute(servers, slots, rr, f, strategy, live, m, allowQueue);
  }

  lemma NothingToTake(servers: seq<Url>, slots: Slots, live: bool)
    requires !live || NoCandidateHasRoom(servers, slots)
    requires exists u :: Candidate(servers, slots, u)
    ensures Snapshot(servers, slots) != [] && (!live || NoRoom(Snapshot(servers, slots)))
  {
    SnapshotRoom(servers, slots);
  }

  lemma RoomlessRoute(servers: seq<Url>, slots: Slots, rr: map<Model, nat>, f: Sorter,
                      strategy: Strategy, live: bool, m: Model, allowQueue: bool)
    requires IsSorter(f) && Snapshot(servers, slots) != [] && (!live || NoRoom(Snapshot(servers, slots)))
    ensures var groups := Groups(Sorted(Snapshot(servers, slots), f));
      groups != []
      && RouteStep(servers, slots, rr, f, strategy, live, m, allowQueue).rr
         == rr[m := Start(groups, RrOf(rr, m), |groups| - 1) + 1]
  {
    var groups := Groups(Sorted(Snapshot(servers, slots), f));
    RoomlessScan(Snapshot(servers, slots), f, RrOf(rr, m), live);
    RouteStoresNumber(servers, slots, rr, f, strategy, live, m, allowQueue,
                      Start(groups, RrOf(rr, m), |groups| - 1) + 1);
  }

  lemma RouteStoresNumber(servers: seq<Url>, slots: Slots, rr: map<Model, nat>, f: Sorter,
                          strategy: Strategy, live: bool, m: Model, allowQueue: bool, n: nat)
    requires IsSorter(f) && Snapshot(servers, slots) != []
    requires n == Scan(Groups(Sorted(Snapshot(servers, slots), f)), RrOf(rr, m), live).rr
    ensures RouteStep(servers, slots, rr, f, strategy, live, m, allowQueue).rr == rr[m := n]
  {
  }

  lemma RoomlessScan(infos: seq<Info>, f: Sorter, rr: nat, live: bool)
    requires IsSorter(f) && infos != [] && (!live || NoRoom(infos))
    ensures var groups := Groups(Sorted(infos, f));
      groups != [] && Scan(groups, rr, live).rr == Start(groups, rr, |groups| - 1) + 1
  {
    SortedIsAscendingPermutation(infos, f);
    if live {
      RoomlessTiers(infos, f);
    }
    EmptyScanLeaves(Groups(Sorted(infos, f)), rr, live);
  }

  lemma RoomlessTiers(infos: seq<Info>, f: Sorter)
    requires IsSorter(f) && NoRoom(infos)
    ensures forall h :: 0 <= h < |Groups(Sorted(infos, f))| ==> NoRoom(Groups(Sorted(infos, f))[h])
  {
    SortedIsAscendingPermutation(infos, f);
    GroupsMembers(Sorted(infos, f));
  }

  /** With room somewhere the strategy and the leave to queue do not matter to a live call. */
  lemma FallbackDoesNotMatter(servers: seq<Url>, slots: Slots, rr: map<Model, nat>, f: Sorter, m: Model,
                              strategy: Strategy, allowQueue: bool, other: Strategy, otherQueue: bool)
    requires IsSorter(f) && !NoCandidateHasRoom(servers, slots)
    ensures RouteStep(servers, slots, rr, f, strategy, true, m, allowQueue)
         == RouteStep(servers, slots, rr, f, other, true, m, otherQueue)
  {
    var infos := Snapshot(servers, slots);
    SomeRoom(servers, slots);
    var g, k := ScanWins(infos, f, RrOf(rr, m));
    var groups := Groups(Sorted(infos, f));
    var start := Start(groups, RrOf(rr, m), g);
    var winner := groups[g][Cyclic(start, k, |groups[g]|)];
    RouteOfWinner(servers, slots, rr, f, strategy, m, allowQueue, winner, start + 1);
    RouteOfWinner(servers, slots, rr, f, other, m, otherQueue, winner, start + 1);
  }

  lemma SomeRoom(servers: seq<Url>, slots: Slots)
    requires !NoCandidateHasRoom(servers, slots)
    ensures Snapshot(servers, slots) != [] && !NoRoom(Snapshot(servers, slots))
  {
    SnapshotRoom(servers, slots);
  }

  lemma RouteOfWinner(servers: seq<Url>, slots: Slots, rr: map<Model, nat>, f: Sorter, strategy: Strategy,
                      m: Model, allowQueue: bool, winner: Info, next: nat)
    requires IsSorter(f) && Snapshot(servers, slots) != []
    requires Scan(Groups(Sorted(Snapshot(servers, slots), f)), RrOf(rr, m), true) == Scanned(Some(winner), next)
    ensures RouteStep(servers, slots, rr, f, strategy, true, m, allowQueue)
         == Outcome(Granted(winner.url), Bump(slots, winner.url, 1), rr[m := next])
  {
  }

  lemma ScanWins(infos: seq<Info>, f: Sorter, rr: nat) returns (g: nat, k: nat)
    requires IsSorter(f) && !NoRoom(infos)
    ensures var groups := Groups(Sorted(infos, f));
      && FirstInScanOrder(groups, rr, g, k)
      && Scan(groups, rr, true)
         == Scanned(Some(groups[g][Cyclic(Start(groups, rr, g), k, |groups[g]|)]), Start(groups, rr, g) + 1)
  {
    ScanPicksNearestWithRoom(infos, f, rr);
    g, k := ScanFindsFirst(Groups(Sorted(infos, f)), rr);
  }

  /** With a done context every acquire fails, so no slot is taken whatever the strategy. */
  lemma DoneContextTakesNothing(servers: seq<Url>, slots: Slots, rr: map<Model, nat>, f: Sorter,
                                strategy: Strategy, m: Model, allowQueue: bool)
    requires IsSorter(f)
    ensures var o := RouteStep(servers, slots, rr, f, strategy, false, m, allowQueue);
      !o.decision.Granted? && o.slots == slots
  {
    var infos := Snapshot(servers, slots);
    if infos != [] {
      DoneContextPicksNothing(Groups(Sorted(infos, f)), RrOf(rr, m));
    }
  }

  /** Whatever the context and the strategy: a grant is one slot of one candidate, nothing else moves. */
  lemma RouteMovesOneCounter(servers: seq<Url>, slots: Slots, rr: map<Model, nat>, f: Sorter,
                             strategy: Strategy, live: bool, m: Model, allowQueue: bool)
    requires IsSorter(f)
    ensures var o := RouteStep(servers, slots, rr, f, strategy, live, m, allowQueue);
      && (o.decision.Granted? ==>
            && live && Candidate(servers, slots, o.decision.url)
            && o.slots == Bump(slots, o.decision.url, 1))
      && (!o.decision.Granted? ==> o.slots == slots)
      && (strategy != BestEffort && o.decision.Granted? ==> slots[o.decision.url].HasRoom())
  {
    if !live {
      DoneContextTakesNothing(servers, slots, rr, f, strategy, m, allowQueue);
    } else if Snapshot(servers, slots) != [] {
      var pick := WinnerIsCandidate(servers, slots, rr, f, m);
      if pick.None? {
        BestIsCandidate(servers, slots, f);
      }
    }
  }

  lemma BestIsCandidate(servers: seq<Url>, slots: Slots, f: Sorter)
    requires IsSorter(f) && Snapshot(servers, slots) != []
    ensures var sorted := Sorted(Snapshot(servers, slots), f);
      sorted != [] && Candidate(servers, slots, sorted[Best(sorted)].url)
  {
    var infos := Snapshot(servers, slots);
    SortedIsAscendingPermutation(infos, f);
    SnapshotMembers(servers, slots);
    var sorted := Sorted(infos, f);
    assert sorted[Best(sorted)] in sorted;
  }

  lemma WinnerIsCandidate(servers: seq<Url>, slots: Slots, rr: map<Model, nat>, f: Sorter, m: Model)
    returns (pick: Option<Info>)
    requires IsSorter(f)
    ensures pick == Scan(Groups(Sorted(Snapshot(servers, slots), f)), RrOf(rr, m), true).pick
    ensures pick.Some? ==>
      Candidate(servers, slots, pick.value.url) && slots[pick.value.url].HasRoom()
  {
    ScanPicksNearestWithRoom(Snapshot(servers, slots), f, RrOf(rr, m));
    SnapshotMembers(servers, slots);
    pick := Scan(Groups(Sorted(Snapshot(servers, slots), f)), RrOf(rr, m), true).pick;
  }
}
