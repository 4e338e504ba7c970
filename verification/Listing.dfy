/**
  Enumeration of a registry. The specification is the one sequence that holds the
  metadata of every unexpired record in (created_at, id) order; the implementation
  filters, sorts and slices the hash map's values in whatever order they come.
  */
module Listing {
  import opened Handles
  import opened KeyTypes

  type Metas = seq<KeyMetadata>

  predicate Before(a: KeyMetadata, b: KeyMetadata) {
    a.createdAt < b.createdAt || (a.createdAt == b.createdAt && a.id < b.id)
  }

  predicate Sorted(l: Metas) {
    forall i, j :: 0 <= i < j < |l| ==> Before(l[i], l[j])
  }

  predicate Listed(keys: Keys, now: nat, m: KeyMetadata) {
    m.id in keys && keys[m.id].meta == m && m.deleteAfter > now
  }

  ghost predicate IsListing(keys: Keys, now: nat, l: Metas) {
    Sorted(l) && forall m :: m in l <==> Listed(keys, now, m)
  }

  // ---------- one listing only ----------

  lemma SortedTail(l: Metas)
    requires Sorted(l) && |l| > 0
    ensures Sorted(l[1..]) && l[0] !in l[1..] && forall m :: m in l <==> m == l[0] || m in l[1..]
  {
    assert l == [l[0]] + l[1..];
  }

  /** What one sorted list shares with another, when the rest of the other comes later. */
  lemma {:induction false} PrefixOfLater(a: Metas, b: Metas)
    requires Sorted(a) && Sorted(b)
    requires forall m :: m in a ==> m in b
    requires forall m, x :: m in b && m !in a && x in a ==> Before(x, m)
    ensures a <= b
  {
    if |a| > 0 {
      assert a[0] in b;
      assert a[0] != b[0] ==> Before(b[0], a[0]);
      assert a[0] != b[0] && b[0] in a ==> Before(a[0], b[0]);
      assert a[0] != b[0] && b[0] !in a ==> Before(a[0], b[0]);
      assert a[0] == b[0];
      SortedTail(a);
      SortedTail(b);
      PrefixOfLater(a[1..], b[1..]);
      assert a == [a[0]] + a[1..] && b == [b[0]] + b[1..];
    }
  }

  /** A registry has at most one listing. */
  lemma ListingUnique(keys: Keys, now: nat, a: Metas, b: Metas)
    requires IsListing(keys, now, a) && IsListing(keys, now, b)
    ensures a == b
  {
    PrefixOfLater(a, b);
    PrefixOfLater(b, a);
  }

  /** No two places of a listing hold the same key. */
  lemma ListedOnce(keys: Keys, now: nat, l: Metas, i: nat, j: nat)
    requires IsListing(keys, now, l) && i < j < |l|
    ensures l[i].id != l[j].id
  {
    assert Listed(keys, now, l[i]) && Listed(keys, now, l[j]) && Before(l[i], l[j]);
  }

  // ---------- the implementation ----------

  function Insert(m: KeyMetadata, l: Metas): (r: Metas)
    requires Sorted(l) && forall x :: x in l ==> x.id != m.id
    ensures Sorted(r) && |r| == |l| + 1
    ensures forall x :: x in r <==> x == m || x in l
  {
    if |l| == 0 then [m]
    else if Before(m, l[0]) then
      assert forall i :: 0 < i < |l| ==> Before(l[0], l[i]);
      [m] + l
    else
      SortedTail(l);
      var r := [l[0]] + Insert(m, l[1..]);
      assert forall i :: 0 < i < |r| ==> r[i] in Insert(m, l[1..]);
      r
  }

  /** Every registry has a listing. */
  lemma {:induction false} ListingExists(keys: Keys, now: nat) returns (l: Metas)
    requires WellKeyed(keys)
    ensures IsListing(keys, now, l)
    decreases |keys|
  {
    if keys == map[] {
      l := [];
    } else {
      var id :| id in keys;
      var m := keys[id].meta;
      var others := keys - {id};
      l := ListingExists(others, now);
      if m.deleteAfter > now {
        l := Insert(m, l);
      }
    }
  }

  /** `order` is the order in which the hash map yields its values. */
  ghost predicate Enumerates(order: seq<Uuid>, keys: Keys) {
    && (forall id :: id in keys <==> id in order)
    && (forall i, j :: 0 <= i < j < |order| ==> order[i] != order[j])
  }

  function Page(l: Metas, offset: nat, limit: nat): Metas {
    if offset >= |l| then []
    else if limit <= |l| - offset then l[offset..offset + limit]
    else l[offset..]
  }

  /** Whatever the hash map's order, a page is a slice of the listing. */
  method ListAllKeys(keys: Keys, order: seq<Uuid>, now: nat, offset: nat, limit: nat)
    returns (page: Metas, total: nat)
    requires WellKeyed(keys) && Enumerates(order, keys)
    ensures forall l :: IsListing(keys, now, l) ==> page == Page(l, offset, limit) && total == |l|
    ensures exists l :: IsListing(keys, now, l)
  {
    var refs: Metas := [];
    for i := 0 to |order|
      invariant forall m :: m in refs <==> m.id in order[..i] && Listed(keys, now, m)
      invariant forall j, k :: 0 <= j < k < |refs| ==> refs[j].id != refs[k].id
    {
      var m := keys[order[i]].meta;
      assert order[..i + 1] == order[..i] + [order[i]];
      if m.deleteAfter > now {
        refs := refs + [m];
      }
    }
    assert order[..|order|] == order;
    var sorted: Metas := [];
    for i := 0 to |refs|
      invariant Sorted(sorted) && |sorted| == i
      invariant forall m :: m in sorted <==> m in refs[..i]
    {
      assert refs[..i + 1] == refs[..i] + [refs[i]];
      sorted := Insert(refs[i], sorted);
    }
    assert refs[..|refs|] == refs;
    assert IsListing(keys, now, sorted);
    forall l | IsListing(keys, now, l)
      ensures l == sorted
    {
      ListingUnique(keys, now, l, sorted);
    }
    page, total := Page(sorted, offset, limit), |sorted|;
  }

  /** In plain words: a page holds unexpired records, each once, by time of creation and then by id. */
  lemma PageInOrder(keys: Keys, now: nat, l: Metas, offset: nat, limit: nat, i: nat, j: nat)
    requires IsListing(keys, now, l) && i < j < |Page(l, offset, limit)|
    ensures var a, b := Page(l, offset, limit)[i], Page(l, offset, limit)[j];
            && (a.createdAt < b.createdAt || (a.createdAt == b.createdAt && a.id < b.id))
            && a.id in keys && keys[a.id].meta == a && a.deleteAfter > now
            && b.id in keys && keys[b.id].meta == b && b.deleteAfter > now
  {
    assert Page(l, offset, limit)[i] == l[offset + i] && Page(l, offset, limit)[j] == l[offset + j];
    assert Listed(keys, now, l[offset + i]) && Listed(keys, now, l[offset + j]) && Before(l[offset + i], l[offset + j]);
  }

  /** has_more as the cores compute it, in usize arithmetic: no offset can make the sum overflow. */
  lemma HasMoreExact(l: Metas, offset: nat, limit: nat, usizeMax: nat)
    requires |l| <= usizeMax && offset <= usizeMax
    ensures var count := |Page(l, offset, limit)|;
            && offset + count <= usizeMax
            && (offset + count < |l| <==> Page(l, offset + count, 1) != [])
            && (offset <= |l| ==> l[..offset] + Page(l, offset, limit) + l[offset + count..] == l)
  {
    if offset <= |l| {
      var count := |Page(l, offset, limit)|;
      assert l[offset..offset + count] == Page(l, offset, limit);
      assert l == l[..offset] + l[offset..offset + count] + l[offset + count..];
    }
  }

  // ---------- walking pages while the registry changes ----------

  datatype Walk = Walk(items: Metas, finished: bool, last: nat)

  /** Read k sees snapshot k; the walk goes on as long as has_more says so. */
  function WalkPages(snaps: seq<Metas>, k: nat, offset: nat, limit: nat): (w: Walk)
    requires k < |snaps|
    ensures k <= w.last < |snaps|
    decreases |snaps| - k
  {
    var page := Page(snaps[k], offset, limit);
    var next := offset + |page|;
    if next >= |snaps[k]| then Walk(page, true, k)
    else if k + 1 == |snaps| then Walk(page, false, k)
    else
      var rest := WalkPages(snaps, k + 1, next, limit);
      Walk(page + rest.items, rest.finished, rest.last)
  }

  predicate Growing(snaps: seq<Metas>) {
    forall i, j :: 0 <= i <= j < |snaps| ==> snaps[i] <= snaps[j]
  }

  /** What a walk from offset has read is a slice of the listing its last read saw, and the whole rest
      of that listing exactly when has_more was false. */
  predicate ReadsThrough(w: Walk, snaps: seq<Metas>, offset: nat)
    requires w.last < |snaps|
  {
    var end := offset + |w.items|;
    && end <= |snaps[w.last]|
    && w.items == snaps[w.last][offset..end]
    && (w.finished <==> end == |snaps[w.last]|)
  }

  lemma ReadsOn(snaps: seq<Metas>, k: nat, offset: nat, page: Metas, rest: Walk)
    requires k < |snaps| && rest.last < |snaps| && snaps[k] <= snaps[rest.last]
    requires offset + |page| <= |snaps[k]| && page == snaps[k][offset..offset + |page|]
    requires ReadsThrough(rest, snaps, offset + |page|)
    ensures ReadsThrough(Walk(page + rest.items, rest.finished, rest.last), snaps, offset)
  {
    var next := offset + |page|;
    SliceJoin(snaps[k], snaps[rest.last], offset, next, next + |rest.items|);
  }

  /** The walk's next read, if it makes one. */
  predicate GoesOn(snaps: seq<Metas>, k: nat, offset: nat, limit: nat)
    requires k < |snaps|
  {
    offset + |Page(snaps[k], offset, limit)| < |snaps[k]| && k + 1 < |snaps|
  }

  lemma WalkUnfolds(snaps: seq<Metas>, k: nat, offset: nat, limit: nat)
    requires k < |snaps| && GoesOn(snaps, k, offset, limit)
    ensures var page := Page(snaps[k], offset, limit);
            var rest := WalkPages(snaps, k + 1, offset + |page|, limit);
            WalkPages(snaps, k, offset, limit) == Walk(page + rest.items, rest.finished, rest.last)
  {
  }

  lemma WalkEnds(snaps: seq<Metas>, k: nat, offset: nat, limit: nat)
    requires k < |snaps| && offset <= |snaps[k]| && !GoesOn(snaps, k, offset, limit)
    ensures ReadsThrough(WalkPages(snaps, k, offset, limit), snaps, offset)
  {
    PageIsSlice(snaps[k], offset, limit);
  }

  lemma WalkSteps(snaps: seq<Metas>, k: nat, offset: nat, limit: nat)
    requires k < |snaps| && GoesOn(snaps, k, offset, limit)
    requires var rest := WalkPages(snaps, k + 1, offset + |Page(snaps[k], offset, limit)|, limit);
             snaps[k] <= snaps[rest.last] && ReadsThrough(rest, snaps, offset + |Page(snaps[k], offset, limit)|)
    ensures ReadsThrough(WalkPages(snaps, k, offset, limit), snaps, offset)
  {
    var page := Page(snaps[k], offset, limit);
    PageIsSlice(snaps[k], offset, limit);
    WalkUnfolds(snaps, k, offset, limit);
    ReadsOn(snaps, k, offset, page, WalkPages(snaps, k + 1, offset + |page|, limit));
  }

  /** If listings only grow at the end, a walk repeats nothing, skips nothing and moves nothing. */
  lemma {:induction false} WalkIsStable(snaps: seq<Metas>, k: nat, offset: nat, limit: nat)
    requires k < |snaps| && offset <= |snaps[k]| && 0 < limit && Growing(snaps)
    ensures ReadsThrough(WalkPages(snaps, k, offset, limit), snaps, offset)
    decreases |snaps| - k
  {
    if GoesOn(snaps, k, offset, limit) {
      var next := offset + |Page(snaps[k], offset, limit)|;
      GrowsBetween(snaps, k, k + 1);
      WalkIsStable(snaps, k + 1, next, limit);
      GrowsBetween(snaps, k, WalkPages(snaps, k + 1, next, limit).last);
      WalkSteps(snaps, k, offset, limit);
    } else {
      WalkEnds(snaps, k, offset, limit);
    }
  }

  lemma GrowsBetween(snaps: seq<Metas>, i: nat, j: nat)
    requires Growing(snaps) && i <= j < |snaps|
    ensures snaps[i] <= snaps[j] && |snaps[i]| <= |snaps[j]|
  {
  }

  lemma PageIsSlice(l: Metas, offset: nat, limit: nat)
    requires offset <= |l|
    ensures var page := Page(l, offset, limit); offset + |page| <= |l| && page == l[offset..offset + |page|]
  {
  }

  lemma SliceJoin(early: Metas, whole: Metas, i: nat, j: nat, k: nat)
    requires early <= whole && i <= j <= |early| && j <= k <= |whole|
    ensures early[i..j] + whole[j..k] == whole[i..k]
  {
    assert early[i..j] == whole[i..j];
  }

  /** Pages of any positive size over an unchanging registry concatenate to its listing. */
  lemma PagesConcatenate(l: Metas, limit: nat, rounds: nat)
    requires 0 < limit && |l| <= limit * rounds && 0 < rounds
    ensures var w := WalkPages(seq(rounds, _ => l), 0, 0, limit); w.finished && w.items == l
  {
    var snaps := seq(rounds, _ => l);
    WalkIsStable(snaps, 0, 0, limit);
    WalkLength(snaps, 0, 0, limit, l);
  }

  lemma {:induction false} WalkLength(snaps: seq<Metas>, k: nat, offset: nat, limit: nat, l: Metas)
    requires k < |snaps| && offset <= |l| && 0 < limit
    requires forall i :: 0 <= i < |snaps| ==> snaps[i] == l
    requires |l| - offset <= limit * (|snaps| - k)
    ensures WalkPages(snaps, k, offset, limit).finished
    decreases |snaps| - k
  {
    var page := Page(l, offset, limit);
    if offset + |page| < |l| {
      assert |page| == limit;
      assert limit * (|snaps| - k) == limit + limit * (|snaps| - k - 1);
      if k + 1 < |snaps| {
        WalkLength(snaps, k + 1, offset + limit, limit, l);
      }
    }
  }

  /** Positions stay put exactly when nothing listed is lost and everything new sorts later. */
  lemma PositionsStableIff(keys: Keys, now: nat, a: Metas, keys': Keys, now': nat, b: Metas)
    requires IsListing(keys, now, a) && IsListing(keys', now', b)
    ensures a <= b <==>
            && (forall m :: Listed(keys, now, m) ==> Listed(keys', now', m))
            && (forall m, x :: Listed(keys', now', m) && !Listed(keys, now, m) && Listed(keys, now, x) ==> Before(x, m))
  {
    if a <= b {
      forall m | Listed(keys, now, m)
        ensures Listed(keys', now', m)
      {
        assert m in a;
        var i :| 0 <= i < |a| && a[i] == m;
        assert b[i] == m;
      }
      forall m, x | Listed(keys', now', m) && !Listed(keys, now, m) && Listed(keys, now, x)
        ensures Before(x, m)
      {
        assert m in b && m !in a && x in a;
        var i :| 0 <= i < |a| && a[i] == x;
        var j :| 0 <= j < |b| && b[j] == m;
        assert b[i] == x;
        assert |a| <= j;
      }
    } else if && (forall m :: Listed(keys, now, m) ==> Listed(keys', now', m))
              && (forall m, x :: Listed(keys', now', m) && !Listed(keys, now, m) && Listed(keys, now, x) ==>
                    Before(x, m)) {
      PrefixOfLater(a, b);
    }
  }

  // ---------- a registry that changes between reads ----------

  /** What one page read sees: the registry, and the clock it samples itself. */
  datatype View = View(keys: Keys, now: nat)

  /** Between two reads nothing listed is removed or expires, and what is new was created after
      everything listed. Expired records may stay or be swept. */
  ghost predicate OnlyLaterAdded(r: View, r': View) {
    && r.now <= r'.now
    && (forall id :: Live(r.keys, r.now, id) ==> Live(r'.keys, r'.now, id))
    && (forall id :: id in r.keys && id in r'.keys ==> r'.keys[id] == r.keys[id])
    && (forall id, id' :: id in r'.keys && id !in r.keys && Live(r.keys, r.now, id') ==>
          r.keys[id'].meta.createdAt < r'.keys[id].meta.createdAt)
  }

  /** Such a change moves no position. */
  lemma LaterAdditionsAreStable(r: View, r': View, a: Metas, b: Metas)
    requires WellKeyed(r.keys) && OnlyLaterAdded(r, r')
    requires IsListing(r.keys, r.now, a) && IsListing(r'.keys, r'.now, b)
    ensures a <= b
  {
    forall m | Listed(r.keys, r.now, m)
      ensures Listed(r'.keys, r'.now, m)
    {
      assert Live(r.keys, r.now, m.id);
    }
    forall m, x | Listed(r'.keys, r'.now, m) && !Listed(r.keys, r.now, m) && Listed(r.keys, r.now, x)
      ensures Before(x, m)
    {
      assert Live(r.keys, r.now, x.id);
      assert m.id !in r.keys;
    }
    PositionsStableIff(r.keys, r.now, a, r'.keys, r'.now, b);
  }

  /** The listings that a series of reads sees. */
  ghost predicate AreListings(views: seq<View>, snaps: seq<Metas>) {
    && |snaps| == |views|
    && forall i :: 0 <= i < |views| ==> WellKeyed(views[i].keys) && IsListing(views[i].keys, views[i].now, snaps[i])
  }

  ghost predicate OnlyLaterAddedThroughout(views: seq<View>) {
    forall i, j :: 0 <= i && j == i + 1 < |views| ==> OnlyLaterAdded(views[i], views[j])
  }

  lemma {:induction false} ListingsGrow(views: seq<View>, snaps: seq<Metas>, i: nat, j: nat)
    requires AreListings(views, snaps) && OnlyLaterAddedThroughout(views) && i <= j < |views|
    ensures snaps[i] <= snaps[j]
  {
    if i < j {
      ListingsGrow(views, snaps, i, j - 1);
      assert OnlyLaterAdded(views[j - 1], views[j]);
      LaterAdditionsAreStable(views[j - 1], views[j], snaps[j - 1], snaps[j]);
    }
  }

  /** A page walk over a registry that changes between views, at clocks of its own: it repeats nothing,
      skips nothing and no earlier position moves, so that what it returns is, at every point, the
      start of what its last read could have listed, and all of it once has_more is false. */
  lemma WalkOverChangesIsStable(views: seq<View>, snaps: seq<Metas>, limit: nat)
    requires 0 < |views| && 0 < limit && AreListings(views, snaps) && OnlyLaterAddedThroughout(views)
    ensures Growing(snaps)
    ensures var w := WalkPages(snaps, 0, 0, limit);
            && w.items <= snaps[w.last] && Sorted(w.items)
            && (w.finished <==> w.items == snaps[w.last])
            && (w.finished ==> forall m :: m in w.items <==> Listed(views[w.last].keys, views[w.last].now, m))
  {
    forall i, j | 0 <= i <= j < |snaps|
      ensures snaps[i] <= snaps[j]
    {
      ListingsGrow(views, snaps, i, j);
    }
    WalkIsStable(snaps, 0, 0, limit);
    var w := WalkPages(snaps, 0, 0, limit);
    assert IsListing(views[w.last].keys, views[w.last].now, snaps[w.last]);
  }
}
