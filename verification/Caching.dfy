/** Objects kept beside the server, the least recently used given up first. */
module Caching {
  import opened Wrappers
  import opened Bytes
  import opened Names
  import opened Sorting

  // A cached file: when it was last used, where that can be told, and its size.
  datatype Kept = Kept(used: Option<nat>, size: nat)

  type Files = map<Oid, Kept>

  // ----- What the files take up -----

  ghost function Size(files: Files): nat {
    if files == map[] then 0
    else
      var o :| o in files;
      files[o].size + Size(files - {o})
  }

  lemma {:induction false} SizeWithout(files: Files, o: Oid)
    requires o in files
    ensures Size(files) == files[o].size + Size(files - {o})
  {
    var p :| p in files && Size(files) == files[p].size + Size(files - {p});
    if p != o {
      SizeWithout(files - {p}, o);
      SizeWithout(files - {o}, p);
      assert files - {p} - {o} == files - {o} - {p};
    }
  }

  lemma {:induction false} SizeGrows(part: Files, files: Files)
    requires part.Keys <= files.Keys && forall o | o in part :: part[o] == files[o]
    ensures Size(part) <= Size(files)
    decreases |files|
  {
    if o :| o in files && o !in part {
      SizeWithout(files, o);
      SizeGrows(part, files - {o});
    } else {
      assert part == files;
    }
  }

  function Among(files: Files, oids: seq<Oid>): Files {
    map o | o in files && o in oids :: files[o]
  }

  lemma OneMore(files: Files, oids: seq<Oid>, i: nat)
    requires i < |oids| && Distinct(oids) && oids[i] in files
    ensures Size(Among(files, oids[..i + 1])) == Size(Among(files, oids[..i])) + files[oids[i]].size
  {
    var o := oids[i];
    assert oids[..i + 1] == oids[..i] + [o];
    assert o !in oids[..i];
    assert Among(files, oids[..i + 1]) - {o} == Among(files, oids[..i]);
    SizeWithout(Among(files, oids[..i + 1]), o);
  }

  // ----- The order they go in -----

  // No known use counts as the oldest.
  predicate Before(a: Option<nat>, b: Option<nat>) {
    b.Some? && (a.None? || a.value < b.value)
  }

  function Use(files: Files, o: Oid): Option<nat> {
    if o in files then files[o].used else None
  }

  function ByUse(files: Files): (Oid, Oid) -> bool {
    (a: Oid, b: Oid) => Before(Use(files, a), Use(files, b))
  }

  lemma UsesOrder(files: Files)
    ensures Orders(ByUse(files))
  {
  }

  // A listing of the directory, in whatever order it comes.
  ghost predicate Lists(files: Files, listing: seq<Oid>) {
    Distinct(listing) && forall o :: o in listing <==> o in files
  }

  // Oldest use first.
  function Queue(files: Files, listing: seq<Oid>): seq<Oid> {
    Sorted(listing, ByUse(files))
  }

  lemma QueueLists(files: Files, listing: seq<Oid>)
    requires Lists(files, listing)
    ensures Lists(files, Queue(files, listing)) && |Queue(files, listing)| == |listing|
    ensures Ordered(Queue(files, listing), ByUse(files))
  {
    UsesOrder(files);
    SortedKeeps(listing, ByUse(files));
  }

  // ----- What is left when the first k have been tried -----

  // `stuck`: files that cannot be removed, which are passed over.
  function Rest(files: Files, queue: seq<Oid>, stuck: set<Oid>, k: nat): Files
    requires k <= |queue|
  {
    map o | o in files && (o in queue[k..] || o in stuck) :: files[o]
  }

  // Where eviction stops: as soon as the rest fits, or at the end.
  ghost predicate StopsAt(files: Files, queue: seq<Oid>, stuck: set<Oid>, ceiling: nat, k: nat) {
    && k <= |queue|
    && (Size(Rest(files, queue, stuck, k)) <= ceiling || k == |queue|)
    && (k > 0 ==> Size(Rest(files, queue, stuck, k - 1)) > ceiling)
  }

  ghost predicate Evicted(files: Files, after: Files, listing: seq<Oid>, stuck: set<Oid>, ceiling: nat) {
    var queue := Queue(files, listing);
    exists k: nat :: StopsAt(files, queue, stuck, ceiling, k) && after == Rest(files, queue, stuck, k)
  }

  lemma AllAtFirst(files: Files, queue: seq<Oid>, stuck: set<Oid>)
    requires Lists(files, queue)
    ensures Rest(files, queue, stuck, 0) == files
  {
  }

  lemma OneTried(files: Files, queue: seq<Oid>, stuck: set<Oid>, k: nat)
    requires Lists(files, queue) && k < |queue|
    ensures var o, rest := queue[k], Rest(files, queue, stuck, k);
      && o in files && o in rest && rest[o] == files[o]
      && Rest(files, queue, stuck, k + 1) == if o in stuck then rest else rest - {o}
  {
    var o := queue[k];
    assert queue[k..] == [o] + queue[k + 1..];
    assert o in queue;
    assert o !in queue[k + 1..];
  }

  // Checked files are forgotten with the files.
  function Trusted(verified: set<Oid>, was: Files, files: Files): set<Oid> {
    set o | o in verified && (o in files || o !in was)
  }

  class Cache {
    const ceiling: nat
    var files: Files
    var verified: set<Oid>

    constructor (ceiling: nat, files: Files)
      ensures this.ceiling == ceiling && this.files == files && verified == {}
    {
      this.ceiling := ceiling;
      this.files := files;
      verified := {};
    }

    method Held(listing: seq<Oid>) returns (total: nat)
      requires Lists(files, listing)
      ensures total == Size(files)
    {
      hide Size;
      total := 0;
      assert Size(Among(files, listing[..0])) == 0 by { NoneIsNothing(files, listing); }
      for i := 0 to |listing|
        invariant total == Size(Among(files, listing[..i]))
      {
        assert listing[i] in listing;
        OneMore(files, listing, i);
        total := total + files[listing[i]].size;
      }
      assert listing[..|listing|] == listing;
      assert Among(files, listing) == files;
    }

    method Evict(listing: seq<Oid>, stuck: set<Oid>)
      requires Lists(files, listing)
      modifies this
      ensures Evicted(old(files), files, listing, stuck, ceiling)
      ensures forall o :: o in verified <==> o in old(verified) && (o in old(files) ==> o in files)
    {
      hide Size, Rest, Lists, Queue, Trusted;
      ghost var was, known := files, verified;
      var total := Held(listing);
      var queue := Queue(files, listing);
      QueueLists(files, listing);
      AllAtFirst(files, queue, stuck);
      AllTrusted(verified, files);
      var i := 0;
      while i < |queue| && total > ceiling
        invariant 0 <= i <= |queue|
        invariant total == Size(files) && files == Rest(was, queue, stuck, i)
        invariant i > 0 ==> Size(Rest(was, queue, stuck, i - 1)) > ceiling
        invariant verified == Trusted(known, was, files)
      {
        var oid := queue[i];
        OneTried(was, queue, stuck, i);
        if oid !in stuck {
          SizeWithout(files, oid);
          TrustedLess(known, was, files, oid);
          total := total - files[oid].size;
          files := files - {oid};
          verified := verified - {oid};
        }
        i := i + 1;
      }
      assert StopsAt(was, queue, stuck, ceiling, i);
      TrustedMeans(known, was, files);
    }

    // A body that ended early, or ran on, is not kept.
    method Fill(oid: Oid, size: nat, chunks: seq<Bytes>, now: nat, listing: seq<Oid>, stuck: set<Oid>) returns (kept: bool)
      requires Lists(files[oid := Kept(Some(now), size)], listing)
      modifies this
      ensures kept <==> |Concat(chunks)| == size
      ensures !kept ==> files == old(files) && verified == old(verified)
      ensures kept ==> Evicted(old(files)[oid := Kept(Some(now), size)], files, listing, stuck, ceiling)
    {
      var written := 0;
      for i := 0 to |chunks|
        invariant written + |Concat(chunks[i..])| == |Concat(chunks)|
      {
        assert chunks[i..][1..] == chunks[i + 1..];
        written := written + |chunks[i]|;
      }
      assert chunks[|chunks|..] == [];
      if written != size {
        return false;
      }
      files := files[oid := Kept(Some(now), size)];
      Evict(listing, stuck);
      return true;
    }
  }

  lemma NoneIsNothing(files: Files, listing: seq<Oid>)
    ensures Size(Among(files, listing[..0])) == 0
  {
    assert Among(files, listing[..0]) == map[];
  }

  lemma TrustedMeans(verified: set<Oid>, was: Files, files: Files)
    ensures forall o :: o in Trusted(verified, was, files) <==> o in verified && (o in was ==> o in files)
  {
  }

  lemma AllTrusted(verified: set<Oid>, was: Files)
    ensures Trusted(verified, was, was) == verified
  {
  }

  lemma TrustedLess(verified: set<Oid>, was: Files, files: Files, o: Oid)
    requires o in was
    ensures Trusted(verified, was, files - {o}) == Trusted(verified, was, files) - {o}
  {
  }

  // ----- What eviction means -----

  lemma WhereItStops(files: Files, after: Files, listing: seq<Oid>, stuck: set<Oid>, ceiling: nat) returns (k: nat)
    requires Evicted(files, after, listing, stuck, ceiling)
    ensures StopsAt(files, Queue(files, listing), stuck, ceiling, k) && after == Rest(files, Queue(files, listing), stuck, k)
  {
    k :| StopsAt(files, Queue(files, listing), stuck, ceiling, k) && after == Rest(files, Queue(files, listing), stuck, k);
  }

  lemma GoesFirst(files: Files, queue: seq<Oid>, stuck: set<Oid>, k: nat, o: Oid, g: Oid)
    requires k <= |queue| && Lists(files, queue) && Ordered(queue, ByUse(files))
    requires o in Rest(files, queue, stuck, k) && o !in stuck && g in files && g !in Rest(files, queue, stuck, k)
    ensures !Before(files[o].used, files[g].used)
  {
    hide Before;
    var i := IndexOf(queue[k..], o);
    var j := IndexOf(queue, g);
    assert forall n | k <= n < |queue| :: queue[n] == queue[k..][n - k];
    assert j < k && queue[k + i] == o;
    assert !ByUse(files)(queue[k + i], queue[j]);
  }

  // Only recency decides: what is kept, unless it is stuck, was used no earlier than
  // what went, of which the use may not be known at all.
  lemma EvictionIsByRecency(files: Files, after: Files, listing: seq<Oid>, stuck: set<Oid>, ceiling: nat)
    requires Lists(files, listing) && Evicted(files, after, listing, stuck, ceiling)
    ensures after.Keys <= files.Keys && forall o | o in after :: after[o] == files[o]
    ensures forall o, g | o in after && o !in stuck && g in files && g !in after ::
      files[g].used.None? || (files[o].used.Some? && files[g].used.value <= files[o].used.value)
  {
    hide StopsAt, Before, Queue, Evicted, Lists;
    QueueLists(files, listing);
    var k := WhereItStops(files, after, listing, stuck, ceiling);
    assert after.Keys <= files.Keys;
    forall o, g | o in after && o !in stuck && g in files && g !in after
      ensures files[g].used.None? || (files[o].used.Some? && files[g].used.value <= files[o].used.value)
    {
      GoesFirst(files, Queue(files, listing), stuck, k, o, g);
      NoEarlier(files[g].used, files[o].used);
    }
  }

  lemma NoEarlier(a: Option<nat>, b: Option<nat>)
    ensures !Before(b, a) <==> a.None? || (b.Some? && a.value <= b.value)
  {
  }

  // And none goes without need: with the last that went the rest is over the ceiling.
  lemma NoneGoesWithoutNeed(files: Files, after: Files, listing: seq<Oid>, stuck: set<Oid>, ceiling: nat)
    requires Lists(files, listing) && Evicted(files, after, listing, stuck, ceiling) && after != files
    ensures exists g | g in files && g !in after :: g !in stuck && Size(after[g := files[g]]) > ceiling
  {
    hide Size, Evicted, Lists, Queue, Rest;
    QueueLists(files, listing);
    var queue := Queue(files, listing);
    var k := WhereItStops(files, after, listing, stuck, ceiling);
    AllAtFirst(files, queue, stuck);
    if Size(after) > ceiling {
      var g := OneGone(files, queue, stuck, k);
      SizeGrows(after, after[g := files[g]]);
    } else {
      PutBack(files, queue, stuck, k);
      var g := queue[k - 1];
      assert g in files && g !in after;
    }
  }

  lemma OneGone(files: Files, queue: seq<Oid>, stuck: set<Oid>, k: nat) returns (g: Oid)
    requires k <= |queue| && Rest(files, queue, stuck, k) != files
    ensures g in files && g !in Rest(files, queue, stuck, k) && g !in stuck
  {
    g :| g in files && g !in Rest(files, queue, stuck, k);
  }

  lemma PutBack(files: Files, queue: seq<Oid>, stuck: set<Oid>, k: nat)
    requires Lists(files, queue) && 0 < k <= |queue| && Rest(files, queue, stuck, k) != Rest(files, queue, stuck, k - 1)
    ensures var g, rest := queue[k - 1], Rest(files, queue, stuck, k);
      g in files && g !in rest && g !in stuck && rest[g := files[g]] == Rest(files, queue, stuck, k - 1)
  {
    hide Rest;
    OneTried(files, queue, stuck, k - 1);
  }

  // What is kept fits, or cannot be removed.
  lemma KeptFits(files: Files, after: Files, listing: seq<Oid>, stuck: set<Oid>, ceiling: nat)
    requires Lists(files, listing) && Evicted(files, after, listing, stuck, ceiling)
    ensures Size(after) <= ceiling || after.Keys <= stuck
  {
    hide Size, Evicted, Lists, Queue;
    var k := WhereItStops(files, after, listing, stuck, ceiling);
    var queue := Queue(files, listing);
    if k == |queue| { assert queue[k..] == []; }
  }

  // Used no earlier than any other, and listed after those used at the same moment.
  ghost predicate IsLatest(files: Files, listing: seq<Oid>, o: Oid) {
    o in files && forall i | 0 <= i < |listing| && listing[i] != o && listing[i] in files ::
      var was, used := files[listing[i]].used, files[o].used;
      && (was.None? || (used.Some? && was.value <= used.value))
      && (o in listing[i + 1..] || (used.Some? && (was.None? || was.value < used.value)))
  }

  lemma EarlierUseGoesFirst(files: Files, queue: seq<Oid>, g: Oid, o: Oid)
    requires Ordered(queue, ByUse(files)) && g in queue && o in queue && Before(Use(files, g), Use(files, o))
    ensures Sorting.Follows(queue, g, o)
  {
    hide Before;
    var p := IndexOf(queue, g);
    var q := IndexOf(queue, o);
    assert ByUse(files)(g, o);
    assert !ByUse(files)(o, o) by { UsesOrder(files); }
    assert p < q;
  }

  lemma LatestFollows(files: Files, listing: seq<Oid>, g: Oid, o: Oid)
    requires Lists(files, listing) && IsLatest(files, listing, o) && g in files && g != o
    ensures Sorting.Follows(Queue(files, listing), g, o)
  {
    hide Before, Orders, Ordered, Sorting.Follows, Sorted;
    QueueLists(files, listing);
    UsesOrder(files);
    var i := IndexOf(listing, g);
    NoEarlier(files[g].used, files[o].used);
    NoEarlier(files[o].used, files[g].used);
    if Before(files[g].used, files[o].used) {
      EarlierUseGoesFirst(files, Queue(files, listing), g, o);
    } else {
      var j := IndexOf(listing[i + 1..], o);
      assert listing[i + 1 + j] == o;
      SortIsStable(listing, ByUse(files), i, i + 1 + j);
    }
  }

  lemma LatestIsLast(files: Files, listing: seq<Oid>, o: Oid)
    requires Lists(files, listing) && IsLatest(files, listing, o)
    ensures var queue := Queue(files, listing); queue != [] && queue[|queue| - 1] == o
  {
    hide Before, Ordered, Sorting.Follows, Queue, IsLatest;
    QueueLists(files, listing);
    var queue := Queue(files, listing);
    assert o in files by { LatestIsThere(files, listing, o); }
    assert o in queue;
    var last := queue[|queue| - 1];
    if last != o {
      assert last in queue;
      LatestFollows(files, listing, last, o);
      NoTwoPlaces(queue, last, o);
    }
  }

  lemma LatestIsThere(files: Files, listing: seq<Oid>, o: Oid)
    requires IsLatest(files, listing, o)
    ensures o in files
  {
  }

  // What comes after the last is nowhere.
  lemma NoTwoPlaces(queue: seq<Oid>, last: Oid, o: Oid)
    requires Distinct(queue) && queue != [] && queue[|queue| - 1] == last
    ensures !Sorting.Follows(queue, last, o)
  {
  }

  // What has to stay whatever else goes.
  function WithStuck(files: Files, stuck: set<Oid>, o: Oid): Files {
    map p | p in files && (p == o || p in stuck) :: files[p]
  }

  // The latest file survives its own eviction exactly if it fits beside what cannot
  // be removed: with nothing stuck, if it is no larger than the cache.
  lemma LatestSurvivesExactlyWhen(files: Files, after: Files, listing: seq<Oid>, stuck: set<Oid>, ceiling: nat, o: Oid)
    requires Lists(files, listing) && Evicted(files, after, listing, stuck, ceiling) && IsLatest(files, listing, o)
    ensures o in after <==> o in stuck || Size(WithStuck(files, stuck, o)) <= ceiling
  {
    assert o in files;
    hide Size, Evicted, Lists, IsLatest, Queue;
    LatestIsLast(files, listing, o);
    var k := WhereItStops(files, after, listing, stuck, ceiling);
    var queue := Queue(files, listing);
    var n := |queue| - 1;
    assert queue[n..] == [o] && queue[n + 1..] == [];
    assert Rest(files, queue, stuck, n) == WithStuck(files, stuck, o);
    if k <= n {
      assert queue[k..][n - k] == o;
      SizeGrows(WithStuck(files, stuck, o), after);
    }
  }

  lemma AloneItIsItsSize(files: Files, o: Oid)
    requires o in files
    ensures Size(WithStuck(files, {}, o)) == files[o].size
  {
    SizeWithout(WithStuck(files, {}, o), o);
    assert WithStuck(files, {}, o) - {o} == map[];
  }

  // In particular where every removal works.
  lemma LatestSurvives(files: Files, after: Files, listing: seq<Oid>, ceiling: nat, o: Oid)
    requires Lists(files, listing) && Evicted(files, after, listing, {}, ceiling) && IsLatest(files, listing, o)
    ensures o in after <==> files[o].size <= ceiling
  {
    assert o in files;
    hide Size, Evicted, Lists, IsLatest, WithStuck;
    LatestSurvivesExactlyWhen(files, after, listing, {}, ceiling, o);
    AloneItIsItsSize(files, o);
  }
}
