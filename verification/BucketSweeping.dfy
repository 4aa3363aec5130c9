/**
 A sweep of a bucket that nobody else is using: with the claim index and without it,
 for real and as a rehearsal.
 */
module BucketSweeping {
  import opened Names
  import opened BucketKeys
  import opened BucketProtocol
  import opened Sorting

  datatype SweepReport = SweepReport(swept: nat, bytes: nat)

  // What the sweep is for: whose markers may go, and the sizes its listing named.
  datatype Order = Order(repo: Repo, sized: map<Oid, nat>)

  predicate HeldByAnother(b: Bucket, repo: Repo, o: Oid) {
    exists k | k in b :: k.Marker? && k.oid == o && k.repo != repo
  }

  function SizeOf(b: Bucket, o: Oid): nat {
    if Content(o) in b then b[Content(o)] else 0
  }

  // ----- What is done about one object -----

  function WithoutClaim(b: Bucket, order: Order, o: Oid): Bucket {
    b - {Marker(order.repo, o), Ref(o, order.repo)} - if o in order.sized then {Size(order.repo, o, order.sized[o])} else {}
  }

  // `listed`: what the sweep listed, if it listed the whole bucket, and asks first.
  function Frees(b: Bucket, listed: Bucket, indexed: bool, repo: Repo, o: Oid): bool {
    if indexed then !ClaimedByAnother(b, repo, o) else !HeldByAnother(listed, repo, o)
  }

  function Without(b: Bucket, listed: Bucket, indexed: bool, order: Order, o: Oid): Bucket {
    var b' := WithoutClaim(b, order, o);
    if Frees(b, listed, indexed, order.repo, o) && !ClaimedByAnother(b', order.repo, o) then b' - {Content(o)} else b'
  }

  // Bytes are counted when the delete removed something.
  function Freed(b: Bucket, listed: Bucket, indexed: bool, order: Order, o: Oid): nat {
    var b' := WithoutClaim(b, order, o);
    if Frees(b, listed, indexed, order.repo, o) && !ClaimedByAnother(b', order.repo, o) && Content(o) in b'
    then (if indexed then SizeOf(b', o) else SizeOf(listed, o)) else 0
  }

  function Promised(b: Bucket, listed: Bucket, indexed: bool, order: Order, o: Oid): nat {
    if Frees(b, listed, indexed, order.repo, o) then (if indexed then SizeOf(b, o) else SizeOf(listed, o)) else 0
  }

  // Every marker listed is given a ref, and then the mark is set.
  function Backfilled(b: Bucket): Bucket {
    var refs := set k | k in b && k.Marker? :: Ref(k.oid, k.repo);
    (map k | k in refs :: 0) + b + map[Complete := 0]
  }

  // ----- Whole sweeps -----

  function After(b: Bucket, listed: Bucket, indexed: bool, order: Order, drop: seq<Oid>): Bucket {
    if drop == [] then b
    else Without(After(b, listed, indexed, order, drop[..|drop| - 1]), listed, indexed, order, drop[|drop| - 1])
  }

  function Reported(b: Bucket, listed: Bucket, indexed: bool, order: Order, drop: seq<Oid>, dry: bool): SweepReport {
    if drop == [] then SweepReport(0, 0)
    else
      var earlier, o := drop[..|drop| - 1], drop[|drop| - 1];
      var at := if dry then b else After(b, listed, indexed, order, earlier);
      var r := Reported(b, listed, indexed, order, earlier, dry);
      var bytes := if dry then Promised(at, listed, indexed, order, o) else Freed(at, listed, indexed, order, o);
      SweepReport(r.swept + 1, r.bytes + bytes)
  }

  // What a sweep leaves and reports, by the index if it is complete.
  function Prepared(b: Bucket, dry: bool): Bucket {
    if Complete in b || dry then b else Backfilled(b)
  }

  class BucketStore {
    var bucket: Bucket

    constructor (bucket: Bucket)
      ensures this.bucket == bucket
    {
      this.bucket := bucket;
    }

    method DropMarker(order: Order, o: Oid)
      modifies this
      ensures bucket == WithoutClaim(old(bucket), order, o)
    {
      bucket := bucket - {Marker(order.repo, o)};
      bucket := bucket - {Ref(o, order.repo)};
      if o in order.sized {
        bucket := bucket - {Size(order.repo, o, order.sized[o])};
      }
    }

    // The key, and whether it was there.
    method Delete(k: Key) returns (existed: bool)
      modifies this
      ensures bucket == old(bucket) - {k} && existed == (k in old(bucket))
    {
      existed := k in bucket;
      bucket := bucket - {k};
    }

    method Sweep(order: Order, drop: seq<Oid>, dry: bool) returns (report: SweepReport)
      modifies this
      ensures var b := old(bucket);
        && bucket == (if dry then b else After(Prepared(b, dry), b, Complete in b, order, drop))
        && report == Reported(Prepared(b, dry), b, Complete in b, order, drop, dry)
    {
      if Complete in bucket {
        report := SweepIndexed(order, drop, dry);
      } else {
        report := SweepWholeBucket(order, drop, dry);
      }
    }

    method SweepIndexed(order: Order, drop: seq<Oid>, dry: bool) returns (report: SweepReport)
      modifies this
      ensures bucket == if dry then old(bucket) else After(old(bucket), old(bucket), true, order, drop)
      ensures report == Reported(old(bucket), old(bucket), true, order, drop, dry)
    {
      hide WithoutClaim, ClaimedByAnother;
      report := SweepReport(0, 0);
      for i := 0 to |drop|
        invariant bucket == if dry then old(bucket) else After(old(bucket), old(bucket), true, order, drop[..i])
        invariant report == Reported(old(bucket), old(bucket), true, order, drop[..i], dry)
      {
        assert drop[..i + 1][..i] == drop[..i];
        var o := drop[i];
        report := report.(swept := report.swept + 1);
        var frees := !ClaimedByAnother(bucket, order.repo, o);
        if dry {
          if frees {
            report := report.(bytes := report.bytes + SizeOf(bucket, o));
          }
          continue;
        }
        DropMarker(order, o);
        if frees && !ClaimedByAnother(bucket, order.repo, o) {
          var size := SizeOf(bucket, o);
          var existed := Delete(Content(o));
          if existed {
            report := report.(bytes := report.bytes + size);
          }
        }
      }
      assert drop[..|drop|] == drop;
    }

    method SweepWholeBucket(order: Order, drop: seq<Oid>, dry: bool) returns (report: SweepReport)
      modifies this
      ensures var b := old(bucket);
        && bucket == (if dry then b else After(Backfilled(b), b, false, order, drop))
        && report == Reported(if dry then b else Backfilled(b), b, false, order, drop, dry)
    {
      hide WithoutClaim, ClaimedByAnother, HeldByAnother, Backfilled;
      var listed := bucket;
      report := SweepReport(0, 0);
      if !dry {
        bucket := Backfilled(bucket);
      }
      ghost var b := bucket;
      for i := 0 to |drop|
        invariant bucket == if dry then b else After(b, listed, false, order, drop[..i])
        invariant report == Reported(b, listed, false, order, drop[..i], dry)
      {
        assert drop[..i + 1][..i] == drop[..i];
        var o := drop[i];
        report := report.(swept := report.swept + 1);
        var frees := !HeldByAnother(listed, order.repo, o);
        var size := SizeOf(listed, o);
        if dry {
          if frees {
            report := report.(bytes := report.bytes + size);
          }
          continue;
        }
        DropMarker(order, o);
        if frees && !ClaimedByAnother(bucket, order.repo, o) {
          var existed := Delete(Content(o));
          if existed {
            report := report.(bytes := report.bytes + size);
          }
        }
      }
      assert drop[..|drop|] == drop;
    }
  }

  // ----- One object at a time -----

  // Nothing about the object has changed.
  ghost predicate SameFor(b: Bucket, b': Bucket, repo: Repo, o: Oid) {
    && (forall r :: (Ref(o, r) in b <==> Ref(o, r) in b') && (Marker(r, o) in b <==> Marker(r, o) in b'))
    && (Content(o) in b <==> Content(o) in b') && SizeOf(b, o) == SizeOf(b', o)
  }

  lemma WithoutIsLocal(b: Bucket, listed: Bucket, indexed: bool, order: Order, o: Oid, o': Oid)
    requires o != o'
    ensures SameFor(b, Without(b, listed, indexed, order, o'), order.repo, o)
  {
    hide Frees, ClaimedByAnother;
  }

  lemma {:induction false} AfterIsLocal(b: Bucket, listed: Bucket, indexed: bool, order: Order, drop: seq<Oid>, o: Oid)
    requires o !in drop
    ensures SameFor(b, After(b, listed, indexed, order, drop), order.repo, o)
  {
    hide Without;
    if drop != [] {
      var earlier := drop[..|drop| - 1];
      AfterIsLocal(b, listed, indexed, order, earlier, o);
      WithoutIsLocal(After(b, listed, indexed, order, earlier), listed, indexed, order, o, drop[|drop| - 1]);
    }
  }

  lemma ClaimsByRefs(b: Bucket, repo: Repo, o: Oid)
    ensures ClaimedByAnother(b, repo, o) <==> exists r :: r != repo && Ref(o, r) in b
    ensures HeldByAnother(b, repo, o) <==> exists r :: r != repo && Marker(r, o) in b
  {
    if r :| r != repo && Ref(o, r) in b { assert Ref(o, r).oid == o; }
    if r :| r != repo && Marker(r, o) in b { assert Marker(r, o).oid == o; }
  }

  // What is done about an object is settled by the bucket the sweep started from.
  lemma SettledAtTheStart(b: Bucket, b': Bucket, listed: Bucket, indexed: bool, order: Order, o: Oid)
    requires SameFor(b, b', order.repo, o)
    ensures Freed(b', listed, indexed, order, o) == Freed(b, listed, indexed, order, o)
    ensures Promised(b', listed, indexed, order, o) == Promised(b, listed, indexed, order, o)
    ensures ClaimedByAnother(b', order.repo, o) == ClaimedByAnother(b, order.repo, o)
    ensures SameFor(WithoutClaim(b, order, o), WithoutClaim(b', order, o), order.repo, o)
    ensures ClaimedByAnother(WithoutClaim(b, order, o), order.repo, o) == ClaimedByAnother(b, order.repo, o)
  {
    hide ClaimedByAnother, HeldByAnother;
    ClaimsByRefs(b, order.repo, o);
    ClaimsByRefs(b', order.repo, o);
    ClaimsByRefs(WithoutClaim(b, order, o), order.repo, o);
    ClaimsByRefs(WithoutClaim(b', order, o), order.repo, o);
  }

  // ----- What is left -----

  // What becomes of one key when one object is dropped.
  lemma WithoutLeaves(b: Bucket, listed: Bucket, indexed: bool, order: Order, o: Oid, k: Key)
    requires k in b
    ensures k !in Without(b, listed, indexed, order, o) <==>
      || k == Marker(order.repo, o) || k == Ref(o, order.repo)
      || (o in order.sized && k == Size(order.repo, o, order.sized[o]))
      || (k == Content(o) && (forall r | r != order.repo :: Ref(o, r) !in b)
          && (indexed || forall r | r != order.repo :: Marker(r, o) !in listed))
    ensures k in Without(b, listed, indexed, order, o) ==> Without(b, listed, indexed, order, o)[k] == b[k]
  {
    hide ClaimedByAnother, HeldByAnother;
    ClaimsByRefs(b, order.repo, o);
    ClaimsByRefs(listed, order.repo, o);
    ClaimsByRefs(WithoutClaim(b, order, o), order.repo, o);
  }

  lemma {:induction false} AfterShrinks(b: Bucket, listed: Bucket, indexed: bool, order: Order, drop: seq<Oid>)
    ensures var b' := After(b, listed, indexed, order, drop); forall k | k in b' :: k in b && b'[k] == b[k]
  {
    if drop != [] {
      AfterShrinks(b, listed, indexed, order, drop[..|drop| - 1]);
    }
  }

  // Nobody else's ref is touched.
  lemma {:induction false} OthersKeepTheirRefs(b: Bucket, listed: Bucket, indexed: bool, order: Order, drop: seq<Oid>, r: Repo, o: Oid)
    requires r != order.repo && Ref(o, r) in b
    ensures Ref(o, r) in After(b, listed, indexed, order, drop)
  {
    hide Without;
    if drop != [] {
      var earlier := drop[..|drop| - 1];
      OthersKeepTheirRefs(b, listed, indexed, order, earlier, r, o);
      WithoutLeaves(After(b, listed, indexed, order, earlier), listed, indexed, order, drop[|drop| - 1], Ref(o, r));
    }
  }

  // A sweep takes its own marker, ref and listed size of every object it drops, and
  // the bytes of those that nobody else has a ref on nor, where there is no index to
  // go by, a marker; and of the rest it touches nothing.
  lemma {:induction false} SweepLeaves(b: Bucket, listed: Bucket, indexed: bool, order: Order, drop: seq<Oid>, k: Key)
    requires k in b
    ensures k !in After(b, listed, indexed, order, drop) <==>
      || (k.Marker? && k.repo == order.repo && k.oid in drop)
      || (k.Ref? && k.repo == order.repo && k.oid in drop)
      || (k.Size? && k.repo == order.repo && k.oid in drop && k.oid in order.sized && order.sized[k.oid] == k.bytes)
      || (k.Content? && k.oid in drop && (forall r | r != order.repo :: Ref(k.oid, r) !in b)
          && (indexed || forall r | r != order.repo :: Marker(r, k.oid) !in listed))
    ensures k in After(b, listed, indexed, order, drop) ==> After(b, listed, indexed, order, drop)[k] == b[k]
  {
    hide Without, After;
    AfterShrinks(b, listed, indexed, order, drop);
    if drop == [] {
      NothingDropped(b, listed, indexed, order);
    } else {
      var earlier, o := drop[..|drop| - 1], drop[|drop| - 1];
      var b' := After(b, listed, indexed, order, earlier);
      assert drop == earlier + [o];
      AfterOneMore(b, listed, indexed, order, earlier, o);
      SweepLeaves(b, listed, indexed, order, earlier, k);
      AfterShrinks(b, listed, indexed, order, earlier);
      if k in b' { WithoutLeaves(b', listed, indexed, order, o, k); }
      forall r | r != order.repo ensures Ref(o, r) in b <==> Ref(o, r) in b' {
        if Ref(o, r) in b { OthersKeepTheirRefs(b, listed, indexed, order, earlier, r, o); }
      }
    }
  }

  lemma NothingDropped(b: Bucket, listed: Bucket, indexed: bool, order: Order)
    ensures After(b, listed, indexed, order, []) == b
  {
  }

  lemma AfterOneMore(b: Bucket, listed: Bucket, indexed: bool, order: Order, earlier: seq<Oid>, o: Oid)
    ensures var b' := After(b, listed, indexed, order, earlier);
      After(b, listed, indexed, order, earlier + [o]) == Without(b', listed, indexed, order, o)
    ensures var b' := After(b, listed, indexed, order, earlier);
      && (forall k | k in After(b, listed, indexed, order, earlier + [o]) :: k in b')
  {
    hide ClaimedByAnother, HeldByAnother;
    assert (earlier + [o])[..|earlier|] == earlier;
  }

  // Which key of a bucket a whole sweep of it takes, and which it adds: by the index
  // if that is complete, and otherwise by the bucket itself, building the index first.
  lemma EveryKeyIsSettled(b: Bucket, order: Order, drop: seq<Oid>, k: Key)
    ensures var b' := After(Prepared(b, false), b, Complete in b, order, drop);
      && (k in b ==>
           (k !in b' <==>
              || (k.Marker? && k.repo == order.repo && k.oid in drop)
              || (k.Ref? && k.repo == order.repo && k.oid in drop)
              || (k.Size? && k.repo == order.repo && k.oid in drop && k.oid in order.sized && order.sized[k.oid] == k.bytes)
              || (k.Content? && k.oid in drop && forall r | r != order.repo ::
                    Ref(k.oid, r) !in b && (Complete !in b ==> Marker(r, k.oid) !in b))))
      && (k in b && k in b' ==> b'[k] == b[k])
      && (k !in b ==>
           (k in b' <==>
              && Complete !in b
              && (k == Complete || (k.Ref? && Marker(k.repo, k.oid) in b && !(k.repo == order.repo && k.oid in drop)))))
  {
    hide After;
    var full := Prepared(b, false);
    assert k in b ==> k in full && full[k] == b[k];
    if k in full {
      SweepLeaves(full, b, Complete in b, order, drop, k);
      if k.Content? { RefsPrepared(b, k.oid); }
    } else {
      AfterShrinks(full, b, Complete in b, order, drop);
    }
  }

  lemma RefsPrepared(b: Bucket, o: Oid)
    ensures forall r :: Ref(o, r) in Prepared(b, false) <==> Ref(o, r) in b || (Complete !in b && Marker(r, o) in b)
  {
    forall r | Marker(r, o) in b ensures Ref(o, r) in Backfilled(b) {
      assert Marker(r, o).oid == o;
    }
  }

  // ----- What is reported -----

  // What the objects in a bucket take up.
  ghost function ContentBytes(b: Bucket): nat {
    if b == map[] then 0
    else
      var k :| k in b;
      (if k.Content? then b[k] else 0) + ContentBytes(b - {k})
  }

  lemma {:induction false} ContentWithout(b: Bucket, k: Key)
    requires k in b
    ensures ContentBytes(b) == (if k.Content? then b[k] else 0) + ContentBytes(b - {k})
  {
    var l :| l in b && ContentBytes(b) == (if l.Content? then b[l] else 0) + ContentBytes(b - {l});
    if l != k {
      ContentWithout(b - {l}, k);
      ContentWithout(b - {k}, l);
      assert b - {l} - {k} == b - {k} - {l};
    }
  }

  lemma {:induction false} OthersWeighNothing(b: Bucket, ks: set<Key>)
    requires forall k | k in ks :: !k.Content?
    ensures ContentBytes(b - ks) == ContentBytes(b)
  {
    if k :| k in ks {
      OthersWeighNothing(b, ks - {k});
      assert b - ks == b - (ks - {k}) - {k};
      if k in b {
        ContentWithout(b - (ks - {k}), k);
      } else {
        assert b - (ks - {k}) - {k} == b - (ks - {k});
      }
    } else {
      assert b - ks == b;
    }
  }

  lemma FreedIsWhatGoes(b: Bucket, listed: Bucket, indexed: bool, order: Order, o: Oid)
    requires Content(o) in b ==> SizeOf(listed, o) == b[Content(o)]
    ensures Freed(b, listed, indexed, order, o) + ContentBytes(Without(b, listed, indexed, order, o)) == ContentBytes(b)
  {
    hide ContentBytes, ClaimedByAnother, HeldByAnother, Frees;
    var own := {Marker(order.repo, o), Ref(o, order.repo)};
    var size := if o in order.sized then {Size(order.repo, o, order.sized[o])} else {};
    var b' := WithoutClaim(b, order, o);
    OthersWeighNothing(b, own);
    OthersWeighNothing(b - own, size);
    assert ContentBytes(b') == ContentBytes(b);
    if Content(o) in b' {
      ContentWithout(b', Content(o));
    } else {
      assert b' - {Content(o)} == b';
    }
  }

  // A sweep reports the bytes that went, no more and no less.
  lemma {:induction false} ReportIsWhatGoes(b: Bucket, listed: Bucket, indexed: bool, order: Order, drop: seq<Oid>)
    requires forall o | o in drop && Content(o) in b :: SizeOf(listed, o) == b[Content(o)]
    ensures var report := Reported(b, listed, indexed, order, drop, false);
      && report.swept == |drop|
      && report.bytes + ContentBytes(After(b, listed, indexed, order, drop)) == ContentBytes(b)
  {
    hide Without, Freed, Promised, ContentBytes, SizeOf;
    if drop != [] {
      var earlier, o := drop[..|drop| - 1], drop[|drop| - 1];
      assert drop == earlier + [o];
      ReportIsWhatGoes(b, listed, indexed, order, earlier);
      AfterShrinks(b, listed, indexed, order, earlier);
      FreedIsWhatGoes(After(b, listed, indexed, order, earlier), listed, indexed, order, o);
    }
  }

  lemma WholeReportIsWhatGoes(b: Bucket, order: Order, drop: seq<Oid>)
    ensures var report := Reported(Prepared(b, false), b, Complete in b, order, drop, false);
      && report.swept == |drop|
      && report.bytes + ContentBytes(After(Prepared(b, false), b, Complete in b, order, drop)) == ContentBytes(b)
  {
    hide Reported, After, ContentBytes;
    var full := Prepared(b, false);
    var added := full.Keys - b.Keys;
    assert full - added == b;
    OthersWeighNothing(full, added);
    ReportIsWhatGoes(full, b, Complete in b, order, drop);
  }

  // The bytes that dropping these objects would set free, as things stand.
  ghost function Unheld(b: Bucket, listed: Bucket, indexed: bool, repo: Repo, drop: seq<Oid>): set<Key> {
    set o | o in drop && (forall r | r != repo :: if indexed then Ref(o, r) !in b else Marker(r, o) !in listed) :: Content(o)
  }

  // A rehearsal promises the bytes of the objects that nobody else has a ref on, or
  // without the index a marker.
  lemma {:induction false} PromiseIsWhatIsUnheld(b: Bucket, listed: Bucket, indexed: bool, order: Order, drop: seq<Oid>)
    requires Distinct(drop) && forall o | o in drop :: SizeOf(listed, o) == SizeOf(b, o)
    ensures var report := Reported(b, listed, indexed, order, drop, true);
      && report.swept == |drop|
      && report.bytes + ContentBytes(b - Unheld(b, listed, indexed, order.repo, drop)) == ContentBytes(b)
  {
    hide ContentBytes, Promised;
    if drop == [] {
      assert b - Unheld(b, listed, indexed, order.repo, drop) == b;
    } else {
      var earlier, o := drop[..|drop| - 1], drop[|drop| - 1];
      assert drop == earlier + [o];
      PromiseIsWhatIsUnheld(b, listed, indexed, order, earlier);
      PromiseOfOne(b, listed, indexed, order, earlier, o);
    }
  }

  lemma PromiseOfOne(b: Bucket, listed: Bucket, indexed: bool, order: Order, earlier: seq<Oid>, o: Oid)
    requires o !in earlier && SizeOf(listed, o) == SizeOf(b, o)
    ensures var kept := b - Unheld(b, listed, indexed, order.repo, earlier);
      Promised(b, listed, indexed, order, o) + ContentBytes(b - Unheld(b, listed, indexed, order.repo, earlier + [o])) == ContentBytes(kept)
  {
    hide ContentBytes, ClaimedByAnother, HeldByAnother;
    ClaimsByRefs(b, order.repo, o);
    ClaimsByRefs(listed, order.repo, o);
    var before, after := Unheld(b, listed, indexed, order.repo, earlier), Unheld(b, listed, indexed, order.repo, earlier + [o]);
    assert Content(o) !in before;
    if Frees(b, listed, indexed, order.repo, o) {
      assert after == before + {Content(o)};
      assert b - after == b - before - {Content(o)};
      if Content(o) in b { ContentWithout(b - before, Content(o)); } else { assert b - after == b - before; }
    } else {
      assert after == before;
    }
  }

  // ----- What a rehearsal is worth -----

  // With the index a rehearsal reports what the sweep reports; without it, it may
  // promise more, and does not exactly if whatever it promises bytes of is claimed by
  // nobody else's ref either.
  lemma {:induction false} RehearsalForetells(b: Bucket, listed: Bucket, indexed: bool, order: Order, drop: seq<Oid>)
    requires Distinct(drop)
    requires forall o | o in drop :: SizeOf(listed, o) == SizeOf(b, o) && (Content(o) in listed <==> Content(o) in b)
    ensures var wet, dry := Reported(b, listed, indexed, order, drop, false), Reported(b, listed, indexed, order, drop, true);
      && wet.swept == dry.swept == |drop| && wet.bytes <= dry.bytes
      && (wet.bytes == dry.bytes <==> forall o | o in drop && ClaimedByAnother(b, order.repo, o) ::
            Promised(b, listed, indexed, order, o) == 0)
  {
    hide Freed, Promised, After, ClaimedByAnother, WithoutClaim;
    if drop != [] {
      var earlier, o := drop[..|drop| - 1], drop[|drop| - 1];
      RehearsalForetells(b, listed, indexed, order, earlier);
      AfterIsLocal(b, listed, indexed, order, earlier, o);
      SettledAtTheStart(b, After(b, listed, indexed, order, earlier), listed, indexed, order, o);
      PromiseIsKeptWhen(b, listed, indexed, order, o);
      assert drop == earlier + [o];
    }
  }

  lemma PromiseIsKeptWhen(b: Bucket, listed: Bucket, indexed: bool, order: Order, o: Oid)
    requires SizeOf(listed, o) == SizeOf(b, o) && (Content(o) in listed <==> Content(o) in b)
    ensures Freed(b, listed, indexed, order, o)
      == if ClaimedByAnother(b, order.repo, o) then 0 else Promised(b, listed, indexed, order, o)
    ensures indexed && ClaimedByAnother(b, order.repo, o) ==> Promised(b, listed, indexed, order, o) == 0
  {
    hide ClaimedByAnother, HeldByAnother;
    SettledAtTheStart(b, b, listed, indexed, order, o);
  }

  lemma IndexedRehearsalIsExact(b: Bucket, order: Order, drop: seq<Oid>)
    requires Distinct(drop)
    ensures Reported(b, b, true, order, drop, true) == Reported(b, b, true, order, drop, false)
  {
    hide Reported, Promised, ClaimedByAnother;
    RehearsalForetells(b, b, true, order, drop);
    forall o | o in drop && ClaimedByAnother(b, order.repo, o) ensures Promised(b, b, true, order, o) == 0 {
      PromiseIsKeptWhen(b, b, true, order, o);
    }
  }

  // Without the index a rehearsal is exact unless a ref is left, with no marker behind
  // it, on bytes it promises.
  lemma WholeRehearsalIsExactWhen(b: Bucket, order: Order, drop: seq<Oid>)
    requires Distinct(drop)
    ensures var wet, dry := Reported(Backfilled(b), b, false, order, drop, false), Reported(b, b, false, order, drop, true);
      && wet.swept == dry.swept && wet.bytes <= dry.bytes
      && (wet.bytes == dry.bytes <==> forall o | o in drop ::
            ClaimedByAnother(b, order.repo, o) && !HeldByAnother(b, order.repo, o) ==> SizeOf(b, o) == 0)
  {
    hide Reported, ClaimedByAnother, HeldByAnother, Backfilled;
    forall o ensures SizeOf(b, o) == SizeOf(Backfilled(b), o) && (Content(o) in b <==> Content(o) in Backfilled(b)) {
      BackfillKeeps(b, order.repo, o);
    }
    RehearsalForetells(Backfilled(b), b, false, order, drop);
    PromisesByListing(b, Backfilled(b), b, order, drop);
    forall o | o in drop
      ensures (ClaimedByAnother(Backfilled(b), order.repo, o) ==> Promised(Backfilled(b), b, false, order, o) == 0)
        <==> (ClaimedByAnother(b, order.repo, o) && !HeldByAnother(b, order.repo, o) ==> SizeOf(b, o) == 0)
    {
      BackfillKeeps(b, order.repo, o);
    }
  }

  lemma BackfillKeeps(b: Bucket, repo: Repo, o: Oid)
    ensures SizeOf(b, o) == SizeOf(Backfilled(b), o) && (Content(o) in b <==> Content(o) in Backfilled(b))
    ensures forall r :: Marker(r, o) in b <==> Marker(r, o) in Backfilled(b)
    ensures forall r :: Ref(o, r) in Backfilled(b) <==> Ref(o, r) in b || Marker(r, o) in b
    ensures ClaimedByAnother(Backfilled(b), repo, o) <==> ClaimedByAnother(b, repo, o) || HeldByAnother(b, repo, o)
  {
    hide ClaimedByAnother, HeldByAnother;
    ClaimsByRefs(b, repo, o);
    ClaimsByRefs(Backfilled(b), repo, o);
    forall r | Marker(r, o) in b ensures Ref(o, r) in Backfilled(b) {
      assert Marker(r, o).oid == o;
    }
  }

  lemma {:induction false} PromisesByListing(b: Bucket, b': Bucket, listed: Bucket, order: Order, drop: seq<Oid>)
    ensures Reported(b, listed, false, order, drop, true) == Reported(b', listed, false, order, drop, true)
  {
    hide HeldByAnother;
    if drop != [] {
      PromisesByListing(b, b', listed, order, drop[..|drop| - 1]);
    }
  }

  // ----- The index stands in for the bucket -----

  // Markers and contents are as listed.
  ghost predicate AsListed(b: Bucket, listed: Bucket) {
    && (forall r: Repo, o: Oid :: Marker(r, o) in b <==> Marker(r, o) in listed)
    && (forall o :: (Content(o) in b <==> Content(o) in listed) && SizeOf(b, o) == SizeOf(listed, o))
  }

  // Over an index that misses no holder the sweep that asks it about each object
  // leaves and reports what the sweep that reads the whole bucket does.
  lemma {:induction false} IndexedSweepRefinesWhole(b: Bucket, listed: Bucket, order: Order, drop: seq<Oid>)
    requires Distinct(drop) && AsListed(b, listed) && forall r: Repo, o: Oid :: !RefLess(b, r, o)
    ensures After(b, b, true, order, drop) == After(b, listed, false, order, drop)
    ensures Reported(b, b, true, order, drop, false) == Reported(b, listed, false, order, drop, false)
  {
    hide Without, Freed, RefLess, AsListed;
    if drop != [] {
      var earlier, o := drop[..|drop| - 1], drop[|drop| - 1];
      IndexedSweepRefinesWhole(b, listed, order, earlier);
      AfterIsLocal(b, b, true, order, earlier, o);
      SameEitherWay(b, After(b, b, true, order, earlier), listed, order, o);
    }
  }

  lemma SameEitherWay(b: Bucket, b': Bucket, listed: Bucket, order: Order, o: Oid)
    requires SameFor(b, b', order.repo, o) && AsListed(b, listed) && forall r: Repo, o: Oid :: !RefLess(b, r, o)
    ensures Without(b', b, true, order, o) == Without(b', listed, false, order, o)
    ensures Freed(b', b, true, order, o) == Freed(b', listed, false, order, o)
  {
    hide ClaimedByAnother, HeldByAnother;
    ClaimsByRefs(b, order.repo, o);
    ClaimsByRefs(listed, order.repo, o);
    SettledAtTheStart(b, b', b, true, order, o);
    SettledAtTheStart(b', b', b, true, order, o);
    assert HeldByAnother(listed, order.repo, o) ==> ClaimedByAnother(b, order.repo, o) by {
      if r :| r != order.repo && Marker(r, o) in listed { assert !RefLess(b, r, o); }
    }
    assert SizeOf(WithoutClaim(b', order, o), o) == SizeOf(b, o) == SizeOf(listed, o);
  }

  // In particular the index a sweep has just built would have served it as well.
  lemma BackfillServesAtOnce(b: Bucket, order: Order, drop: seq<Oid>)
    requires Distinct(drop)
    ensures var b' := Backfilled(b);
      && After(b', b', true, order, drop) == After(b', b, false, order, drop)
      && Reported(b', b', true, order, drop, false) == Reported(b', b, false, order, drop, false)
  {
    hide Backfilled, After, Reported, ClaimedByAnother, HeldByAnother;
    var b' := Backfilled(b);
    forall r: Repo, o: Oid ensures !RefLess(b', r, o) && (Marker(r, o) in b' <==> Marker(r, o) in b)
      && (Content(o) in b' <==> Content(o) in b) && SizeOf(b', o) == SizeOf(b, o)
    {
      BackfillKeeps(b, r, o);
    }
    forall o ensures (Content(o) in b' <==> Content(o) in b) && SizeOf(b', o) == SizeOf(b, o) {
      BackfillKeeps(b, order.repo, o);
    }
    IndexedSweepRefinesWhole(b', b, order, drop);
  }
}
