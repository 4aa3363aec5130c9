/**
 What a sweep of the local store leaves, what it gives back to the disk, and what
 a dry run of it is worth.
 */
module CollectingTheorems {
  import opened Names
  import opened Files
  import opened Accounting
  import opened Collecting
  import opened Sorting

  predicate IsFor(p: Path, o: Oid) {
    (p.Object? || p.Shared?) && p.oid == o
  }

  // Names of different objects never lead to one file.
  ghost predicate Ordinary(fs: Fs) {
    fs.Valid() && forall p, q, o, o' | p in fs.names && q in fs.names && IsFor(p, o) && IsFor(q, o') && o != o' ::
      fs.names[p] != fs.names[q]
  }

  // Collecting one object changes nothing about another.
  ghost predicate SameFor(fs: Fs, fs': Fs, o: Oid) {
    && (forall p | IsFor(p, o) :: fs'.Has(p) == fs.Has(p))
    && (forall p | p in fs.names && IsFor(p, o) :: fs'.Has(p) && fs'.names[p] == fs.names[p])
    && (forall p | p in fs.names && IsFor(p, o) :: fs'.Links(fs.names[p]) == fs.Links(fs.names[p]))
  }

  lemma UnlinkLeavesOthers(fs: Fs, p: Path, o: Oid, o': Oid)
    requires Ordinary(fs) && IsFor(p, o') && o != o'
    ensures SameFor(fs, Unlink(fs, p), o) && Ordinary(Unlink(fs, p))
  {
    hide Fs.Links;
    var fs' := Unlink(fs, p);
    if fs.Has(p) {
      forall q | q in fs.names && IsFor(q, o) ensures fs'.Links(fs.names[q]) == fs.Links(fs.names[q]) {
        UnlinkCounts(fs, p, fs.names[q]);
      }
    } else {
      assert fs'.names == fs.names;
    }
  }

  lemma WithoutLeavesOthers(fs: Fs, repo: Repo, others: seq<Repo>, o: Oid, o': Oid)
    requires Ordinary(fs) && o != o'
    ensures SameFor(fs, Without(fs, repo, others, o'), o) && Ordinary(Without(fs, repo, others, o'))
  {
    hide Fs.Links, Unlink;
    UnlinkLeavesOthers(fs, Object(repo, o'), o, o');
    UnlinkLeavesOthers(Unlink(fs, Object(repo, o')), Shared(o'), o, o');
  }

  lemma {:induction false} AfterLeavesOthers(fs: Fs, order: Order, others: seq<Repo>, found: seq<Oid>, o: Oid)
    requires Ordinary(fs) && o !in found
    ensures SameFor(fs, After(fs, order, others, found), o) && Ordinary(After(fs, order, others, found))
  {
    hide Fs.Links, Without;
    if found != [] {
      var earlier := found[..|found| - 1];
      AfterLeavesOthers(fs, order, others, earlier, o);
      WithoutLeavesOthers(After(fs, order, others, earlier), order.repo, others, o, found[|found| - 1]);
    }
  }

  // So what happens to an object is settled by the store the sweep started from.
  lemma SettledAtTheStart(fs: Fs, fs': Fs, order: Order, others: seq<Repo>, o: Oid)
    requires fs.Valid() && fs'.Valid() && fs'.data == fs.data && SameFor(fs, fs', o)
    ensures order.Drops(fs', o) == order.Drops(fs, o) && order.Spares(fs', o) == order.Spares(fs, o)
    ensures order.Drops(fs, o) ==>
      Freed(fs', order.repo, others, o) == Freed(fs, order.repo, others, o)
    ensures order.Drops(fs, o) ==>
      Referenced(Unlink(fs', Object(order.repo, o)), others, o, 0) == Referenced(Unlink(fs, Object(order.repo, o)), others, o, 0)
  {
    hide Fs.Links;
    var p := Object(order.repo, o);
    assert IsFor(p, o) && IsFor(Shared(o), o);
    forall r ensures fs'.Has(Object(r, o)) == fs.Has(Object(r, o)) {
      assert IsFor(Object(r, o), o);
    }
    if fs.Has(p) && fs.Has(Shared(o)) {
      UnlinkCounts(fs, p, fs.names[Shared(o)]);
      UnlinkCounts(fs', p, fs.names[Shared(o)]);
    }
  }

  // ----- What is left -----

  // No name but these two leads to the shared bytes.
  predicate Orphaned(fs: Fs, repo: Repo, o: Oid) {
    fs.Has(Shared(o)) && forall q | q in fs.names && q != Object(repo, o) && q != Shared(o) ::
      fs.names[q] != fs.names[Shared(o)]
  }

  predicate Goes(fs: Fs, order: Order, found: seq<Oid>, p: Path) {
    (p.Object? || p.Shared?) && p.oid in found && p.oid !in order.retained
    && fs.Has(Object(order.repo, p.oid)) && order.age(fs.names[Object(order.repo, p.oid)]) >= order.grace
    && (p.Object? ==> p.repo == order.repo)
    && (p.Shared? ==> Orphaned(fs, order.repo, p.oid))
  }

  lemma ReferencedMeansNamed(fs: Fs, repo: Repo, others: seq<Repo>, o: Oid)
    requires fs.Has(Object(repo, o)) && fs.Has(Shared(o))
    ensures Referenced(Unlink(fs, Object(repo, o)), others, o, 0) <==> !Orphaned(fs, repo, o)
  {
    hide Fs.Links;
    var fs' := Unlink(fs, Object(repo, o));
    assert fs'.Has(Shared(o)) && fs'.names[Shared(o)] == fs.names[Shared(o)];
    OnlyName(fs', Shared(o));
    if !Orphaned(fs, repo, o) {
      var q :| q in fs.names && q != Object(repo, o) && q != Shared(o) && fs.names[q] == fs.names[Shared(o)];
      assert q in fs'.names;
    }
  }

  // What goes with one object.
  predicate GoesWith(fs: Fs, order: Order, o: Oid, p: Path) {
    order.Drops(fs, o) && (p == Object(order.repo, o) || (p == Shared(o) && Orphaned(fs, order.repo, o)))
  }

  lemma GoesOneByOne(fs: Fs, order: Order, earlier: seq<Oid>, o: Oid, p: Path)
    ensures Goes(fs, order, earlier + [o], p) <==> Goes(fs, order, earlier, p) || GoesWith(fs, order, o, p)
  {
    hide Orphaned;
  }

  // Collecting an object takes what goes with it, and was there still.
  lemma WithoutLeaves(fs: Fs, so: Fs, order: Order, others: seq<Repo>, o: Oid, p: Path)
    requires fs.Valid() && so.Valid() && so.data == fs.data && SameFor(fs, so, o) && p in fs.names
    ensures var next := if order.Drops(so, o) then Without(so, order.repo, others, o) else so;
      p in next.names <==> p in so.names && !GoesWith(fs, order, o, p)
  {
    hide Fs.Links, Referenced, Orphaned, Order.Drops;
    SettledAtTheStart(fs, so, order, others, o);
    if order.Drops(fs, o) {
      DropsConsiders(fs, order, o);
      if fs.Has(Shared(o)) { ReferencedMeansNamed(fs, order.repo, others, o); }
    }
  }

  // Exactly the dropped names go, and the shared bytes only when nobody else's name
  // leads to them.
  lemma {:induction false} SweepLeaves(fs: Fs, order: Order, others: seq<Repo>, found: seq<Oid>)
    requires Ordinary(fs) && Distinct(found)
    ensures forall p | p in fs.names :: p !in After(fs, order, others, found).names <==> Goes(fs, order, found, p)
  {
    hide Without, Goes, GoesWith, SameFor, Ordinary, Order.Drops;
    if found == [] {
      forall p ensures !Goes(fs, order, found, p) { NothingGoes(fs, order, p); }
    } else {
      var earlier, o := found[..|found| - 1], found[|found| - 1];
      SweepLeaves(fs, order, others, earlier);
      AfterLeavesOthers(fs, order, others, earlier, o);
      OrdinaryIsValid(fs);
      assert found == earlier + [o];
      forall p | p in fs.names ensures p !in After(fs, order, others, found).names <==> Goes(fs, order, found, p) {
        WithoutLeaves(fs, After(fs, order, others, earlier), order, others, o, p);
        GoesOneByOne(fs, order, earlier, o, p);
      }
    }
  }

  lemma NothingGoes(fs: Fs, order: Order, p: Path)
    ensures !Goes(fs, order, [], p)
  {
  }

  lemma OrdinaryIsValid(fs: Fs)
    requires Ordinary(fs)
    ensures fs.Valid()
  {
  }

  lemma DropsConsiders(fs: Fs, order: Order, o: Oid)
    requires order.Drops(fs, o)
    ensures order.Considers(fs, o)
  {
  }

  // Retained objects, young ones and everybody else's are where they were, in the
  // same bytes.
  lemma SweepSpares(fs: Fs, order: Order, others: seq<Repo>, found: seq<Oid>, r: Repo, o: Oid)
    requires Ordinary(fs) && Distinct(found) && fs.Has(Object(r, o))
    requires r != order.repo || o in order.retained || order.age(fs.names[Object(r, o)]) < order.grace || o !in found
    ensures var fs' := After(fs, order, others, found); fs'.Has(Object(r, o)) && fs'.Read(Object(r, o)) == fs.Read(Object(r, o))
    ensures fs.Has(Shared(o)) && fs.names[Shared(o)] == fs.names[Object(r, o)] ==>
      After(fs, order, others, found).Has(Shared(o))
  {
    SweepLeaves(fs, order, others, found);
    assert !Goes(fs, order, found, Object(r, o));
    if fs.Has(Shared(o)) && fs.names[Shared(o)] == fs.names[Object(r, o)] {
      assert Goes(fs, order, found, Shared(o)) ==> r == order.repo && order.Drops(fs, o);
    }
  }

  // What was found and is not retained, of an age or too young.
  function Due(fs: Fs, order: Order, found: seq<Oid>, young: bool): set<Oid> {
    set o | o in found && o !in order.retained && fs.Has(Object(order.repo, o))
      && (order.age(fs.names[Object(order.repo, o)]) < order.grace <==> young)
  }

  // Every object found is dropped, or spared for its age, or passed over, and the first
  // two are counted, run or rehearsed.
  lemma {:induction false} SweepCounts(fs: Fs, order: Order, others: seq<Repo>, found: seq<Oid>, dry: bool)
    requires Ordinary(fs) && Distinct(found)
    ensures var report := Reported(fs, order, others, found, dry);
      report.swept == |Due(fs, order, found, false)| && report.withinGrace == |Due(fs, order, found, true)|
  {
    hide Fs.Links, Freed, Promised, After;
    if found != [] {
      var earlier, o := found[..|found| - 1], found[|found| - 1];
      SweepCounts(fs, order, others, earlier, dry);
      AfterLeavesOthers(fs, order, others, earlier, o);
      SettledAtTheStart(fs, After(fs, order, others, earlier), order, others, o);
      SettledAtTheStart(fs, fs, order, others, o);
      assert found == earlier + [o];
      CountsOneMore(fs, order, earlier, o, false);
      CountsOneMore(fs, order, earlier, o, true);
    }
  }

  lemma CountsOneMore(fs: Fs, order: Order, earlier: seq<Oid>, o: Oid, young: bool)
    requires o !in earlier
    ensures |Due(fs, order, earlier + [o], young)|
      == |Due(fs, order, earlier, young)| + if (if young then order.Spares(fs, o) else order.Drops(fs, o)) then 1 else 0
  {
    hide Fs.Has;
    var before, after := Due(fs, order, earlier, young), Due(fs, order, earlier + [o], young);
    assert forall x :: x in earlier + [o] <==> x in earlier || x == o;
    if (if young then order.Spares(fs, o) else order.Drops(fs, o)) {
      assert after == before + {o} && o !in before;
    } else {
      assert after == before;
    }
  }

  // ----- What the disk gets back -----

  // A file under no other name, left over from before objects were shared.
  predicate Loose(fs: Fs, repo: Repo, o: Oid) {
    fs.Has(Object(repo, o)) && fs.Links(fs.names[Object(repo, o)]) == 1
  }

  function Uncounted(fs: Fs, order: Order, found: seq<Oid>): nat
    requires fs.Valid()
  {
    if found == [] then 0
    else
      var o := found[|found| - 1];
      Uncounted(fs, order, found[..|found| - 1])
      + if order.Drops(fs, o) && Loose(fs, order.repo, o) then |fs.Read(Object(order.repo, o))| else 0
  }

  lemma WithoutFrees(fs: Fs, repo: Repo, others: seq<Repo>, o: Oid)
    requires fs.Valid() && fs.Has(Object(repo, o))
    ensures Without(fs, repo, others, o).Valid()
    ensures Occupied(fs) == Occupied(Without(fs, repo, others, o)) + Freed(fs, repo, others, o)
      + if Loose(fs, repo, o) then |fs.Read(Object(repo, o))| else 0
  {
    hide Fs.Links;
    var fs' := Unlink(fs, Object(repo, o));
    UnlinkFrees(fs, Object(repo, o));
    if !Referenced(fs', others, o, 0) {
      if fs'.Has(Shared(o)) {
        UnlinkFrees(fs', Shared(o));
        OnlyName(fs', Shared(o));
      } else {
        assert Unlink(fs', Shared(o)).names == fs'.names;
      }
    }
  }

  // The disk gives up what the sweep reports, and besides that only the files that
  // had one name.
  lemma {:induction false} SweepAccounts(fs: Fs, order: Order, others: seq<Repo>, found: seq<Oid>)
    requires Ordinary(fs) && Distinct(found)
    ensures Occupied(fs) == Occupied(After(fs, order, others, found)) + Reported(fs, order, others, found, false).bytes
      + Uncounted(fs, order, found)
  {
    hide Fs.Links, Occupied, Freed, Without, Promised;
    if found != [] {
      var earlier, o := found[..|found| - 1], found[|found| - 1];
      SweepAccounts(fs, order, others, earlier);
      AfterLeavesOthers(fs, order, others, earlier, o);
      var so := After(fs, order, others, earlier);
      SettledAtTheStart(fs, so, order, others, o);
      if order.Drops(fs, o) {
        assert IsFor(Object(order.repo, o), o);
        WithoutFrees(so, order.repo, others, o);
      }
    }
  }

  // A report never promises more than the disk gave back, and it is exact if and
  // only if nothing dropped was a non-empty file under one name.
  lemma ReportIsExactWhen(fs: Fs, order: Order, others: seq<Repo>, found: seq<Oid>)
    requires Ordinary(fs) && Distinct(found)
    ensures var bytes := Reported(fs, order, others, found, false).bytes;
      var drop := Occupied(fs) - Occupied(After(fs, order, others, found));
      && bytes <= drop
      && (bytes == drop <==>
           forall o | o in found && order.Drops(fs, o) && Loose(fs, order.repo, o) :: fs.Read(Object(order.repo, o)) == [])
  {
    hide Occupied, After, Reported;
    SweepAccounts(fs, order, others, found);
    NothingUncountedWhen(fs, order, found);
  }

  lemma {:induction false} NothingUncountedWhen(fs: Fs, order: Order, found: seq<Oid>)
    requires fs.Valid()
    ensures Uncounted(fs, order, found) == 0 <==>
      forall o | o in found && order.Drops(fs, o) && Loose(fs, order.repo, o) :: fs.Read(Object(order.repo, o)) == []
  {
    hide Fs.Links;
    if found != [] {
      NothingUncountedWhen(fs, order, found[..|found| - 1]);
      assert found == found[..|found| - 1] + [found[|found| - 1]];
    }
  }

  // ----- What a dry run is worth -----

  // The repository's name and the shared entry lead to one file.
  predicate Folded(fs: Fs, repo: Repo, o: Oid) {
    fs.Has(Object(repo, o)) && fs.Has(Shared(o)) && fs.names[Object(repo, o)] == fs.names[Shared(o)]
  }

  // When a dry run says of one object what collecting it would report: always if the
  // object is folded in, and otherwise only by luck of who else links what.
  predicate Foretold(fs: Fs, repo: Repo, others: seq<Repo>, o: Oid)
    requires fs.Valid() && fs.Has(Object(repo, o))
  {
    var own := fs.Read(Object(repo, o));
    if Folded(fs, repo, o) then true
    else if !fs.Has(Shared(o)) then HeldBy(fs, others, o) || own == []
    else
      var links := fs.Links(fs.names[Shared(o)]);
      links > 2 || (links == 2 && own == []) || (links == 1 && |own| == |fs.Read(Shared(o))|)
  }

  lemma DryPromisesExactlyWhen(fs: Fs, repo: Repo, others: seq<Repo>, o: Oid)
    requires fs.Valid() && fs.Has(Object(repo, o)) && repo !in others
    ensures Promised(fs, repo, others, o) == Freed(fs, repo, others, o) <==> Foretold(fs, repo, others, o)
  {
    hide Fs.Links;
    var p := Object(repo, o);
    var fs' := Unlink(fs, p);
    forall r | r in others ensures fs'.Has(Object(r, o)) == fs.Has(Object(r, o)) {
      assert Object(r, o) != p;
    }
    if fs.Has(Shared(o)) {
      UnlinkCounts(fs, p, fs.names[Shared(o)]);
      OnlyName(fs, Shared(o));
    }
  }

  // Run or rehearsed, a sweep is about the same objects; and it reports the same
  // bytes if each of them is foretold, as every folded one is.
  lemma {:induction false} DryRunForetells(fs: Fs, order: Order, others: seq<Repo>, found: seq<Oid>)
    requires Ordinary(fs) && Distinct(found) && order.repo !in others
    ensures var wet, dry := Reported(fs, order, others, found, false), Reported(fs, order, others, found, true);
      && wet.swept == dry.swept && wet.withinGrace == dry.withinGrace
      && ((forall o | o in found && order.Drops(fs, o) :: Foretold(fs, order.repo, others, o)) ==> wet == dry)
  {
    hide Fs.Links, Freed, Promised, After, Foretold;
    if found != [] {
      var earlier, o := found[..|found| - 1], found[|found| - 1];
      DryRunForetells(fs, order, others, earlier);
      AfterLeavesOthers(fs, order, others, earlier, o);
      SettledAtTheStart(fs, After(fs, order, others, earlier), order, others, o);
      if order.Drops(fs, o) {
        DryPromisesExactlyWhen(fs, order.repo, others, o);
      }
      assert found == earlier + [o];
    }
  }

  // Every object the sweep drops is folded in, and no name but the repositories' own
  // and the shared entry leads to it.
  ghost predicate Healthy(fs: Fs, order: Order, found: seq<Oid>) {
    forall o | o in found && order.Drops(fs, o) ::
      Folded(fs, order.repo, o) && forall p | p in fs.names && fs.names[p] == fs.names[Shared(o)] :: p.Object? || p == Shared(o)
  }

  lemma WithoutShows(fs: Fs, repo: Repo, others: seq<Repo>, o: Oid)
    requires fs.Valid() && Folded(fs, repo, o)
    requires forall p | p in fs.names && fs.names[p] == fs.names[Shared(o)] :: p.Object? || p == Shared(o)
    ensures Without(fs, repo, others, o).Valid()
    ensures Measured(fs) == Measured(Without(fs, repo, others, o)) + Freed(fs, repo, others, o)
  {
    hide Fs.Links, Occupied;
    var p := Object(repo, o);
    var fs' := Unlink(fs, p);
    VisibleUnlink(fs, p);
    VisibleUnlink(fs', Shared(o));
    UnlinkFrees(Visible(fs), p);
    OnlyName(Visible(fs), p);
    ReferencedMeansNamed(fs, repo, others, o);
    if !Orphaned(fs, repo, o) {
      var q :| q in fs.names && q != p && q != Shared(o) && fs.names[q] == fs.names[Shared(o)];
      assert q in Visible(fs).names;
    }
  }

  // On a healthy store what a sweep reports is exactly what a measurement of the
  // store then shows to be gone.
  lemma {:induction false} SweepShows(fs: Fs, order: Order, others: seq<Repo>, found: seq<Oid>)
    requires Ordinary(fs) && Distinct(found) && Healthy(fs, order, found)
    ensures Measured(fs) == Measured(After(fs, order, others, found)) + Reported(fs, order, others, found, false).bytes
  {
    hide Fs.Links, Measured, Freed, Without, Promised;
    if found != [] {
      var earlier, o := found[..|found| - 1], found[|found| - 1];
      assert o in found;
      SweepShows(fs, order, others, earlier);
      AfterLeavesOthers(fs, order, others, earlier, o);
      var so := After(fs, order, others, earlier);
      SettledAtTheStart(fs, so, order, others, o);
      if order.Drops(fs, o) {
        assert IsFor(Object(order.repo, o), o) && IsFor(Shared(o), o);
        WithoutShows(so, order.repo, others, o);
      }
    }
  }
}
