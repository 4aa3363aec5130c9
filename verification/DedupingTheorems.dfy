/**
 What folding objects into the shared store keeps, frees and leaves for a second run.
 */
module DedupingTheorems {
  import opened Wrappers
  import opened Bytes
  import opened Names
  import opened Framing
  import opened Reading
  import opened CodecTheorems
  import opened Serving
  import opened Files
  import opened LocalProtocol
  import opened LocalSafety
  import opened LocalTheorems
  import opened Accounting
  import opened CollectingTheorems
  import opened Deduping
  import opened Sorting
  import Collecting

  // ----- One object at a time, whatever the order -----

  ghost predicate SameNames(fs: Fs, fs': Fs, o: Oid) {
    fs'.data == fs.data && forall p | IsFor(p, o) :: fs'.Has(p) == fs.Has(p) && (fs.Has(p) ==> fs'.names[p] == fs.names[p])
  }

  lemma DedupedIsLocal(digest: Bytes -> Oid, fs: Fs, repo: Repo, o: Oid, o': Oid)
    requires fs.Valid() && o != o'
    ensures SameNames(fs, Deduped(digest, fs, repo, o'), o)
  {
  }

  lemma FateIsLocal(digest: Bytes -> Oid, fs: Fs, fs': Fs, repo: Repo, o: Oid, dry: bool)
    requires fs.Valid() && fs'.Valid() && SameNames(fs, fs', o)
    ensures FateOf(digest, fs', repo, o, dry) == FateOf(digest, fs, repo, o, dry)
    ensures SameNames(Deduped(digest, fs, repo, o), Deduped(digest, fs', repo, o), o)
  {
    assert IsFor(Object(repo, o), o) && IsFor(Shared(o), o);
  }

  // Each object found is treated as if it were alone, and no other is touched.
  lemma {:induction false} EachForItself(digest: Bytes -> Oid, fs: Fs, repo: Repo, found: seq<Oid>, o: Oid)
    requires fs.Valid() && Distinct(found)
    ensures SameNames(if o in found then Deduped(digest, fs, repo, o) else fs, After(digest, fs, repo, found), o)
  {
    hide Deduped;
    if found != [] {
      var earlier, last := found[..|found| - 1], found[|found| - 1];
      var at := After(digest, fs, repo, earlier);
      EachForItself(digest, fs, repo, earlier, o);
      if o == last {
        FateIsLocal(digest, fs, at, repo, o, false);
      } else {
        DedupedIsLocal(digest, at, repo, o, last);
      }
    }
  }

  // ----- What is read -----

  // A name leads where it led, or to bytes that hash to the object it names.
  lemma NamesMoveToRightBytes(digest: Bytes -> Oid, fs: Fs, repo: Repo, found: seq<Oid>, p: Path, o: Oid)
    requires fs.Valid() && Distinct(found) && IsFor(p, o)
    ensures var fs' := After(digest, fs, repo, found);
      && (fs.Has(p) ==> fs'.Has(p))
      && (fs'.Has(p) ==> (fs.Has(p) && fs'.names[p] == fs.names[p]) || digest(fs'.Read(p)) == o)
  {
  }

  // An object that was read as what it is named after is read as the same bytes
  // afterwards, in this repository and every other, if and only if it is not one
  // that gets linked to a shared copy which is read as something else.
  lemma ReadsSurviveExactlyWhen(w: World, fs: Fs, repo: Repo, found: seq<Oid>, r: Repo, o: Oid)
    requires w.Sound() && fs.Valid() && Distinct(found) && Leads(w, fs, Object(r, o), o)
    ensures var fs' := After(w.digest, fs, repo, found);
      Held(w, fs', r, o) == Held(w, fs, r, o) <==>
        (r == repo && o in found && FateOf(w.digest, fs, repo, o, false) == Links ==> Right(w, fs.Read(Shared(o)), o))
  {
    hide ReadBack;
    EachForItself(w.digest, fs, repo, found, o);
    var fs' := After(w.digest, fs, repo, found);
    assert IsFor(Object(r, o), o);
    if r == repo && o in found && FateOf(w.digest, fs, repo, o, false) == Links {
      assert fs'.Read(Object(r, o)) == fs.Read(Shared(o));
    }
  }

  // A shared copy is only linked to if it hashes to its name, which for an object
  // stored as it is means that it is read right.
  lemma LinkedCopiesAreRight(w: World, fs: Fs, repo: Repo, o: Oid)
    requires fs.Valid() && FateOf(w.digest, fs, repo, o, false) == Links
    requires Opening(fs.Read(Shared(o)), w.ring, o).Raw?
    ensures Right(w, fs.Read(Shared(o)), o)
  {
    hide ReadBack, Opening;
    RawIsItself(w.t, fs.Read(Shared(o)), w.ring, o);
  }

  // So an object that is not itself linked to a framed copy reads as it did.
  lemma UnframedReadsSurvive(w: World, fs: Fs, repo: Repo, found: seq<Oid>, r: Repo, o: Oid)
    requires w.Sound() && fs.Valid() && Distinct(found) && Leads(w, fs, Object(r, o), o)
    requires fs.Has(Shared(o)) ==> Opening(fs.Read(Shared(o)), w.ring, o).Raw?
    ensures var fs' := After(w.digest, fs, repo, found); Held(w, fs', r, o) == Held(w, fs, r, o) != None
  {
    hide Opening, Right, FateOf;
    ReadsSurviveExactlyWhen(w, fs, repo, found, r, o);
    if FateOf(w.digest, fs, repo, o, false) == Links {
      LinksToWhatIsThere(w, fs, repo, o);
      LinkedCopiesAreRight(w, fs, repo, o);
    }
    assert Held(w, fs, r, o).Some? by { RightIsHeld(w, fs, r, o); }
  }

  lemma LinksToWhatIsThere(w: World, fs: Fs, repo: Repo, o: Oid)
    requires fs.Valid() && FateOf(w.digest, fs, repo, o, false) == Links
    ensures fs.Has(Shared(o))
  {
  }

  lemma RightIsHeld(w: World, fs: Fs, r: Repo, o: Oid)
    requires fs.Valid() && Leads(w, fs, Object(r, o), o)
    ensures Held(w, fs, r, o).Some?
  {
    hide ReadBack;
  }

  // ----- Framed objects -----

  // What a file not yet folded is judged by: the shared entry if there is one.
  function Judged(fs: Fs, repo: Repo, o: Oid): Path {
    if fs.Has(Shared(o)) then Shared(o) else Object(repo, o)
  }

  // A framed object is not what its name is the digest of.  Where one is what an
  // object is judged by, the object is refused, good as it is, and stays apart.
  lemma FramedIsRefused(w: World, fs: Fs, repo: Repo, found: seq<Oid>, c: Config, payload: Bytes)
    requires w.Sound() && fs.Valid() && c.Sound() && Distinct(found) && c.oid in found
    requires w.digest(payload) == c.oid && Container(w.t, c, payload) != payload
    requires !Folded(fs, repo, c.oid) && fs.Has(Judged(fs, repo, c.oid))
    requires fs.Read(Judged(fs, repo, c.oid)) == Container(w.t, c, payload)
    ensures FateOf(w.digest, fs, repo, c.oid, false) == Refuses
    ensures !Folded(After(w.digest, fs, repo, found), repo, c.oid)
  {
    hide Container;
    FoldedAfterwards(w.digest, fs, repo, found, c.oid);
  }

  // One such: the empty object, compressed or sealed, and held by one repository.
  lemma EmptyObjectIsRefused(w: World, repo: Repo, c: Config)
    requires w.Sound() && c.Sound() && c.oid == w.digest([]) && Holds(w.ring, c)
    ensures var fs := Fs(map[Object(repo, c.oid) := 0], map[0 := Container(w.t, c, [])]);
      && Leads(w, fs, Object(repo, c.oid), c.oid)
      && FateOf(w.digest, fs, repo, c.oid, false) == Refuses
      && FateOf(w.digest, fs, repo, c.oid, true) == Adopts
  {
    hide Container, ReadBack;
    var fs := Fs(map[Object(repo, c.oid) := 0], map[0 := Container(w.t, c, [])]);
    ContainerReadsBack(w.t, c, [], w.ring);
    assert Container(w.t, c, []) != [] by { ContainersAreNotEmpty(w, c); }
    FramedIsRefused(w, fs, repo, [c.oid], c, []);
  }

  lemma ContainersAreNotEmpty(w: World, c: Config)
    requires c.Sound()
    ensures Container(w.t, c, []) != []
  {
  }

  // ----- What is counted -----

  // Every object found is counted once under one heading, and a dry run differs only
  // in supposing that nothing will be refused.
  lemma {:induction false} EveryObjectIsCounted(digest: Bytes -> Oid, fs: Fs, repo: Repo, found: seq<Oid>)
    requires fs.Valid() && Distinct(found)
    ensures Compares(Reported(digest, fs, repo, found, false), Reported(digest, fs, repo, found, true), |found|)
  {
    hide Deduped, FateOf, Compares;
    if found == [] {
      assert Compares(NOTHING, NOTHING, 0) by { NothingCompares(); }
    } else {
      var earlier, o := found[..|found| - 1], found[|found| - 1];
      var at := After(digest, fs, repo, earlier);
      EveryObjectIsCounted(digest, fs, repo, earlier);
      EachForItself(digest, fs, repo, earlier, o);
      FateIsLocal(digest, fs, at, repo, o, false);
      assert IsFor(Shared(o), o);
      OneMoreCompares(digest, fs, at, repo, o, Reported(digest, fs, repo, earlier, false),
                      Reported(digest, fs, repo, earlier, true), |earlier|);
    }
  }

  // A run and a rehearsal over as many objects.
  predicate Compares(wet: DedupeReport, dry: DedupeReport, n: nat) {
    && wet.inspected == dry.inspected == n
    && wet.inspected == wet.alreadyShared + wet.adopted + wet.linked + wet.refused
    && wet.alreadyShared == dry.alreadyShared && dry.refused == 0
    && wet.adopted <= dry.adopted && wet.linked <= dry.linked && wet.reclaimed <= dry.reclaimed
    && (wet.refused == 0 ==> wet == dry)
  }

  lemma NothingCompares()
    ensures Compares(NOTHING, NOTHING, 0)
  {
  }

  lemma OneMoreCompares(digest: Bytes -> Oid, fs: Fs, at: Fs, repo: Repo, o: Oid, wet: DedupeReport, dry: DedupeReport, n: nat)
    requires fs.Valid() && at.Valid() && at.data == fs.data && Compares(wet, dry, n)
    requires at.Has(Shared(o)) == fs.Has(Shared(o)) && (fs.Has(Shared(o)) ==> at.names[Shared(o)] == fs.names[Shared(o)])
    requires FateOf(digest, at, repo, o, false) == FateOf(digest, fs, repo, o, false)
    ensures Compares(Tallied(digest, at, repo, o, false, wet.(inspected := wet.inspected + 1)),
                     Tallied(digest, fs, repo, o, true, dry.(inspected := dry.inspected + 1)), n + 1)
  {
    hide FateOf;
    DryFate(digest, fs, repo, o);
    DryFate(digest, at, repo, o);
  }

  lemma DryFate(digest: Bytes -> Oid, fs: Fs, repo: Repo, o: Oid)
    requires fs.Valid()
    ensures var wet, dry := FateOf(digest, fs, repo, o, false), FateOf(digest, fs, repo, o, true);
      dry != Refuses && (wet == dry || (wet == Refuses && dry != Same))
    ensures FateOf(digest, fs, repo, o, true) == Links ==> fs.Has(Shared(o))
    ensures FateOf(digest, fs, repo, o, false) == Links ==> fs.Has(Shared(o))
  {
  }

  // ----- What is freed -----

  // The bytes of the copies that were replaced, where no other name led to them.
  function Replaced(digest: Bytes -> Oid, fs: Fs, repo: Repo, found: seq<Oid>): nat
    requires fs.Valid()
  {
    if found == [] then 0
    else
      var o := found[|found| - 1];
      Replaced(digest, fs, repo, found[..|found| - 1])
      + if FateOf(digest, fs, repo, o, false) == Links && Loose(fs, repo, o) then |fs.Read(Object(repo, o))| else 0
  }

  lemma RelinkFrees(fs: Fs, p: Path, q: Path)
    requires fs.Valid() && fs.Has(q) && p != q
    ensures var fs' := fs.(names := fs.names[p := fs.names[q]]);
      fs'.Valid() && Occupied(fs) == Occupied(fs')
        + if fs.Has(p) && fs.names[p] != fs.names[q] && fs.Links(fs.names[p]) == 1 then |fs.Read(p)| else 0
  {
    hide Fs.Links;
    var fs' := fs.(names := fs.names[p := fs.names[q]]);
    if fs.Has(p) {
      UnlinkFrees(fs, p);
      OnlyName(fs, p);
    }
    var base := Unlink(fs, p);
    assert q in base.names;
    assert base.names == if fs.Has(p) then fs.names - {p} else fs.names;
    assert Named(fs') == Named(base) by { SameInodes(fs, p, q); }
  }

  lemma SameInodes(fs: Fs, p: Path, q: Path)
    requires fs.Has(q) && p != q
    ensures Named(fs.(names := fs.names[p := fs.names[q]])) == Named(Unlink(fs, p))
  {
    var fs', base := fs.(names := fs.names[p := fs.names[q]]), Unlink(fs, p);
    forall i | i in Named(fs') ensures i in Named(base) {
      var x :| x in fs'.names && fs'.names[x] == i;
      if x == p { assert q in base.names && base.names[q] == i; } else { assert x in base.names && base.names[x] == i; }
    }
    forall i | i in Named(base) ensures i in Named(fs') {
      var x :| x in base.names && base.names[x] == i;
      assert x in fs'.names && fs'.names[x] == i;
    }
  }

  lemma DedupedFrees(digest: Bytes -> Oid, fs: Fs, repo: Repo, o: Oid)
    requires fs.Valid()
    ensures Occupied(fs) == Occupied(Deduped(digest, fs, repo, o))
      + if FateOf(digest, fs, repo, o, false) == Links && Loose(fs, repo, o) then |fs.Read(Object(repo, o))| else 0
  {
    hide Fs.Links, Occupied;
    match FateOf(digest, fs, repo, o, false) {
      case Links => RelinkFrees(fs, Object(repo, o), Shared(o));
      case Adopts => RelinkFrees(fs, Shared(o), Object(repo, o));
      case _ =>
    }
  }

  // With names of different objects apart, so are their link counts.
  lemma LinksAreLocal(digest: Bytes -> Oid, fs: Fs, repo: Repo, o: Oid, o': Oid)
    requires Ordinary(fs) && o != o'
    ensures Ordinary(Deduped(digest, fs, repo, o')) && SameFor(fs, Deduped(digest, fs, repo, o'), o)
  {
    var fs' := Deduped(digest, fs, repo, o');
    assert IsFor(Object(repo, o'), o') && IsFor(Shared(o'), o');
    forall p | p in fs.names && IsFor(p, o) ensures fs'.Links(fs.names[p]) == fs.Links(fs.names[p]) {
      var i := fs.names[p];
      assert (set q | q in fs'.names && fs'.names[q] == i) == (set q | q in fs.names && fs.names[q] == i);
    }
  }

  lemma {:induction false} LinksStay(digest: Bytes -> Oid, fs: Fs, repo: Repo, found: seq<Oid>, o: Oid)
    requires Ordinary(fs) && o !in found
    ensures Ordinary(After(digest, fs, repo, found)) && SameFor(fs, After(digest, fs, repo, found), o)
  {
    hide Deduped, Fs.Links;
    if found != [] {
      LinksStay(digest, fs, repo, found[..|found| - 1], o);
      LinksAreLocal(digest, After(digest, fs, repo, found[..|found| - 1]), repo, o, found[|found| - 1]);
    }
  }

  // What the disk gets back is exactly the copies that were replaced.
  lemma {:induction false} DedupeFrees(digest: Bytes -> Oid, fs: Fs, repo: Repo, found: seq<Oid>)
    requires Ordinary(fs) && Distinct(found)
    ensures Occupied(fs) == Occupied(After(digest, fs, repo, found)) + Replaced(digest, fs, repo, found)
  {
    hide Deduped, Fs.Links, Occupied, FateOf;
    if found != [] {
      var earlier, o := found[..|found| - 1], found[|found| - 1];
      var at := After(digest, fs, repo, earlier);
      DedupeFrees(digest, fs, repo, earlier);
      LinksStay(digest, fs, repo, earlier, o);
      assert IsFor(Object(repo, o), o);
      FateIsLocal(digest, fs, at, repo, o, false);
      DedupedFrees(digest, at, repo, o);
    }
  }

  // The report says as much, when each copy replaced was a file of its own that
  // held the object too.
  lemma {:induction false} ReclaimedIsFreed(w: World, fs: Fs, repo: Repo, found: seq<Oid>)
    requires w.Sound() && Ordinary(fs) && Distinct(found)
    requires forall o | o in found && FateOf(w.digest, fs, repo, o, false) == Links ::
      Loose(fs, repo, o) && HashesTo(w.digest, fs, Object(repo, o), o)
    ensures Reported(w.digest, fs, repo, found, false).reclaimed == Replaced(w.digest, fs, repo, found)
    ensures Occupied(fs) == Occupied(After(w.digest, fs, repo, found)) + Reported(w.digest, fs, repo, found, false).reclaimed
  {
    hide Deduped, Fs.Links, Occupied, Loose;
    DedupeFrees(w.digest, fs, repo, found);
    if found != [] {
      var earlier, o := found[..|found| - 1], found[|found| - 1];
      assert o in found;
      ReclaimedIsFreed(w, fs, repo, earlier);
      EachForItself(w.digest, fs, repo, earlier, o);
      FateIsLocal(w.digest, fs, After(w.digest, fs, repo, earlier), repo, o, false);
      assert IsFor(Shared(o), o);
    }
  }

  // ----- A second run -----

  // What is not refused is folded in, so that a sweep can account for it.
  lemma FoldedAfterwards(digest: Bytes -> Oid, fs: Fs, repo: Repo, found: seq<Oid>, o: Oid)
    requires fs.Valid() && Distinct(found) && o in found
    ensures var fs' := After(digest, fs, repo, found);
      Folded(fs', repo, o) <==> FateOf(digest, fs, repo, o, false) != Refuses
    ensures FateOf(digest, fs, repo, o, false) == Refuses ==>
      FateOf(digest, After(digest, fs, repo, found), repo, o, false) == Refuses
  {
    EachForItself(digest, fs, repo, found, o);
    assert IsFor(Object(repo, o), o) && IsFor(Shared(o), o);
  }

  // Running it again changes nothing, and finds everything shared but what it
  // refused the first time.
  lemma {:induction false} SecondRunFindsNothing(digest: Bytes -> Oid, fs: Fs, repo: Repo, all: seq<Oid>, found: seq<Oid>)
    requires fs.Valid() && Distinct(all) && found <= all
    ensures var done := After(digest, fs, repo, all);
      var again := Reported(digest, done, repo, found, false);
      && After(digest, done, repo, found) == done
      && again.inspected == |found| && again.alreadyShared + again.refused == |found|
      && again.refused == Reported(digest, fs, repo, found, false).refused
      && again.adopted == again.linked == again.reclaimed == 0
  {
    hide HashesTo;
    if found != [] {
      var earlier, o := found[..|found| - 1], found[|found| - 1];
      assert o == all[|found| - 1];
      SecondRunFindsNothing(digest, fs, repo, all, earlier);
      FoldedAfterwards(digest, fs, repo, all, o);
      EachForItself(digest, fs, repo, earlier, o);
      FateIsLocal(digest, fs, After(digest, fs, repo, earlier), repo, o, false);
    }
  }
}
