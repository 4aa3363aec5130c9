/**
 Folding a repository's objects into the shared store, one set of bytes for each
 object.
 */
module Deduping {
  import opened Bytes
  import opened Names
  import opened Files
  import opened Collecting
  import opened CollectingTheorems

  datatype DedupeReport = DedupeReport(
    inspected: nat, alreadyShared: nat, adopted: nat, linked: nat, reclaimed: nat, refused: nat)

  const NOTHING := DedupeReport(0, 0, 0, 0, 0, 0)

  // The digest is of a file as it lies on the disk, whatever it holds.
  predicate HashesTo(digest: Bytes -> Oid, fs: Fs, p: Path, o: Oid)
    requires fs.Valid()
  {
    fs.Has(p) && digest(fs.Read(p)) == o
  }

  datatype Fate = Same | Links | Refuses | Adopts

  // What is done about one object, and what a dry run supposes.
  function FateOf(digest: Bytes -> Oid, fs: Fs, repo: Repo, o: Oid, dry: bool): Fate
    requires fs.Valid()
  {
    if Folded(fs, repo, o) then Same
    else if fs.Has(Shared(o)) then (if dry || HashesTo(digest, fs, Shared(o), o) then Links else Refuses)
    else if dry || HashesTo(digest, fs, Object(repo, o), o) then Adopts
    else Refuses
  }

  function Deduped(digest: Bytes -> Oid, fs: Fs, repo: Repo, o: Oid): (fs': Fs)
    requires fs.Valid()
    ensures fs'.Valid() && fs'.data == fs.data
  {
    match FateOf(digest, fs, repo, o, false)
    case Links => fs.(names := fs.names[Object(repo, o) := fs.names[Shared(o)]])
    case Adopts => fs.(names := fs.names[Shared(o) := fs.names[Object(repo, o)]])
    case _ => fs
  }

  function Tallied(digest: Bytes -> Oid, fs: Fs, repo: Repo, o: Oid, dry: bool, r: DedupeReport): DedupeReport
    requires fs.Valid()
  {
    match FateOf(digest, fs, repo, o, dry)
    case Same => r.(alreadyShared := r.alreadyShared + 1)
    case Links => r.(linked := r.linked + 1, reclaimed := r.reclaimed + |fs.Read(Shared(o))|)
    case Adopts => r.(adopted := r.adopted + 1)
    case Refuses => r.(refused := r.refused + 1)
  }

  function After(digest: Bytes -> Oid, fs: Fs, repo: Repo, found: seq<Oid>): (fs': Fs)
    requires fs.Valid()
    ensures fs'.Valid() && fs'.data == fs.data
  {
    if found == [] then fs
    else Deduped(digest, After(digest, fs, repo, found[..|found| - 1]), repo, found[|found| - 1])
  }

  function Reported(digest: Bytes -> Oid, fs: Fs, repo: Repo, found: seq<Oid>, dry: bool): DedupeReport
    requires fs.Valid()
  {
    if found == [] then NOTHING
    else
      var earlier, o := found[..|found| - 1], found[|found| - 1];
      var at := if dry then fs else After(digest, fs, repo, earlier);
      var r := Reported(digest, fs, repo, earlier, dry);
      Tallied(digest, at, repo, o, dry, r.(inspected := r.inspected + 1))
  }

  // A link under a staging name, renamed over the original: no moment without the object.
  method Adopt(store: LocalStore, digest: Bytes -> Oid, repo: Repo, o: Oid, ticket: nat, dry: bool, report: DedupeReport)
    returns (after: DedupeReport)
    requires store.Valid() && store.fs.Has(Shared(o)) && !Folded(store.fs, repo, o)
    requires !store.fs.Has(Staging(ticket, false))
    modifies store
    ensures store.Valid() && store.fs == if dry then old(store.fs) else Deduped(digest, old(store.fs), repo, o)
    ensures after == Tallied(digest, old(store.fs), repo, o, dry, report)
    ensures !store.fs.Has(Staging(ticket, false))
  {
    var size := |store.fs.Read(Shared(o))|;
    if dry {
      return report.(linked := report.linked + 1, reclaimed := report.reclaimed + size);
    }
    if digest(store.fs.Read(Shared(o))) != o {
      return report.(refused := report.refused + 1);
    }
    var staged := Staging(ticket, false);
    ghost var was := store.fs.names;
    store.fs := Link(store.fs, Shared(o), staged).fs;
    store.fs := Rename(store.fs, staged, Object(repo, o)).value;
    assert store.fs.names == was[Object(repo, o) := was[Shared(o)]];
    return report.(linked := report.linked + 1, reclaimed := report.reclaimed + size);
  }

  // Taken away and linked back: what was the repository's copy is the shared one.
  method Promote(store: LocalStore, digest: Bytes -> Oid, repo: Repo, o: Oid, dry: bool, report: DedupeReport)
    returns (after: DedupeReport)
    requires store.Valid() && !store.fs.Has(Shared(o))
    modifies store
    ensures store.Valid() && store.fs == if dry then old(store.fs) else Deduped(digest, old(store.fs), repo, o)
    ensures after == Tallied(digest, old(store.fs), repo, o, dry, report)
  {
    if dry {
      return report.(adopted := report.adopted + 1);
    }
    var path, content := Object(repo, o), Shared(o);
    if !store.fs.Has(path) || digest(store.fs.Read(path)) != o {
      return report.(refused := report.refused + 1);
    }
    ghost var was := store.fs.names;
    store.fs := Rename(store.fs, path, content).value;
    store.fs := Link(store.fs, content, path).fs;
    assert store.fs.names == was[content := was[path]];
    return report.(adopted := report.adopted + 1);
  }

  method Dedupe(store: LocalStore, digest: Bytes -> Oid, repo: Repo, found: seq<Oid>, ticket: nat, dry: bool)
    returns (report: DedupeReport)
    requires store.Valid() && !store.fs.Has(Staging(ticket, false))
    modifies store
    ensures store.Valid() && store.fs == if dry then old(store.fs) else After(digest, old(store.fs), repo, found)
    ensures report == Reported(digest, old(store.fs), repo, found, dry)
  {
    report := NOTHING;
    for i := 0 to |found|
      invariant store.Valid() && !store.fs.Has(Staging(ticket, false))
      invariant store.fs == if dry then old(store.fs) else After(digest, old(store.fs), repo, found[..i])
      invariant report == Reported(digest, old(store.fs), repo, found[..i], dry)
    {
      assert found[..i + 1][..i] == found[..i];
      var o := found[i];
      report := report.(inspected := report.inspected + 1);
      if Folded(store.fs, repo, o) {
        report := report.(alreadyShared := report.alreadyShared + 1);
      } else if store.fs.Has(Shared(o)) {
        report := Adopt(store, digest, repo, o, ticket, dry, report);
      } else {
        report := Promote(store, digest, repo, o, dry, report);
      }
    }
    assert found[..|found|] == found;
  }
}
