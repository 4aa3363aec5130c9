/**
 Dropping what a repository no longer retains from the local store, and what is
 reported about it.
 */
module Collecting {
  import opened Names
  import opened Files

  // A repository's retained objects, and how long the others are left alone.  `age`
  // is how long ago a file was written.
  datatype Order = Order(repo: Repo, retained: set<Oid>, grace: nat, age: nat -> nat)
  {
    predicate Considers(fs: Fs, o: Oid) {
      o !in retained && fs.Has(Object(repo, o))
    }

    predicate Drops(fs: Fs, o: Oid) {
      Considers(fs, o) && age(fs.names[Object(repo, o)]) >= grace
    }

    predicate Spares(fs: Fs, o: Oid) {
      Considers(fs, o) && age(fs.names[Object(repo, o)]) < grace
    }
  }

  datatype SweepReport = SweepReport(swept: nat, bytes: nat, withinGrace: nat)

  predicate HeldBy(fs: Fs, others: seq<Repo>, o: Oid) {
    exists r | r in others :: fs.Has(Object(r, o))
  }

  // `ours` of the links are the swept repository's own.
  predicate Referenced(fs: Fs, others: seq<Repo>, o: Oid, ours: nat) {
    if fs.Has(Shared(o)) then fs.Links(fs.names[Shared(o)]) > 1 + ours else HeldBy(fs, others, o)
  }

  // What collecting one object leaves, and the bytes it counts as freed.
  function Without(fs: Fs, repo: Repo, others: seq<Repo>, o: Oid): Fs {
    var fs' := Unlink(fs, Object(repo, o));
    if Referenced(fs', others, o, 0) then fs' else Unlink(fs', Shared(o))
  }

  function Freed(fs: Fs, repo: Repo, others: seq<Repo>, o: Oid): nat
    requires fs.Valid()
  {
    var fs' := Unlink(fs, Object(repo, o));
    if Referenced(fs', others, o, 0) || !fs'.Has(Shared(o)) then 0 else |fs'.Read(Shared(o))|
  }

  // What a dry run says collecting it would free.
  function Promised(fs: Fs, repo: Repo, others: seq<Repo>, o: Oid): nat
    requires fs.Valid() && fs.Has(Object(repo, o))
  {
    if Referenced(fs, others, o, 1) then 0 else |fs.Read(Object(repo, o))|
  }

  // The store after a sweep has been through some of what it found.
  function After(fs: Fs, order: Order, others: seq<Repo>, found: seq<Oid>): (fs': Fs)
    requires fs.Valid()
    ensures fs'.Valid() && fs'.data == fs.data
    ensures forall p | p in fs'.names :: p in fs.names && fs'.names[p] == fs.names[p]
  {
    if found == [] then fs
    else
      var so, o := After(fs, order, others, found[..|found| - 1]), found[|found| - 1];
      if order.Drops(so, o) then Without(so, order.repo, others, o) else so
  }

  function Reported(fs: Fs, order: Order, others: seq<Repo>, found: seq<Oid>, dry: bool): SweepReport
    requires fs.Valid()
  {
    if found == [] then SweepReport(0, 0, 0)
    else
      var earlier, o := found[..|found| - 1], found[|found| - 1];
      var at := if dry then fs else After(fs, order, others, earlier);
      var r := Reported(fs, order, others, earlier, dry);
      if order.Spares(at, o) then r.(withinGrace := r.withinGrace + 1)
      else if !order.Drops(at, o) then r
      else
        var bytes := if dry then Promised(at, order.repo, others, o) else Freed(at, order.repo, others, o);
        r.(swept := r.swept + 1, bytes := r.bytes + bytes)
  }

  class LocalStore {
    var fs: Fs

    ghost predicate Valid()
      reads this
    {
      fs.Valid()
    }

    constructor (fs: Fs)
      requires fs.Valid()
      ensures Valid() && this.fs == fs
    {
      this.fs := fs;
    }

    method ReferencedElsewhere(o: Oid, others: seq<Repo>, ours: nat) returns (referenced: bool)
      ensures referenced == Referenced(fs, others, o, ours)
    {
      if fs.Has(Shared(o)) {
        return fs.Links(fs.names[Shared(o)]) > 1 + ours;
      }
      for i := 0 to |others|
        invariant forall j | 0 <= j < i :: !fs.Has(Object(others[j], o))
      {
        if fs.Has(Object(others[i], o)) {
          return true;
        }
      }
      return false;
    }

    method Collect(repo: Repo, o: Oid, held: nat, others: seq<Repo>, dry: bool, report: SweepReport)
      returns (after: SweepReport)
      requires Valid() && fs.Has(Object(repo, o)) && held == |fs.Read(Object(repo, o))|
      modifies this
      ensures Valid()
      ensures fs == if dry then old(fs) else Without(old(fs), repo, others, o)
      ensures after == report.(swept := report.swept + 1, bytes := report.bytes +
        if dry then Promised(old(fs), repo, others, o) else Freed(old(fs), repo, others, o))
    {
      after := report.(swept := report.swept + 1);
      if dry {
        var referenced := ReferencedElsewhere(o, others, 1);
        if !referenced {
          after := after.(bytes := after.bytes + held);
        }
        return;
      }
      fs := Unlink(fs, Object(repo, o));
      var referenced := ReferencedElsewhere(o, others, 0);
      if referenced {
        return;
      }
      var content := Shared(o);
      var size := if fs.Has(content) then |fs.Read(content)| else held;
      if fs.Has(content) {
        fs := Unlink(fs, content);
        after := after.(bytes := after.bytes + size);
      } else {
        assert Unlink(fs, content).names == fs.names;
      }
    }

    method Sweep(order: Order, others: seq<Repo>, found: seq<Oid>, dry: bool) returns (report: SweepReport)
      requires Valid()
      modifies this
      ensures Valid()
      ensures fs == if dry then old(fs) else After(old(fs), order, others, found)
      ensures report == Reported(old(fs), order, others, found, dry)
    {
      report := SweepReport(0, 0, 0);
      for i := 0 to |found|
        invariant Valid()
        invariant fs == if dry then old(fs) else After(old(fs), order, others, found[..i])
        invariant report == Reported(old(fs), order, others, found[..i], dry)
      {
        assert found[..i + 1][..i] == found[..i];
        var o := found[i];
        if o in order.retained || !fs.Has(Object(order.repo, o)) {
          continue;
        }
        var inode := fs.names[Object(order.repo, o)];
        if order.age(inode) < order.grace {
          report := report.(withinGrace := report.withinGrace + 1);
          continue;
        }
        report := Collect(order.repo, o, |fs.data[inode]|, others, dry, report);
      }
      assert found[..|found|] == found;
    }
  }
}
