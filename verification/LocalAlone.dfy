/**
 The programs of the local store with nobody beside them: call by call they do what
 the sequential sweep and deduplication do, and a push and a compression what they are
 for.
 */
module LocalAlone {
  import opened Wrappers
  import opened Names
  import opened Sealing
  import opened Framing
  import opened Reading
  import opened Serving
  import opened Files
  import opened LocalProtocol
  import Collecting
  import CollectingTheorems
  import Deduping

  ghost predicate Steady(s: State) {
    s.fs.Valid() && forall q | q in s.procs && s.procs[q].Compress? :: s.procs[q].config.Sound()
  }

  // The next n calls of one process.
  ghost function Drive(w: World, s: State, pid: nat, c: Choice, n: nat): State
    decreases n
  {
    if n == 0 || !Steady(s) then s
    else match Step(w, s, Advance(pid, c))
      case None => s
      case Some(s') => Drive(w, s', pid, c, n - 1)
  }

  lemma DriveOn(w: World, s: State, pid: nat, c: Choice, n: nat)
    requires Steady(s) && n > 0 && Step(w, s, Advance(pid, c)).Some?
    ensures Drive(w, s, pid, c, n) == Drive(w, Step(w, s, Advance(pid, c)).value, pid, c, n - 1)
  {
    hide Step, Steady;
  }

  // What a call takes a process to, by the program it runs.
  ghost function Next(w: World, s: State, pid: nat, c: Choice): State
    requires Steady(s) && pid in s.procs
  {
    var p := s.procs[pid];
    match p
    case Push(_, _, _, _, _, _) => PushStep(s, pid, p)
    case Collect(_, _, _) => CollectStep(s, pid, p, c)
    case Adopt(_, _, _, _) => AdoptStep(w, s, pid, p)
    case Promote(_, _, _) => PromoteStep(w, s, pid, p)
    case Compress(_, _, _, _, _, _) => CompressStep(w, s, pid, p, c)
  }

  lemma Onwards(w: World, s: State, pid: nat, c: Choice, n: nat)
    requires Steady(s) && n > 0 && pid in s.procs
    ensures Drive(w, s, pid, c, n) == Drive(w, Next(w, s, pid, c), pid, c, n - 1)
  {
    hide PushStep, CollectStep, AdoptStep, PromoteStep, CompressStep;
  }

  lemma StaysSteady(s: State, pid: nat, fs: Fs, p: Proc)
    requires Steady(s) && pid in s.procs && fs.Valid()
    requires p.Compress? ==> s.procs[pid].Compress? && p.config == s.procs[pid].config
    ensures Steady(Become(s, pid, fs, p))
  {
  }

  lemma {:induction false} GoneIsGone(w: World, s: State, pid: nat, c: Choice, n: nat)
    requires pid !in s.procs
    ensures Drive(w, s, pid, c, n) == s
  {
  }

  // ----- Every call is one of few -----

  // How many more calls a process can make at most, the last to leave.
  function Left(p: Proc): nat {
    match p
    case Push(_, _, _, _, _, at) =>
      (match at
       case Look => 7
       case Publish => 6
       case Attach => 5
       case Restore => 4
       case Reattach => 3
       case Discard => 2
       case Pushed => 1)
    case Collect(_, _, at) => (match at case Detach => 4 case Count => 3 case Sweep => 2 case Collected => 1)
    case Adopt(_, _, _, at) => (match at case Check => 4 case Borrow => 3 case Replace => 2 case Adopted => 1)
    case Promote(_, _, at) => (match at case Vet => 5 case Away => 4 case Back => 3 case Undo => 2 case Promoted => 1)
    case Compress(_, _, _, _, _, at) =>
      match at
      case Sniff => 8
      case Rewrite => 7
      case Judge(_) => 6
      case Compare => 5
      case SwapOwn => 4
      case SwapShared => 4
      case Relink => 3
      case Settle => 2
      case Compressed => 1
  }

  // Whatever the others do and whatever a call finds, a process can always make its
  // next one, and is gone within eight of them.
  lemma CallsRunOut(w: World, s: State, pid: nat, c: Choice)
    requires Steady(s) && pid in s.procs
    ensures var s' := Step(w, s, Advance(pid, c));
      s'.Some? && (pid in s'.value.procs ==> Left(s'.value.procs[pid]) < Left(s.procs[pid]))
    ensures Step(w, s, Abort(pid)) == Some(State(s.fs, s.procs - {pid}))
  {
    hide Link, Rename, Unlink, Create, Opening, Container, Disk, World.Writes, Fs.Links, Fs.Has, Steady;
    SteadyIsValid(s);
    match s.procs[pid] {
      case Push(_, _, _, _, _, _) => PushesRunOut(s, pid);
      case Compress(_, _, _, _, _, _) => CompressionsRunOut(w, s, pid, c);
      case _ =>
    }
  }

  lemma SteadyIsValid(s: State)
    requires Steady(s)
    ensures s.fs.Valid() && forall q | q in s.procs && s.procs[q].Compress? :: s.procs[q].config.Sound()
  {
  }

  lemma PushesRunOut(s: State, pid: nat)
    requires pid in s.procs && s.procs[pid].Push?
    ensures var s' := PushStep(s, pid, s.procs[pid]); pid in s'.procs ==> Left(s'.procs[pid]) < Left(s.procs[pid])
  {
    hide Link, Unlink, Fs.Has;
  }

  lemma CompressionsRunOut(w: World, s: State, pid: nat, c: Choice)
    requires s.fs.Valid() && pid in s.procs && s.procs[pid].Compress? && s.procs[pid].config.Sound()
    ensures var s' := CompressStep(w, s, pid, s.procs[pid], c); pid in s'.procs ==> Left(s'.procs[pid]) < Left(s.procs[pid])
  {
    hide Link, Rename, Unlink, Create, Opening, Container, World.Writes;
  }

  // ----- Collecting -----

  // `c.ok`: whether any of the other repositories has the object, asked where there is
  // no shared entry to count the links of.
  lemma CollectAlone(w: World, s: State, pid: nat, others: seq<Repo>, c: Choice, n: nat)
    requires Steady(s) && pid in s.procs && s.procs[pid].Collect? && s.procs[pid].collectAt == Detach && n >= 4
    requires var p := s.procs[pid]; c.ok == Collecting.HeldBy(Unlink(s.fs, p.Here()), others, p.oid)
    ensures var p, t := s.procs[pid], Drive(w, s, pid, c, n);
      t.fs == Collecting.Without(s.fs, p.repo, others, p.oid) && pid !in t.procs
  {
    hide Drive, Fs.Links, Collecting.HeldBy, Disk;
    var p := s.procs[pid];
    DriveOn(w, s, pid, c, n);
    var s1 := Become(s, pid, Unlink(s.fs, p.Here()), p.(collectAt := Count));
    DriveOn(w, s1, pid, c, n - 1);
    var s2 := Step(w, s1, Advance(pid, c)).value;
    DriveOn(w, s2, pid, c, n - 2);
    var s3 := Step(w, s2, Advance(pid, c)).value;
    if s2.procs[pid].collectAt == Collected {
      GoneIsGone(w, s3, pid, c, n - 3);
    } else {
      DriveOn(w, s3, pid, c, n - 3);
      GoneIsGone(w, Step(w, s3, Advance(pid, c)).value, pid, c, n - 4);
    }
  }

  // ----- Deduplicating -----

  lemma AdoptAlone(w: World, s: State, pid: nat, c: Choice, n: nat)
    requires Steady(s) && pid in s.procs && s.procs[pid].Adopt? && s.procs[pid].adoptAt == Check && n >= 4
    requires var p := s.procs[pid]; s.fs.Has(Shared(p.oid)) && !CollectingTheorems.Folded(s.fs, p.repo, p.oid)
    requires !s.fs.Has(Staging(s.procs[pid].ticket, false))
    ensures var p, t := s.procs[pid], Drive(w, s, pid, c, n);
      t.fs == Deduping.Deduped(w.digest, s.fs, p.repo, p.oid) && pid !in t.procs
  {
    hide Drive, Step, Steady, Fs.Links;
    var p := s.procs[pid];
    SteadyIsValid(s);
    Onwards(w, s, pid, c, n);
    if w.digest(s.fs.Read(p.There())) == p.oid {
      StaysSteady(s, pid, s.fs, p.(adoptAt := Borrow));
      BorrowAlone(w, Become(s, pid, s.fs, p.(adoptAt := Borrow)), pid, c, n - 1);
    } else {
      StaysSteady(s, pid, s.fs, p.(adoptAt := Adopted));
      LeaveAlone(w, Become(s, pid, s.fs, p.(adoptAt := Adopted)), pid, c, n - 1);
    }
  }

  // The last call of a process that is done.
  lemma LeaveAlone(w: World, s: State, pid: nat, c: Choice, n: nat)
    requires Steady(s) && pid in s.procs && n >= 1
    requires match s.procs[pid]
      case Adopt(_, _, _, at) => at == Adopted
      case Promote(_, _, at) => at == Promoted
      case Compress(_, _, _, _, _, at) => at == Compressed
      case _ => false
    ensures Drive(w, s, pid, c, n) == Quit(s, pid, s.fs)
  {
    hide Drive, Step, Steady;
    Onwards(w, s, pid, c, n);
    GoneIsGone(w, Quit(s, pid, s.fs), pid, c, n - 1);
  }

  lemma BorrowAlone(w: World, s: State, pid: nat, c: Choice, n: nat)
    requires Steady(s) && pid in s.procs && s.procs[pid].Adopt? && s.procs[pid].adoptAt == Borrow && n >= 3
    requires var p := s.procs[pid]; s.fs.Has(p.There()) && !CollectingTheorems.Folded(s.fs, p.repo, p.oid) && !s.fs.Has(p.Staged())
    ensures var p, t := s.procs[pid], Drive(w, s, pid, c, n);
      t.fs == s.fs.(names := s.fs.names[p.Here() := s.fs.names[p.There()]]) && pid !in t.procs
  {
    hide Drive, Step, Steady, Fs.Links;
    var p := s.procs[pid];
    SteadyIsValid(s);
    Onwards(w, s, pid, c, n);
    var fs1 := s.fs.(names := s.fs.names[p.Staged() := s.fs.names[p.There()]]);
    var s1 := Become(s, pid, fs1, p.(adoptAt := Replace));
    StaysSteady(s, pid, fs1, p.(adoptAt := Replace));
    Onwards(w, s1, pid, c, n - 1);
    var fs2 := s.fs.(names := s.fs.names[p.Here() := s.fs.names[p.There()]]);
    assert Rename(fs1, p.Staged(), p.Here()) == Some(fs2) by { assert fs2.names == fs1.names[p.Here() := s.fs.names[p.There()]] - {p.Staged()}; }
    StaysSteady(s1, pid, fs2, p.(adoptAt := Adopted));
    LeaveAlone(w, Become(s1, pid, fs2, p.(adoptAt := Adopted)), pid, c, n - 2);
  }

  lemma PromoteAlone(w: World, s: State, pid: nat, c: Choice, n: nat)
    requires Steady(s) && pid in s.procs && s.procs[pid].Promote? && s.procs[pid].promoteAt == Vet && n >= 4
    requires !s.fs.Has(Shared(s.procs[pid].oid))
    ensures var p, t := s.procs[pid], Drive(w, s, pid, c, n);
      t.fs == Deduping.Deduped(w.digest, s.fs, p.repo, p.oid) && pid !in t.procs
  {
    hide Drive, Step, Steady, Fs.Links;
    var p := s.procs[pid];
    SteadyIsValid(s);
    Onwards(w, s, pid, c, n);
    if s.fs.Has(p.Here()) && w.digest(s.fs.Read(p.Here())) == p.oid {
      StaysSteady(s, pid, s.fs, p.(promoteAt := Away));
      AwayAlone(w, Become(s, pid, s.fs, p.(promoteAt := Away)), pid, c, n - 1);
    } else {
      StaysSteady(s, pid, s.fs, p.(promoteAt := Promoted));
      LeaveAlone(w, Become(s, pid, s.fs, p.(promoteAt := Promoted)), pid, c, n - 1);
    }
  }

  lemma AwayAlone(w: World, s: State, pid: nat, c: Choice, n: nat)
    requires Steady(s) && pid in s.procs && s.procs[pid].Promote? && s.procs[pid].promoteAt == Away && n >= 3
    requires s.fs.Has(s.procs[pid].Here()) && !s.fs.Has(s.procs[pid].There())
    ensures var p, t := s.procs[pid], Drive(w, s, pid, c, n);
      t.fs == s.fs.(names := s.fs.names[p.There() := s.fs.names[p.Here()]]) && pid !in t.procs
  {
    hide Drive, Step, Steady, Fs.Links;
    var p := s.procs[pid];
    SteadyIsValid(s);
    Onwards(w, s, pid, c, n);
    var inode := s.fs.names[p.Here()];
    var fs1 := s.fs.(names := s.fs.names[p.There() := inode] - {p.Here()});
    var s1 := Become(s, pid, fs1, p.(promoteAt := Back));
    StaysSteady(s, pid, fs1, p.(promoteAt := Back));
    Onwards(w, s1, pid, c, n - 1);
    var fs2 := s.fs.(names := s.fs.names[p.There() := inode]);
    assert Link(fs1, p.There(), p.Here()) == Linked(fs2) by { assert fs2.names == fs1.names[p.Here() := inode]; }
    StaysSteady(s1, pid, fs2, p.(promoteAt := Promoted));
    LeaveAlone(w, Become(s1, pid, fs2, p.(promoteAt := Promoted)), pid, c, n - 2);
  }

  // ----- Pushing -----

  // A push links to what is shared, or shares what it staged; a name the repository
  // had is left as it was, and the staging name goes.
  lemma PushAlone(w: World, s: State, pid: nat, c: Choice, n: nat)
    requires Steady(s) && pid in s.procs && s.procs[pid].Push? && s.procs[pid].pushAt == LocalProtocol.PushAt.Look && n >= 5
    requires s.fs.Has(Staging(s.procs[pid].ticket, false))
    ensures var p, t, names := s.procs[pid], Drive(w, s, pid, c, n), s.fs.names;
      var shared := if s.fs.Has(Shared(p.oid)) then names[Shared(p.oid)] else names[Staging(p.ticket, false)];
      var own := if s.fs.Has(Object(p.repo, p.oid)) then names[Object(p.repo, p.oid)] else shared;
      && t.fs.data == s.fs.data && pid !in t.procs
      && t.fs.names == names[Shared(p.oid) := shared][Object(p.repo, p.oid) := own] - {Staging(p.ticket, false)}
  {
    hide Drive, Fs.Links, Disk;
    var p := s.procs[pid];
    DriveOn(w, s, pid, c, n);
    var s1 := Step(w, s, Advance(pid, c)).value;
    if s.fs.Has(p.There()) {
      assert s.fs.names[Shared(p.oid) := s.fs.names[p.There()]] == s.fs.names;
      AttachAlone(w, s1, pid, c, n - 1);
    } else {
      DriveOn(w, s1, pid, c, n - 1);
      AttachAlone(w, Step(w, s1, Advance(pid, c)).value, pid, c, n - 2);
    }
  }

  lemma AttachAlone(w: World, s: State, pid: nat, c: Choice, n: nat)
    requires Steady(s) && pid in s.procs && s.procs[pid].Push? && s.procs[pid].pushAt == Attach && n >= 3
    requires s.fs.Has(Shared(s.procs[pid].oid))
    ensures var p, t, names := s.procs[pid], Drive(w, s, pid, c, n), s.fs.names;
      var own := if s.fs.Has(Object(p.repo, p.oid)) then names[Object(p.repo, p.oid)] else names[Shared(p.oid)];
      t.fs == s.fs.(names := names[Object(p.repo, p.oid) := own] - {Staging(p.ticket, false)}) && pid !in t.procs
  {
    hide Drive, Fs.Links, Disk;
    var p := s.procs[pid];
    DriveOn(w, s, pid, c, n);
    var s1 := Step(w, s, Advance(pid, c)).value;
    DriveOn(w, s1, pid, c, n - 1);
    var s2 := Step(w, s1, Advance(pid, c)).value;
    DriveOn(w, s2, pid, c, n - 2);
    GoneIsGone(w, Step(w, s2, Advance(pid, c)).value, pid, c, n - 3);
    if s.fs.Has(p.Here()) { assert s.fs.names[p.Here() := s.fs.names[p.Here()]] == s.fs.names; }
  }

  // A push whose shared entry went between its finding it and linking to it shares what
  // it staged after all.
  lemma RestoreAlone(w: World, s: State, pid: nat, c: Choice, n: nat)
    requires Steady(s) && pid in s.procs && s.procs[pid].Push? && s.procs[pid].pushAt == Restore && n >= 4
    requires s.fs.Has(Staging(s.procs[pid].ticket, false))
    ensures var p, t, names := s.procs[pid], Drive(w, s, pid, c, n), s.fs.names;
      var shared := if s.fs.Has(Shared(p.oid)) then names[Shared(p.oid)] else names[Staging(p.ticket, false)];
      var own := if s.fs.Has(Object(p.repo, p.oid)) then names[Object(p.repo, p.oid)] else shared;
      && t.fs.data == s.fs.data && pid !in t.procs
      && t.fs.names == names[Shared(p.oid) := shared][Object(p.repo, p.oid) := own] - {Staging(p.ticket, false)}
  {
    hide Drive, Fs.Links, Disk;
    var p := s.procs[pid];
    DriveOn(w, s, pid, c, n);
    var s1 := Step(w, s, Advance(pid, c)).value;
    if s.fs.Has(p.There()) {
      assert s.fs.names[Shared(p.oid) := s.fs.names[p.There()]] == s.fs.names;
      assert s1.fs == s.fs;
    }
    ReattachAlone(w, s1, pid, c, n - 1);
  }

  lemma ReattachAlone(w: World, s: State, pid: nat, c: Choice, n: nat)
    requires Steady(s) && pid in s.procs && s.procs[pid].Push? && s.procs[pid].pushAt == Reattach && n >= 3
    requires s.fs.Has(Shared(s.procs[pid].oid))
    ensures var p, t, names := s.procs[pid], Drive(w, s, pid, c, n), s.fs.names;
      var own := if s.fs.Has(Object(p.repo, p.oid)) then names[Object(p.repo, p.oid)] else names[Shared(p.oid)];
      t.fs == s.fs.(names := names[Object(p.repo, p.oid) := own] - {Staging(p.ticket, false)}) && pid !in t.procs
  {
    hide Drive, Fs.Links, Disk;
    var p := s.procs[pid];
    DriveOn(w, s, pid, c, n);
    var s1 := Step(w, s, Advance(pid, c)).value;
    DriveOn(w, s1, pid, c, n - 1);
    var s2 := Step(w, s1, Advance(pid, c)).value;
    DriveOn(w, s2, pid, c, n - 2);
    GoneIsGone(w, Step(w, s2, Advance(pid, c)).value, pid, c, n - 3);
    if s.fs.Has(p.Here()) { assert s.fs.names[p.Here() := s.fs.names[p.Here()]] == s.fs.names; }
  }

  // ----- Compressing -----

  // An object that lies there as it is, is what its name says and comes out smaller is
  // replaced by what it comes to: under the repository's own name, and under the shared
  // one too if the two led to one file.  Anything else stays as it was.
  lemma CompressAlone(w: World, s: State, pid: nat, c: Choice, n: nat)
    requires Steady(s) && pid in s.procs && s.procs[pid].Compress? && s.procs[pid].compressAt == Sniff && n >= 8
    requires c.inode !in s.fs.data
    requires var k := s.procs[pid].ticket; !s.fs.Has(Staging(k, false)) && !s.fs.Has(Staging(k, true))
    ensures var p, t, names := s.procs[pid], Drive(w, s, pid, c, n), s.fs.names;
      var own, shared := Object(p.repo, p.oid), Shared(p.oid);
      if !s.fs.Has(own) || !Opening(s.fs.Read(own), w.ring, p.oid).Raw? || !w.Writes(p.config, s.fs.Read(own))
      then t.fs == s.fs
      else
        var packed := Container(w.t, p.config, s.fs.Read(own));
        && t.fs.data == s.fs.data[c.inode := packed]
        && t.fs.names ==
          if p.dry || w.digest(s.fs.Read(own)) != p.oid || |packed| >= |s.fs.Read(own)| then names
          else if shared in names && names[shared] == names[own] then names[shared := c.inode][own := c.inode]
          else names[own := c.inode]
  {
    hide Drive, Fs.Links, Disk, Opening, Container, World.Writes;
    var p := s.procs[pid];
    var own := p.Here();
    DriveOn(w, s, pid, c, n);
    var s1 := Step(w, s, Advance(pid, c)).value;
    if !s.fs.Has(own) || !Opening(s.fs.Read(own), w.ring, p.oid).Raw? {
      GoneIsGone(w, s1, pid, c, n - 1);
    } else {
      DriveOn(w, s1, pid, c, n - 1);
      var s2 := Step(w, s1, Advance(pid, c)).value;
      if !w.Writes(p.config, s.fs.Read(own)) {
        GoneIsGone(w, s2, pid, c, n - 2);
      } else {
        JudgeAlone(w, s2, pid, c, n - 2, s.fs);
      }
    }
  }

  // From where the copy has been staged.
  lemma JudgeAlone(w: World, s: State, pid: nat, c: Choice, n: nat, was: Fs)
    requires Steady(s) && was.Valid() && pid in s.procs && s.procs[pid].Compress? && s.procs[pid].compressAt.Judge? && n >= 6
    requires var p := s.procs[pid];
      && was.Has(p.Here()) && p.compressAt.source == was.Read(p.Here()) && !was.Has(p.Staged()) && !was.Has(Staging(p.ticket, true))
      && c.inode !in was.data && s.fs == Create(was, p.Staged(), c.inode, Container(w.t, p.config, was.Read(p.Here())))
    ensures var p, t, names := s.procs[pid], Drive(w, s, pid, c, n), was.names;
      var own, shared := Object(p.repo, p.oid), Shared(p.oid);
      var packed := Container(w.t, p.config, was.Read(own));
      && t.fs.data == s.fs.data
      && t.fs.names ==
        if p.dry || w.digest(was.Read(own)) != p.oid || |packed| >= |was.Read(own)| then names
        else if shared in names && names[shared] == names[own] then names[shared := c.inode][own := c.inode]
        else names[own := c.inode]
  {
    hide Drive, Step, Steady, Fs.Links, Opening, Container, World.Writes;
    var p := s.procs[pid];
    SteadyIsValid(s);
    Onwards(w, s, pid, c, n);
    if p.dry || w.digest(was.Read(p.Here())) != p.oid || |Container(w.t, p.config, was.Read(p.Here()))| >= |was.Read(p.Here())| {
      var fs1 := Unlink(s.fs, p.Staged());
      assert fs1.names == was.names;
      StaysSteady(s, pid, fs1, p.(compressAt := Compressed));
      LeaveAlone(w, Become(s, pid, fs1, p.(compressAt := Compressed)), pid, c, n - 1);
    } else {
      var s1 := Become(s, pid, s.fs, p.(compressAt := Compare));
      StaysSteady(s, pid, s.fs, p.(compressAt := Compare));
      CompareAlone(w, s1, pid, c, n - 1, was);
    }
  }

  lemma CompareAlone(w: World, s: State, pid: nat, c: Choice, n: nat, was: Fs)
    requires Steady(s) && was.Valid() && pid in s.procs && s.procs[pid].Compress? && s.procs[pid].compressAt == Compare && n >= 5
    requires var p := s.procs[pid];
      && was.Has(p.Here()) && !was.Has(p.Staged()) && !was.Has(Staging(p.ticket, true)) && c.inode !in was.data
      && s.fs.names == was.names[p.Staged() := c.inode]
    ensures var p, t, names := s.procs[pid], Drive(w, s, pid, c, n), was.names;
      var own, shared := Object(p.repo, p.oid), Shared(p.oid);
      && t.fs.data == s.fs.data
      && t.fs.names ==
        if shared in names && names[shared] == names[own] then names[shared := c.inode][own := c.inode]
        else names[own := c.inode]
  {
    hide Drive, Step, Steady, Fs.Links, Opening, Container, World.Writes;
    var p := s.procs[pid];
    SteadyIsValid(s);
    Onwards(w, s, pid, c, n);
    if was.Has(p.There()) && was.names[p.There()] == was.names[p.Here()] {
      StaysSteady(s, pid, s.fs, p.(compressAt := SwapShared));
      SwapSharedAlone(w, Become(s, pid, s.fs, p.(compressAt := SwapShared)), pid, c, n - 1, was);
    } else {
      StaysSteady(s, pid, s.fs, p.(compressAt := SwapOwn));
      SwapOwnAlone(w, Become(s, pid, s.fs, p.(compressAt := SwapOwn)), pid, c, n - 1, was);
    }
  }

  lemma SwapOwnAlone(w: World, s: State, pid: nat, c: Choice, n: nat, was: Fs)
    requires Steady(s) && pid in s.procs && s.procs[pid].Compress? && n >= 4 && s.procs[pid].compressAt == SwapOwn
    requires var p := s.procs[pid];
      && s.fs.names == was.names[p.Staged() := c.inode] && !was.Has(p.Staged()) && !was.Has(Staging(p.ticket, true))
      && (forall q | q in was.names :: was.names[q] != c.inode)
    ensures var p, t := s.procs[pid], Drive(w, s, pid, c, n);
      t.fs.data == s.fs.data && t.fs.names == was.names[Object(p.repo, p.oid) := c.inode]
  {
    hide Drive, Step, Steady, Fs.Links, Opening, Container, World.Writes;
    var p := s.procs[pid];
    SteadyIsValid(s);
    Onwards(w, s, pid, c, n);
    var fs1 := Rename(s.fs, p.Staged(), p.Here()).value;
    assert fs1.names == was.names[p.Here() := c.inode];
    StaysSteady(s, pid, fs1, p.(compressAt := Compressed));
    LeaveAlone(w, Become(s, pid, fs1, p.(compressAt := Compressed)), pid, c, n - 1);
  }

  lemma SwapSharedAlone(w: World, s: State, pid: nat, c: Choice, n: nat, was: Fs)
    requires Steady(s) && pid in s.procs && s.procs[pid].Compress? && n >= 4 && s.procs[pid].compressAt == SwapShared
    requires var p := s.procs[pid];
      && s.fs.names == was.names[p.Staged() := c.inode] && !was.Has(p.Staged()) && !was.Has(Staging(p.ticket, true))
      && (forall q | q in was.names :: was.names[q] != c.inode)
    ensures var p, t := s.procs[pid], Drive(w, s, pid, c, n);
      t.fs.data == s.fs.data && t.fs.names == was.names[Shared(p.oid) := c.inode][Object(p.repo, p.oid) := c.inode]
  {
    hide Drive, Step, Steady, Fs.Links, Opening, Container, World.Writes;
    var p := s.procs[pid];
    SteadyIsValid(s);
    Onwards(w, s, pid, c, n);
    var fs1 := Rename(s.fs, p.Staged(), p.There()).value;
    assert fs1.names == was.names[p.There() := c.inode];
    StaysSteady(s, pid, fs1, p.(compressAt := Relink));
    RelinkAlone(w, Become(s, pid, fs1, p.(compressAt := Relink)), pid, c, n - 1, was);
  }

  lemma RelinkAlone(w: World, s: State, pid: nat, c: Choice, n: nat, was: Fs)
    requires Steady(s) && pid in s.procs && s.procs[pid].Compress? && n >= 3 && s.procs[pid].compressAt == Relink
    requires var p := s.procs[pid];
      && s.fs.names == was.names[p.There() := c.inode] && !was.Has(Staging(p.ticket, true))
      && (forall q | q in was.names :: was.names[q] != c.inode)
    ensures var p, t := s.procs[pid], Drive(w, s, pid, c, n);
      t.fs.data == s.fs.data && t.fs.names == was.names[Shared(p.oid) := c.inode][Object(p.repo, p.oid) := c.inode]
  {
    hide Drive, Step, Steady, Fs.Links, Opening, Container, World.Writes;
    var p := s.procs[pid];
    SteadyIsValid(s);
    Onwards(w, s, pid, c, n);
    var fs1 := Link(s.fs, p.There(), Staging(p.ticket, true)).fs;
    var s1 := Become(s, pid, fs1, p.(compressAt := Settle));
    StaysSteady(s, pid, fs1, p.(compressAt := Settle));
    Onwards(w, s1, pid, c, n - 1);
    var fs2 := Rename(fs1, Staging(p.ticket, true), p.Here()).value;
    RelinkedNames(was, s.fs, fs1, fs2, p, c.inode);
    StaysSteady(s1, pid, fs2, p.(compressAt := Compressed));
    LeaveAlone(w, Become(s1, pid, fs2, p.(compressAt := Compressed)), pid, c, n - 2);
  }

  lemma RelinkedNames(was: Fs, a: Fs, b: Fs, d: Fs, p: Proc, inode: nat)
    requires p.Compress? && !was.Has(Staging(p.ticket, true)) && (forall q | q in was.names :: was.names[q] != inode)
    requires a.names == was.names[p.There() := inode]
    requires Link(a, p.There(), Staging(p.ticket, true)) == Linked(b) && Rename(b, Staging(p.ticket, true), p.Here()) == Some(d)
    ensures d.names == was.names[p.There() := inode][p.Here() := inode]
  {
  }
}
