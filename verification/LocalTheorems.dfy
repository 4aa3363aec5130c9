/**
 The local store over whole runs: what a repository reads back, and what a push
 that reports success has left.
 */
module LocalTheorems {
  import opened Wrappers
  import opened Bytes
  import opened Names
  import opened Framing
  import opened Reading
  import opened Serving
  import opened Files
  import opened LocalProtocol
  import opened LocalSafety

  // The store as its repositories see it: what an object is read as, if it is held.
  ghost function Held(w: World, fs: Fs, r: Repo, o: Oid): Option<Bytes>
    requires fs.Valid()
  {
    if fs.Has(Object(r, o)) then ReadBack(w.t, fs.Read(Object(r, o)), w.ring, o) else None
  }

  ghost predicate Genesis(w: World, s: State) {
    w.Sound() && s.fs.Valid() && Intact(w, s.fs) && s.procs == map[]
  }

  ghost predicate Run(w: World, states: seq<State>, actions: seq<Action>) {
    && |states| == |actions| + 1
    && Genesis(w, states[0])
    && forall i | 0 <= i < |actions| :: Follows(w, states[i], actions[i], states[i + 1])
  }

  ghost predicate Follows(w: World, s: State, a: Action, s': State) {
    s.fs.Valid() && (forall q | q in s.procs && s.procs[q].Compress? :: s.procs[q].config.Sound()) && Step(w, s, a) == Some(s')
  }

  // The guard in Follows holds nothing back that the store could do.
  lemma ConfigsAreSound(w: World, s: State)
    requires Inv(w, s)
    ensures forall q | q in s.procs && s.procs[q].Compress? :: s.procs[q].config.Sound()
  {
  }

  lemma FreshIsOk(w: World, s: State, pid: nat, p: Proc, fs: Fs, inode: nat)
    requires Inv(w, s) && Fresh(w, p) && MayStart(s, p) && inode !in s.fs.data
    requires fs == if p.Push? then Create(s.fs, p.Staged(), inode, Disk(w.t, p.config, p.payload)) else s.fs
    ensures Gentle(s, fs, pid, Tickets(p)) && Intact(w, fs) && ProcOk(w, fs, p)
  {
    hide Right, Disk, Apart;
    if p.Push? {
      StagedIsRight(w, p.config, p.payload);
    }
  }

  lemma StartPreserves(w: World, s: State, pid: nat, p: Proc, fs: Fs, inode: nat)
    requires Inv(w, s) && pid !in s.procs && Fresh(w, p) && MayStart(s, p) && inode !in s.fs.data
    requires fs == if p.Push? then Create(s.fs, p.Staged(), inode, Disk(w.t, p.config, p.payload)) else s.fs
    ensures Inv(w, Become(s, pid, fs, p))
  {
    hide Right, Disk, Gentle, Intact, ProcOk, World.Writes;
    FreshIsOk(w, s, pid, p, fs, inode);
    Assemble(w, s, Become(s, pid, fs, p), pid, Tickets(p));
  }

  lemma StagedIsRight(w: World, config: Config, payload: Bytes)
    requires w.Sound() && w.Writes(config, payload) && w.digest(payload) == config.oid
    ensures Right(w, Disk(w.t, config, payload), config.oid)
  {
    hide Disk, ReadBack;
    DiskReadsBack(w.t, config, payload, w.ring);
  }

  lemma StepPreserves(w: World, s: State, a: Action, s': State)
    requires Inv(w, s) && Follows(w, s, a, s')
    ensures Inv(w, s')
  {
    hide Right, ProcOk, Intact, PushStep, CollectStep, AdoptStep, PromoteStep, CompressStep, Disk, World.Writes;
    match a
    case Start(pid, p, inode) => StartPreserves(w, s, pid, p, s'.fs, inode);
    case Abort(pid) =>
      NothingKeeps(w, s, pid);
      Assemble(w, s, s', pid, {});
    case Advance(pid, c) =>
      match s.procs[pid]
      case Push(_, _, _, _, _, _) => PushPreserves(w, s, pid);
      case Collect(_, _, _) => CollectPreserves(w, s, pid, c);
      case Adopt(_, _, _, _) => AdoptPreserves(w, s, pid);
      case Promote(_, _, _) => PromotePreserves(w, s, pid);
      case Compress(_, _, _, _, _, _) => CompressPreserves(w, s, pid, c);
  }

  lemma {:induction false} RunInv(w: World, states: seq<State>, actions: seq<Action>, i: nat)
    requires Run(w, states, actions) && i < |states|
    ensures Inv(w, states[i])
  {
    hide Right, ProcOk, Intact, Step, World.Sound;
    if i > 0 {
      RunInv(w, states, actions, i - 1);
      assert Follows(w, states[i - 1], actions[i - 1], states[i - 1 + 1]);
      StepPreserves(w, states[i - 1], actions[i - 1], states[i]);
    }
  }

  // In every state of every run, every path that is there is read as bytes that
  // hash to the object it names: between any two filesystem calls of anything.
  lemma EveryPathIsRight(w: World, states: seq<State>, actions: seq<Action>, i: nat)
    requires Run(w, states, actions) && i < |states|
    ensures states[i].fs.Valid()
    ensures forall r, o :: states[i].fs.Has(Object(r, o)) ==>
      Held(w, states[i].fs, r, o).Some? && w.digest(Held(w, states[i].fs, r, o).value) == o
    ensures forall o :: states[i].fs.Has(Shared(o)) ==> Leads(w, states[i].fs, Shared(o), o)
  {
    hide ReadBack, Run;
    RunInv(w, states, actions, i);
    forall r, o | states[i].fs.Has(Object(r, o))
      ensures Held(w, states[i].fs, r, o).Some? && w.digest(Held(w, states[i].fs, r, o).value) == o
    {
      assert Leads(w, states[i].fs, Object(r, o), o);
    }
  }

  // Whatever any call does, an object a repository holds before and after is read
  // as the same bytes: no migration, push or sweep changes what is read.
  lemma ReadsStayTheSame(w: World, states: seq<State>, actions: seq<Action>, i: nat, j: nat, r: Repo, o: Oid)
    requires Run(w, states, actions) && i <= j < |states|
    requires states[i].fs.Valid() && states[j].fs.Valid()
    requires states[i].fs.Has(Object(r, o)) && states[j].fs.Has(Object(r, o))
    ensures Held(w, states[i].fs, r, o) == Held(w, states[j].fs, r, o) != None
  {
    hide ReadBack, Run;
    EveryPathIsRight(w, states, actions, i);
    EveryPathIsRight(w, states, actions, j);
    RunInv(w, states, actions, i);
  }

  // ----- Whose step moves which name -----

  predicate IsShown(x: Path) {
    !x.Staging?
  }

  // Pushing, adopting and compressing take no name but staging.
  lemma PushTakesNothing(s: State, pid: nat, p: Proc, x: Path)
    requires p.Push? && IsShown(x) && s.fs.Has(x)
    ensures PushStep(s, pid, p).fs.Has(x)
  {
  }

  lemma AdoptTakesNothing(w: World, s: State, pid: nat, p: Proc, x: Path)
    requires p.Adopt? && s.fs.Valid() && IsShown(x) && s.fs.Has(x)
    ensures AdoptStep(w, s, pid, p).fs.Has(x)
  {
  }

  lemma CompressTakesNothing(w: World, s: State, pid: nat, p: Proc, c: Choice, x: Path)
    requires p.Compress? && s.fs.Valid() && p.config.Sound() && IsShown(x) && s.fs.Has(x)
    ensures CompressStep(w, s, pid, p, c).fs.Has(x)
  {
    hide Opening, World.Writes, Container;
  }

  // What each of the others takes, and what it has left behind.
  lemma NameGoes(w: World, s: State, a: Action, s': State, x: Path)
    requires Follows(w, s, a, s') && IsShown(x) && s.fs.Has(x) && !s'.fs.Has(x)
    ensures a.Advance? && a.pid in s.procs
    ensures var p := s.procs[a.pid];
      || (p.Collect? && p.collectAt == Detach && x == p.Here())
      || (p.Collect? && p.collectAt == CollectAt.Sweep && x == p.There())
      || (p.Promote? && p.promoteAt == PromoteAt.Away && x == p.Here()
          && s'.fs.Has(p.There()) && s'.procs == s.procs[a.pid := p.(promoteAt := Back)])
      || (p.Promote? && p.promoteAt == Undo && x == p.There())
  {
    hide PushStep, AdoptStep, CompressStep, Disk, Fs.Links;
    if a.Advance? {
      var p := s.procs[a.pid];
      match p {
        case Push(_, _, _, _, _, _) => PushTakesNothing(s, a.pid, p, x);
        case Adopt(_, _, _, _) => AdoptTakesNothing(w, s, a.pid, p, x);
        case Compress(_, _, _, _, _, _) => CompressTakesNothing(w, s, a.pid, p, a.choice, x);
        case _ =>
      }
    }
  }

  // A repository's name for an object goes only by that repository's own sweep of
  // it, or for the moment its own promotion has it renamed away.
  lemma OnlyTheOwnerTakes(w: World, states: seq<State>, actions: seq<Action>, i: nat, r: Repo, o: Oid)
    requires Run(w, states, actions) && i < |actions|
    requires states[i].fs.Has(Object(r, o)) && !states[i + 1].fs.Has(Object(r, o))
    ensures actions[i].Advance?
    ensures var p := states[i].procs[actions[i].pid];
      p.repo == r && p.oid == o && ((p.Collect? && p.collectAt == Detach) || (p.Promote? && p.promoteAt == Away))
  {
    hide Step, Genesis;
    assert Follows(w, states[i], actions[i], states[i + 1]);
    NameGoes(w, states[i], actions[i], states[i + 1], Object(r, o));
  }

  lemma PushGivesOwn(s: State, pid: nat, p: Proc, r: Repo, o: Oid)
    requires p.Push? && !s.fs.Has(Object(r, o)) && PushStep(s, pid, p).fs.Has(Object(r, o))
    ensures p.repo == r && p.oid == o
  {
  }

  lemma AdoptGivesOwn(w: World, s: State, pid: nat, p: Proc, r: Repo, o: Oid)
    requires p.Adopt? && s.fs.Valid() && !s.fs.Has(Object(r, o)) && AdoptStep(w, s, pid, p).fs.Has(Object(r, o))
    ensures p.repo == r && p.oid == o
  {
  }

  lemma PromoteGivesOwn(w: World, s: State, pid: nat, p: Proc, r: Repo, o: Oid)
    requires p.Promote? && s.fs.Valid() && !s.fs.Has(Object(r, o)) && PromoteStep(w, s, pid, p).fs.Has(Object(r, o))
    ensures p.repo == r && p.oid == o
  {
  }

  lemma CompressGivesOwn(w: World, s: State, pid: nat, p: Proc, c: Choice, r: Repo, o: Oid)
    requires p.Compress? && s.fs.Valid() && p.config.Sound()
    requires !s.fs.Has(Object(r, o)) && CompressStep(w, s, pid, p, c).fs.Has(Object(r, o))
    ensures p.repo == r && p.oid == o
  {
    hide Opening, World.Writes, Container;
  }

  lemma NameComes(w: World, s: State, a: Action, s': State, r: Repo, o: Oid)
    requires Follows(w, s, a, s') && !s.fs.Has(Object(r, o)) && s'.fs.Has(Object(r, o))
    ensures a.Advance? && a.pid in s.procs && s.procs[a.pid].repo == r && s.procs[a.pid].oid == o
  {
    hide PushStep, AdoptStep, PromoteStep, CompressStep, Disk, Fs.Links;
    if a.Advance? {
      var p := s.procs[a.pid];
      match p {
        case Push(_, _, _, _, _, _) => PushGivesOwn(s, a.pid, p, r, o);
        case Collect(_, _, _) =>
        case Adopt(_, _, _, _) => AdoptGivesOwn(w, s, a.pid, p, r, o);
        case Promote(_, _, _) => PromoteGivesOwn(w, s, a.pid, p, r, o);
        case Compress(_, _, _, _, _, _) => CompressGivesOwn(w, s, a.pid, p, a.choice, r, o);
      }
    }
  }

  // What a repository reads of an object appears and disappears only at its own
  // hands: no step of anybody else's changes it, and it never changes from one
  // thing to another.
  lemma ReadsChangeOnlyByTheirOwner(w: World, states: seq<State>, actions: seq<Action>, i: nat, r: Repo, o: Oid)
    requires Run(w, states, actions) && i < |actions|
    requires states[i].fs.Valid() && states[i + 1].fs.Valid()
    requires Held(w, states[i].fs, r, o) != Held(w, states[i + 1].fs, r, o)
    ensures actions[i].Advance?
    ensures var p := states[i].procs[actions[i].pid]; p.repo == r && p.oid == o
    ensures Held(w, states[i].fs, r, o).None? <==> Held(w, states[i + 1].fs, r, o).Some?
  {
    hide ReadBack, Disk, Right, Follows, Genesis;
    EveryPathIsRight(w, states, actions, i);
    EveryPathIsRight(w, states, actions, i + 1);
    var s, a, s' := states[i], actions[i], states[i + 1];
    assert Follows(w, s, a, s');
    if s.fs.Has(Object(r, o)) && s'.fs.Has(Object(r, o)) {
      ReadsStayTheSame(w, states, actions, i, i + 1, r, o);
    } else if s.fs.Has(Object(r, o)) {
      NameGoes(w, s, a, s', Object(r, o));
    } else {
      NameComes(w, s, a, s', r, o);
    }
  }

  // A push that reports success has left its object under its final path, read back
  // as exactly the bytes pushed, even if the shared copy went in between.
  lemma PushLands(w: World, states: seq<State>, actions: seq<Action>, i: nat, pid: nat)
    requires Run(w, states, actions) && i < |actions| && actions[i].Advance? && actions[i].pid == pid
    requires pid in states[i].procs && states[i].procs[pid].Push? && states[i].procs[pid].pushAt != Pushed
    requires pid in states[i + 1].procs && states[i + 1].procs[pid].pushAt == Pushed
    ensures var p := states[i].procs[pid];
      states[i + 1].fs.Valid() && Held(w, states[i + 1].fs, p.repo, p.oid) == Some(p.payload)
  {
    hide ReadBack, Right, World.Writes, Intact;
    var p := states[i].procs[pid];
    RunInv(w, states, actions, i);
    RunInv(w, states, actions, i + 1);
    assert Follows(w, states[i], actions[i], states[i + 1]);
    assert ProcOk(w, states[i].fs, p);
    assert states[i + 1].fs.Has(p.Here());
    EveryPathIsRight(w, states, actions, i + 1);
    assert w.digest(Held(w, states[i + 1].fs, p.repo, p.oid).value) == w.digest(p.payload);
  }
}
