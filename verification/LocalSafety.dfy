/**
 What the local store keeps at every filesystem call of every interleaving.
 */
module LocalSafety {
  import opened Wrappers
  import opened Bytes
  import opened Names
  import opened Framing
  import opened Reading
  import opened Serving
  import opened Files
  import opened LocalProtocol

  // Stored bytes that are read as the object they are named after.
  ghost predicate Right(w: World, bytes: Bytes, oid: Oid) {
    var plain := ReadBack(w.t, bytes, w.ring, oid);
    plain.Some? && w.digest(plain.value) == oid
  }

  // The bytes a name leads to are right for the object.
  ghost predicate Leads(w: World, fs: Fs, p: Path, oid: Oid)
    requires fs.Valid()
  {
    fs.Has(p) && Right(w, fs.Read(p), oid)
  }

  ghost predicate Intact(w: World, fs: Fs)
    requires fs.Valid()
  {
    && (forall r, o :: fs.Has(Object(r, o)) ==> Leads(w, fs, Object(r, o), o))
    && (forall o :: fs.Has(Shared(o)) ==> Leads(w, fs, Shared(o), o))
  }

  ghost predicate ProcOk(w: World, fs: Fs, p: Proc)
    requires fs.Valid()
  {
    match p
    case Push(_, oid, config, payload, _, at) =>
      && config.oid == oid && w.digest(payload) == oid && w.Writes(config, payload)
      && (at != Pushed ==> Leads(w, fs, p.Staged(), oid))
      && (at == Discard ==> fs.Has(p.Here()))
    case Collect(_, _, _) => true
    case Adopt(_, oid, _, at) =>
      if at == Replace then Leads(w, fs, p.Staged(), oid) else at == Adopted || !fs.Has(p.Staged())
    case Promote(_, _, _) => true
    case Compress(_, oid, config, ticket, _, at) =>
      && config.oid == oid && config.Sound()
      && (at.Settle? || at.Compressed? || !fs.Has(Staging(ticket, true)))
      && match at
         case Judge(source) =>
           w.Writes(config, source) && fs.Has(p.Staged()) && fs.Read(p.Staged()) == Container(w.t, config, source)
         case Compare => Leads(w, fs, p.Staged(), oid)
         case SwapOwn => Leads(w, fs, p.Staged(), oid)
         case SwapShared => Leads(w, fs, p.Staged(), oid)
         case Settle => Leads(w, fs, Staging(ticket, true), oid)
         case _ => true
  }

  ghost predicate Apart(s: State) {
    && (forall p, q, r: Repo, o: Oid | p in s.procs && q in s.procs ::
         Pushing(s.procs[p], r, o) ==> !Taking(s.procs[q], r, o))
    && (forall p, q, n: nat | p in s.procs && q in s.procs && p != q ::
         s.procs[p].HasTicket(n) ==> !s.procs[q].HasTicket(n))
  }

  ghost predicate Inv(w: World, s: State) {
    && w.Sound()
    && s.fs.Valid()
    && Intact(w, s.fs)
    && Apart(s)
    && (forall q | q in s.procs :: ProcOk(w, s.fs, s.procs[q]))
  }

  // ----- One call, seen by everybody else -----

  function Tickets(p: Proc): set<nat> {
    if p.Push? || p.Adopt? || p.Compress? then {p.ticket} else {}
  }

  // No bytes change, only staging under these tickets is touched, and a name
  // somebody else is pushing stays.
  ghost predicate Gentle(s: State, fs: Fs, pid: nat, mine: set<nat>) {
    && fs.Valid()
    && (forall i | i in s.fs.data :: i in fs.data && fs.data[i] == s.fs.data[i])
    && (forall n: nat, b | n !in mine :: Untouched(s.fs, fs, Staging(n, b)))
    && (forall q, r, o | q in s.procs && q != pid && Pushing(s.procs[q], r, o) && s.fs.Has(Object(r, o)) ::
         fs.Has(Object(r, o)))
  }

  ghost predicate Untouched(fs: Fs, fs': Fs, p: Path) {
    fs'.Has(p) == fs.Has(p) && (fs.Has(p) ==> fs'.names[p] == fs.names[p])
  }

  lemma OthersStayOk(w: World, s: State, fs: Fs, pid: nat, mine: set<nat>, q: nat)
    requires Inv(w, s) && Gentle(s, fs, pid, mine)
    requires q in s.procs && q != pid && Tickets(s.procs[q]) !! mine
    ensures ProcOk(w, fs, s.procs[q])
  {
    hide Right, Container, World.Writes;
    var p := s.procs[q];
    assert ProcOk(w, s.fs, p);
    if p.Push? || p.Adopt? || p.Compress? {
      assert p.ticket in Tickets(p);
      assert Untouched(s.fs, fs, Staging(p.ticket, false)) && Untouched(s.fs, fs, Staging(p.ticket, true));
    }
    if p.Push? && p.pushAt == Discard {
      assert Pushing(p, p.repo, p.oid);
    }
  }

  ghost predicate Apart1(s: State, pid: nat) {
    pid in s.procs ==> forall q | q in s.procs && q != pid ::
      && (forall r: Repo, o: Oid :: Pushing(s.procs[pid], r, o) ==> !Taking(s.procs[q], r, o))
      && (forall r: Repo, o: Oid :: Taking(s.procs[pid], r, o) ==> !Pushing(s.procs[q], r, o))
      && (forall n: nat :: s.procs[pid].HasTicket(n) ==> !s.procs[q].HasTicket(n))
  }

  lemma Assemble(w: World, s: State, s': State, pid: nat, mine: set<nat>)
    requires Inv(w, s) && Gentle(s, s'.fs, pid, mine) && Intact(w, s'.fs)
    requires forall q | q in s'.procs && q != pid :: q in s.procs && s'.procs[q] == s.procs[q] && Tickets(s.procs[q]) !! mine
    requires Apart1(s', pid)
    requires pid in s'.procs ==> ProcOk(w, s'.fs, s'.procs[pid])
    ensures Inv(w, s')
  {
    hide ProcOk, Right, Intact;
    forall q | q in s'.procs ensures ProcOk(w, s'.fs, s'.procs[q]) {
      if q != pid { OthersStayOk(w, s, s'.fs, pid, mine, q); }
    }
    forall p, q, r: Repo, o: Oid | p in s'.procs && q in s'.procs && Pushing(s'.procs[p], r, o)
      ensures !Taking(s'.procs[q], r, o)
    {
      if p != pid && q != pid {
        assert Pushing(s.procs[p], r, o);
      }
    }
    forall p, q, n: nat | p in s'.procs && q in s'.procs && p != q && s'.procs[p].HasTicket(n)
      ensures !s'.procs[q].HasTicket(n)
    {
      if p != pid && q != pid {
        assert s.procs[p].HasTicket(n);
      }
    }
  }

  // A process that goes on, or stops, with nothing new to keep apart from.
  lemma Proceed(w: World, s: State, s': State, pid: nat)
    requires Inv(w, s) && pid in s.procs
    requires Gentle(s, s'.fs, pid, Tickets(s.procs[pid])) && Intact(w, s'.fs)
    requires forall q | q in s'.procs && q != pid :: q in s.procs && s'.procs[q] == s.procs[q]
    requires pid in s'.procs ==>
      && ProcOk(w, s'.fs, s'.procs[pid])
      && Tickets(s'.procs[pid]) == Tickets(s.procs[pid])
      && (forall r: Repo, o: Oid :: Pushing(s'.procs[pid], r, o) ==> Pushing(s.procs[pid], r, o))
      && (forall r: Repo, o: Oid :: Taking(s'.procs[pid], r, o) ==> Taking(s.procs[pid], r, o))
    ensures Inv(w, s')
  {
    hide ProcOk, Right, Intact, Gentle;
    forall q | q in s'.procs && q != pid ensures Tickets(s.procs[q]) !! Tickets(s.procs[pid]) {
      forall n | n in Tickets(s.procs[q]) ensures n !in Tickets(s.procs[pid]) {
        assert s.procs[q].HasTicket(n);
      }
    }
    forall q | q in s'.procs && q != pid && pid in s'.procs
      ensures forall n: nat :: s'.procs[pid].HasTicket(n) ==> !s'.procs[q].HasTicket(n)
    {
      forall n: nat | s'.procs[pid].HasTicket(n) ensures !s'.procs[q].HasTicket(n) {
        assert n in Tickets(s'.procs[pid]);
        assert s.procs[pid].HasTicket(n);
      }
    }
    Assemble(w, s, s', pid, Tickets(s.procs[pid]));
  }

  // ----- What each call leaves -----

  // A name given to right bytes under an object's name, or anything under one's
  // own staging, keeps every path right.
  lemma LinkKeeps(w: World, s: State, pid: nat, from: Path, to: Path, oid: Oid)
    requires Inv(w, s) && pid in s.procs
    requires Leads(w, s.fs, from, oid) && !s.fs.Has(to)
    requires match to case Object(_, o) => o == oid case Shared(o) => o == oid case Staging(n, _) => n in Tickets(s.procs[pid])
    ensures var fs := Link(s.fs, from, to).fs;
      Gentle(s, fs, pid, Tickets(s.procs[pid])) && Intact(w, fs) && Leads(w, fs, to, oid)
  {
    hide Right;
  }

  lemma RenameKeeps(w: World, s: State, pid: nat, from: Path, to: Path, oid: Oid)
    requires Inv(w, s) && pid in s.procs
    requires Leads(w, s.fs, from, oid)
    requires match to case Object(_, o) => o == oid case Shared(o) => o == oid case Staging(_, _) => false
    requires match from case Object(r, o) => o == oid && Taking(s.procs[pid], r, o) case Shared(_) => true
      case Staging(n, _) => n in Tickets(s.procs[pid])
    ensures var fs := Rename(s.fs, from, to).value;
      Gentle(s, fs, pid, Tickets(s.procs[pid])) && Intact(w, fs) && fs.Has(to)
  {
    hide Right;
  }

  lemma UnlinkKeeps(w: World, s: State, pid: nat, p: Path)
    requires Inv(w, s) && pid in s.procs
    requires match p case Object(r, o) => Taking(s.procs[pid], r, o) case Shared(_) => true
      case Staging(n, _) => n in Tickets(s.procs[pid])
    ensures var fs := Unlink(s.fs, p); Gentle(s, fs, pid, Tickets(s.procs[pid])) && Intact(w, fs)
  {
    hide Right;
  }

  lemma NothingKeeps(w: World, s: State, pid: nat)
    requires Inv(w, s)
    ensures Gentle(s, s.fs, pid, {}) && Intact(w, s.fs)
    ensures pid in s.procs ==> Gentle(s, s.fs, pid, Tickets(s.procs[pid]))
  {
  }

  // ----- Pushes and collections -----

  lemma PushGoesTo(w: World, s: State, pid: nat, fs: Fs, at: PushAt)
    requires Inv(w, s) && pid in s.procs && s.procs[pid].Push? && (s.procs[pid].pushAt == Pushed ==> at == Pushed)
    requires Gentle(s, fs, pid, Tickets(s.procs[pid])) && Intact(w, fs)
    requires ProcOk(w, fs, s.procs[pid].(pushAt := at))
    ensures Inv(w, Become(s, pid, fs, s.procs[pid].(pushAt := at)))
  {
    hide ProcOk, Right, Gentle, Intact, Inv;
    Proceed(w, s, Become(s, pid, fs, s.procs[pid].(pushAt := at)), pid);
  }

  lemma QuitPreserves(w: World, s: State, pid: nat, fs: Fs)
    requires Inv(w, s) && pid in s.procs
    requires Gentle(s, fs, pid, Tickets(s.procs[pid])) && Intact(w, fs)
    ensures Inv(w, Quit(s, pid, fs))
  {
    hide ProcOk, Right, Gentle, Intact, Inv;
    Proceed(w, s, Quit(s, pid, fs), pid);
  }

  lemma PushPreserves(w: World, s: State, pid: nat)
    requires Inv(w, s) && pid in s.procs && s.procs[pid].Push?
    ensures Inv(w, PushStep(s, pid, s.procs[pid]))
  {
    hide Right, World.Writes, Gentle, Intact;
    var p := s.procs[pid];
    assert ProcOk(w, s.fs, p);
    NothingKeeps(w, s, pid);
    match p.pushAt {
      case Look => PushGoesTo(w, s, pid, s.fs, if s.fs.Has(p.There()) then Attach else Publish);
      case Publish =>
        if s.fs.Has(p.There()) {
          PushGoesTo(w, s, pid, s.fs, Attach);
        } else {
          LinkKeeps(w, s, pid, p.Staged(), p.There(), p.oid);
          PushGoesTo(w, s, pid, Link(s.fs, p.Staged(), p.There()).fs, Attach);
        }
      case Attach => AttachPreserves(w, s, pid);
      case Restore =>
        if s.fs.Has(p.There()) {
          PushGoesTo(w, s, pid, s.fs, Reattach);
        } else {
          LinkKeeps(w, s, pid, p.Staged(), p.There(), p.oid);
          PushGoesTo(w, s, pid, Link(s.fs, p.Staged(), p.There()).fs, Reattach);
        }
      case Reattach => AttachPreserves(w, s, pid);
      case Discard =>
        UnlinkKeeps(w, s, pid, p.Staged());
        PushGoesTo(w, s, pid, Unlink(s.fs, p.Staged()), Pushed);
      case Pushed => QuitPreserves(w, s, pid, s.fs);
    }
  }

  // Linking the shared copy into the repository: there, there already, or gone.
  lemma AttachPreserves(w: World, s: State, pid: nat)
    requires Inv(w, s) && pid in s.procs && s.procs[pid].Push?
    requires s.procs[pid].pushAt == Attach || s.procs[pid].pushAt == Reattach
    ensures Inv(w, PushStep(s, pid, s.procs[pid]))
  {
    hide Right, World.Writes, Gentle, Intact;
    var p := s.procs[pid];
    assert ProcOk(w, s.fs, p);
    NothingKeeps(w, s, pid);
    if !s.fs.Has(p.There()) {
      if p.pushAt == Attach { PushGoesTo(w, s, pid, s.fs, Restore); } else { QuitPreserves(w, s, pid, s.fs); }
    } else if s.fs.Has(p.Here()) {
      PushGoesTo(w, s, pid, s.fs, Discard);
    } else {
      AttachKeeps(w, s, pid);
      PushGoesTo(w, s, pid, Link(s.fs, p.There(), p.Here()).fs, Discard);
    }
  }

  lemma AttachKeeps(w: World, s: State, pid: nat)
    requires Inv(w, s) && pid in s.procs && s.procs[pid].Push? && s.procs[pid].pushAt != Pushed
    ensures var p := s.procs[pid];
      s.fs.Has(p.There()) && !s.fs.Has(p.Here()) ==>
        var fs := Link(s.fs, p.There(), p.Here()).fs;
        Gentle(s, fs, pid, Tickets(p)) && Intact(w, fs) && Leads(w, fs, p.Staged(), p.oid) && fs.Has(p.Here())
  {
    hide Right;
    var p := s.procs[pid];
    assert ProcOk(w, s.fs, p);
    if s.fs.Has(p.There()) && !s.fs.Has(p.Here()) {
      assert Leads(w, s.fs, Shared(p.oid), p.oid);
      LinkKeeps(w, s, pid, p.There(), p.Here(), p.oid);
    }
  }

  lemma CollectPreserves(w: World, s: State, pid: nat, c: Choice)
    requires Inv(w, s) && pid in s.procs && s.procs[pid].Collect?
    ensures Inv(w, CollectStep(s, pid, s.procs[pid], c))
  {
    hide Right, Gentle, Intact;
    var p := s.procs[pid];
    NothingKeeps(w, s, pid);
    match p.collectAt {
      case Detach => UnlinkKeeps(w, s, pid, p.Here());
      case Count =>
      case Sweep => UnlinkKeeps(w, s, pid, p.There());
      case Collected =>
    }
    Proceed(w, s, CollectStep(s, pid, p, c), pid);
  }

  // ----- Migrations -----

  lemma AdoptPreserves(w: World, s: State, pid: nat)
    requires Inv(w, s) && pid in s.procs && s.procs[pid].Adopt?
    ensures Inv(w, AdoptStep(w, s, pid, s.procs[pid]))
  {
    hide Right, Gentle, Intact;
    var p := s.procs[pid];
    var s' := AdoptStep(w, s, pid, p);
    assert ProcOk(w, s.fs, p);
    NothingKeeps(w, s, pid);
    match p.adoptAt {
      case Check =>
      case Borrow => BorrowKeeps(w, s, pid, p.There(), p.Staged());
      case Replace => RenameKeeps(w, s, pid, p.Staged(), p.Here(), p.oid);
      case Adopted =>
    }
    Proceed(w, s, s', pid);
  }

  // Whatever the shared entry is by now, it is right.
  lemma BorrowKeeps(w: World, s: State, pid: nat, from: Path, to: Path)
    requires Inv(w, s) && pid in s.procs
    requires from.Shared? && to.Staging? && to.ticket in Tickets(s.procs[pid]) && !s.fs.Has(to)
    ensures s.fs.Has(from) ==>
      var fs := Link(s.fs, from, to).fs;
      Gentle(s, fs, pid, Tickets(s.procs[pid])) && Intact(w, fs) && Leads(w, fs, to, from.oid)
  {
    hide Right;
    if s.fs.Has(from) {
      assert Leads(w, s.fs, Shared(from.oid), from.oid);
      LinkKeeps(w, s, pid, from, to, from.oid);
    }
  }

  lemma PromotePreserves(w: World, s: State, pid: nat)
    requires Inv(w, s) && pid in s.procs && s.procs[pid].Promote?
    ensures Inv(w, PromoteStep(w, s, pid, s.procs[pid]))
  {
    hide Right, Gentle, Intact;
    var p := s.procs[pid];
    var s' := PromoteStep(w, s, pid, p);
    NothingKeeps(w, s, pid);
    match p.promoteAt {
      case Vet =>
      case Away => MoveKeeps(w, s, pid, p.Here(), p.There());
      case Back =>
        if s.fs.Has(p.There()) && !s.fs.Has(p.Here()) {
          MoveKeeps(w, s, pid, p.There(), p.Here());
          LinkKeeps(w, s, pid, p.There(), p.Here(), p.oid);
        }
      case Undo => MoveKeeps(w, s, pid, p.There(), p.Here());
      case Promoted =>
    }
    Proceed(w, s, s', pid);
  }

  lemma MoveKeeps(w: World, s: State, pid: nat, from: Path, to: Path)
    requires Inv(w, s) && pid in s.procs
    requires (from.Shared? && to.Object?) || (from.Object? && to.Shared? && Taking(s.procs[pid], from.repo, from.oid))
    requires from.oid == to.oid
    ensures s.fs.Has(from) ==>
      var fs := Rename(s.fs, from, to).value;
      Leads(w, s.fs, from, from.oid) && Gentle(s, fs, pid, Tickets(s.procs[pid])) && Intact(w, fs)
  {
    hide Right;
    if s.fs.Has(from) {
      assert Leads(w, s.fs, from, from.oid) by {
        if from.Shared? { assert from == Shared(from.oid); } else { assert from == Object(from.repo, from.oid); }
      }
      RenameKeeps(w, s, pid, from, to, from.oid);
    }
  }

  lemma CompressGoesTo(w: World, s: State, pid: nat, fs: Fs, at: CompressAt)
    requires Inv(w, s) && pid in s.procs && s.procs[pid].Compress?
    requires Gentle(s, fs, pid, Tickets(s.procs[pid])) && Intact(w, fs)
    requires ProcOk(w, fs, s.procs[pid].(compressAt := at))
    ensures Inv(w, Become(s, pid, fs, s.procs[pid].(compressAt := at)))
  {
    hide ProcOk, Right, Gentle, Intact, Inv;
    Proceed(w, s, Become(s, pid, fs, s.procs[pid].(compressAt := at)), pid);
  }

  lemma CompressPreserves(w: World, s: State, pid: nat, c: Choice)
    requires Inv(w, s) && pid in s.procs && s.procs[pid].Compress?
    ensures Inv(w, CompressStep(w, s, pid, s.procs[pid], c))
  {
    hide Right, Gentle, Intact, World.Writes, Container, Opening;
    var p := s.procs[pid];
    assert ProcOk(w, s.fs, p);
    NothingKeeps(w, s, pid);
    QuitPreserves(w, s, pid, s.fs);
    match p.compressAt {
      case Sniff => CompressGoesTo(w, s, pid, s.fs, Rewrite);
      case Rewrite => RewritePreserves(w, s, pid, c);
      case Judge(source) => JudgePreserves(w, s, pid, c);
      case Compare => ComparePreserves(w, s, pid, c);
      case SwapOwn =>
        RenameKeeps(w, s, pid, p.Staged(), p.Here(), p.oid);
        CompressGoesTo(w, s, pid, Rename(s.fs, p.Staged(), p.Here()).value, Compressed);
      case SwapShared =>
        SwapKeeps(w, s, pid);
        CompressGoesTo(w, s, pid, Rename(s.fs, p.Staged(), p.There()).value, Relink);
      case Relink =>
        if s.fs.Has(p.There()) {
          BorrowKeeps(w, s, pid, p.There(), Staging(p.ticket, true));
          CompressGoesTo(w, s, pid, Link(s.fs, p.There(), Staging(p.ticket, true)).fs, Settle);
        }
      case Settle =>
        RenameKeeps(w, s, pid, Staging(p.ticket, true), p.Here(), p.oid);
        CompressGoesTo(w, s, pid, Rename(s.fs, Staging(p.ticket, true), p.Here()).value, Compressed);
      case Compressed =>
    }
  }

  lemma RewritePreserves(w: World, s: State, pid: nat, c: Choice)
    requires Inv(w, s) && pid in s.procs && s.procs[pid].Compress? && s.procs[pid].compressAt == Rewrite
    ensures Inv(w, CompressStep(w, s, pid, s.procs[pid], c))
  {
    hide Right, Gentle, Intact, World.Writes, Container, Opening;
    var p := s.procs[pid];
    assert ProcOk(w, s.fs, p);
    NothingKeeps(w, s, pid);
    if s.fs.Has(p.Here()) && c.inode !in s.fs.data && w.Writes(p.config, s.fs.Read(p.Here())) {
      var source := s.fs.Read(p.Here());
      CreateKeeps(w, s, pid, c.inode);
      CompressGoesTo(w, s, pid, Create(s.fs, p.Staged(), c.inode, Container(w.t, p.config, source)), Judge(source));
    } else {
      QuitPreserves(w, s, pid, s.fs);
    }
  }

  lemma JudgePreserves(w: World, s: State, pid: nat, c: Choice)
    requires Inv(w, s) && pid in s.procs && s.procs[pid].Compress? && s.procs[pid].compressAt.Judge?
    ensures Inv(w, CompressStep(w, s, pid, s.procs[pid], c))
  {
    hide Right, Gentle, Intact, World.Writes, Container, Opening;
    var p := s.procs[pid];
    var source := p.compressAt.source;
    assert ProcOk(w, s.fs, p);
    NothingKeeps(w, s, pid);
    JudgeIsRight(w, p.config, source);
    if w.digest(source) == p.oid && |Container(w.t, p.config, source)| < |source| && !p.dry {
      CompressGoesTo(w, s, pid, s.fs, Compare);
    } else {
      UnlinkKeeps(w, s, pid, p.Staged());
      CompressGoesTo(w, s, pid, Unlink(s.fs, p.Staged()), Compressed);
    }
  }

  lemma ComparePreserves(w: World, s: State, pid: nat, c: Choice)
    requires Inv(w, s) && pid in s.procs && s.procs[pid].Compress? && s.procs[pid].compressAt == Compare
    ensures Inv(w, CompressStep(w, s, pid, s.procs[pid], c))
  {
    hide Right, Gentle, Intact, World.Writes;
    assert ProcOk(w, s.fs, s.procs[pid]);
    NothingKeeps(w, s, pid);
    CompressGoesTo(w, s, pid, s.fs, CompressStep(w, s, pid, s.procs[pid], c).procs[pid].compressAt);
  }

  lemma SwapKeeps(w: World, s: State, pid: nat)
    requires Inv(w, s) && pid in s.procs && s.procs[pid].Compress? && s.procs[pid].compressAt == SwapShared
    ensures var p := s.procs[pid]; var fs := Rename(s.fs, p.Staged(), p.There()).value;
      s.fs.Has(p.Staged()) && Gentle(s, fs, pid, Tickets(p)) && Intact(w, fs) && !fs.Has(Staging(p.ticket, true))
  {
    hide Right;
    var p := s.procs[pid];
    assert ProcOk(w, s.fs, p);
    RenameKeeps(w, s, pid, p.Staged(), p.There(), p.oid);
  }

  lemma CreateKeeps(w: World, s: State, pid: nat, inode: nat)
    requires Inv(w, s) && pid in s.procs && s.procs[pid].Compress? && s.procs[pid].compressAt == Rewrite
    ensures var p := s.procs[pid];
      s.fs.Has(p.Here()) && inode !in s.fs.data && w.Writes(p.config, s.fs.Read(p.Here())) ==>
        var fs := Create(s.fs, p.Staged(), inode, Container(w.t, p.config, s.fs.Read(p.Here())));
        Gentle(s, fs, pid, Tickets(p)) && Intact(w, fs) && !fs.Has(Staging(p.ticket, true))
  {
    hide Right, Container, World.Writes;
    assert ProcOk(w, s.fs, s.procs[pid]);
  }

  // The digest of what was read is the name, so what was written is right.
  lemma JudgeIsRight(w: World, config: Config, source: Bytes)
    requires w.Sound() && w.Writes(config, source)
    ensures w.digest(source) == config.oid ==> Right(w, Container(w.t, config, source), config.oid)
  {
    hide Container, ReadBack;
    ContainerReadsBack(w.t, config, source, w.ring);
  }
}
