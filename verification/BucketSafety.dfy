/**
 Safety of the claim index, for every run of the protocol.
 */
module BucketSafety {
  import opened Wrappers
  import opened Names
  import opened BucketKeys
  import opened BucketProtocol

  // ----- One request, seen by everybody else -----

  // What a request of process `pid` may do to the bucket without disturbing the
  // others: refs are never taken from under a marker, the mark stays, and what a
  // claiming push has put down is not removed.
  ghost predicate Gentle(s: State, b: Bucket, pid: nat) {
    && (forall r: Repo, o: Oid :: RefLess(b, r, o) ==> RefLess(s.bucket, r, o))
    && (Complete in s.bucket ==> Complete in b)
    && (forall q, r: Repo, o: Oid | q in s.procs && q != pid && Claiming(s.procs[q], r, o) ::
         && (Ref(o, r) in s.bucket ==> Ref(o, r) in b)
         && (Content(o) in s.bucket ==> Content(o) in b)
         && (Marker(r, o) in s.bucket ==> Marker(r, o) in b))
    && (forall q, r: Repo, o: Oid | q in s.procs && q != pid && Dropping(s.procs[q], r, o) ::
         Marker(r, o) in b ==> Marker(r, o) in s.bucket)
    && (forall q, r: Repo, o: Oid | q in s.procs && q != pid && Deleting(s.procs[q], o) ::
         Marker(r, o) in b ==> Marker(r, o) in s.bucket)
  }

  // The others as they are after `pid` moved: the same, but for what a listing
  // under way has lost sight of.
  ghost predicate Others(s: State, s': State, pid: nat) {
    && (forall q | q in s'.procs && q != pid :: q in s.procs)
    && (forall q | q in s'.procs && q != pid ::
         s'.procs[q] == s.procs[q] ||
         exists k :: k !in s'.bucket && s'.procs[q] == Forget(s.procs[q], k))
  }

  lemma OthersStayOk(s: State, s': State, pid: nat, q: nat)
    requires Inv(s)
    requires Gentle(s, s'.bucket, pid) && Others(s, s', pid)
    requires q in s'.procs && q in s.procs && q != pid
    requires forall o: Oid, r: Repo | Deleting(s.procs[q], o) && pid in s'.procs :: !Claiming(s'.procs[pid], r, o)
    ensures ProcOk(s', s'.procs[q])
  {
    var p := s.procs[q];
    assert ProcOk(s, p);
    if p.Push? {
      assert p.pushAt != WriteRef && p.pushAt != Pushed ==> Claiming(p, p.repo, p.oid);
    } else {
      match p.at
      case DropMarker(o, _) =>
      case DropRef(o, _) => assert Dropping(p, p.repo, o);
      case DropSize(o, _) => assert Dropping(p, p.repo, o);
      case Recheck(o, _) => assert Dropping(p, p.repo, o);
      case Delete(o) => assert Deleting(p, o); StillUntouched(s, s', pid, q, o);
      case Erase(o, _, _) => assert Deleting(p, o); StillUntouched(s, s', pid, q, o);
      case _ =>
    }
  }

  lemma StillUntouched(s: State, s': State, pid: nat, q: nat, o: Oid)
    requires Inv(s)
    requires Gentle(s, s'.bucket, pid) && Others(s, s', pid)
    requires q in s.procs && q != pid && Deleting(s.procs[q], o) && Untouched(s, o)
    requires forall r: Repo | pid in s'.procs :: !Claiming(s'.procs[pid], r, o)
    ensures Untouched(s', o)
  {
  }

  ghost predicate Apart1(s: State, pid: nat) {
    pid in s.procs ==> forall q, r: Repo, o: Oid | q in s.procs ::
      && (Claiming(s.procs[pid], r, o) ==> !Dropping(s.procs[q], r, o))
      && (Dropping(s.procs[pid], r, o) ==> !Claiming(s.procs[q], r, o))
  }

  lemma Assemble(s: State, s': State, pid: nat)
    requires Inv(s)
    requires Gentle(s, s'.bucket, pid) && Others(s, s', pid)
    requires Held(s'.bucket) && Indexed(s'.bucket)
    requires Apart1(s', pid)
    requires pid in s'.procs ==> ProcOk(s', s'.procs[pid])
    requires pid in s'.procs ==> forall q, r: Repo, o: Oid | q in s.procs && q != pid && Deleting(s.procs[q], o) ::
      !Claiming(s'.procs[pid], r, o)
    ensures Inv(s')
  {
    forall q | q in s'.procs ensures ProcOk(s', s'.procs[q]) {
      if q != pid { OthersStayOk(s, s', pid, q); }
    }
    forall p, q, r: Repo, o: Oid | p in s'.procs && q in s'.procs && Claiming(s'.procs[p], r, o)
      ensures !Dropping(s'.procs[q], r, o)
    {
      if p != pid && q != pid {
        assert Claiming(s.procs[p], r, o);
        assert !Dropping(s.procs[q], r, o);
      }
    }
  }

  // ----- What each request leaves of the bucket -----

  ghost predicate Kept(s: State, b: Bucket, pid: nat) {
    Held(b) && Indexed(b) && Gentle(s, b, pid)
  }

  lemma PutKeeps(s: State, k: Key, size: nat, pid: nat)
    requires Inv(s)
    requires k.Ref? || k.Size? || k.Incoming? || k.Content?
    ensures Kept(s, s.bucket[k := size], pid)
  {
    var b := s.bucket[k := size];
    assert forall r: Repo, o: Oid :: RefLess(b, r, o) ==> RefLess(s.bucket, r, o);
  }

  lemma PutMarkerKeeps(s: State, pid: nat, r: Repo, o: Oid)
    requires Inv(s)
    requires pid in s.procs && Claiming(s.procs[pid], r, o)
    requires Ref(o, r) in s.bucket && Content(o) in s.bucket
    ensures Kept(s, s.bucket[Marker(r, o) := 0], pid)
  {
    var b := s.bucket[Marker(r, o) := 0];
    assert forall r: Repo, o: Oid :: RefLess(b, r, o) ==> RefLess(s.bucket, r, o);
    forall q, r': Repo, o': Oid | q in s.procs && Deleting(s.procs[q], o') && Marker(r', o') in b
      ensures Marker(r', o') in s.bucket
    {
      assert ProcOk(s, s.procs[q]);
      assert Untouched(s, o');
    }
  }

  lemma ClaimPreserves(rules: Rules, s: State, pid: nat, p: Proc)
    requires rules.quiet && rules.noSelfRace && Inv(s)
    requires pid in s.procs && p == s.procs[pid] && p.Push? && p.pushAt == WriteRef
    requires MayClaim(rules, s, p.repo, p.oid)
    ensures Inv(Become(Put(s, Ref(p.oid, p.repo), 0), pid, p.(pushAt := Look)))
  {
    var s' := Become(Put(s, Ref(p.oid, p.repo), 0), pid, p.(pushAt := Look));
    PutKeeps(s, Ref(p.oid, p.repo), 0, pid);
    ClaimIsApart(rules, s, s', pid);
    Assemble(s, s', pid);
  }

  // A claiming push that puts a key down and moves on.
  lemma PutPreserves(s: State, pid: nat, k: Key, size: nat, at: PushAt)
    requires Inv(s)
    requires pid in s.procs && s.procs[pid].Push? && s.procs[pid].pushAt !in {WriteRef, Pushed} && at != WriteRef
    requires Kept(s, s.bucket[k := size], pid)
    requires PushOk(s.bucket[k := size], s.procs[pid].(pushAt := at))
    ensures Inv(Become(Put(s, k, size), pid, s.procs[pid].(pushAt := at)))
  {
    var s' := Become(Put(s, k, size), pid, s.procs[pid].(pushAt := at));
    StaysApart(s, s', pid);
    Assemble(s, s', pid);
  }

  lemma LookPreserves(s: State, pid: nat, at: PushAt)
    requires Inv(s)
    requires pid in s.procs && s.procs[pid].Push? && s.procs[pid].pushAt !in {WriteRef, Pushed} && at != WriteRef
    requires PushOk(s.bucket, s.procs[pid].(pushAt := at))
    ensures Inv(Become(s, pid, s.procs[pid].(pushAt := at)))
  {
    var s' := Become(s, pid, s.procs[pid].(pushAt := at));
    StaysApart(s, s', pid);
    Assemble(s, s', pid);
  }

  // ----- Deletes -----

  lemma RemoveKeeps(s: State, k: Key, pid: nat)
    requires Inv(s)
    requires k.Size? || k.Incoming?
    ensures Kept(s, s.bucket - {k}, pid)
  {
    var b := s.bucket - {k};
    assert forall r: Repo, o: Oid :: RefLess(b, r, o) ==> RefLess(s.bucket, r, o);
  }

  lemma CleanPreserves(s: State, pid: nat, ok: bool)
    requires Inv(s)
    requires pid in s.procs && s.procs[pid].Push? && s.procs[pid].pushAt == Clean
    ensures var p := s.procs[pid];
      Inv(Become(if ok then Remove(s, Incoming(p.repo, p.oid)) else s, pid, p.(pushAt := Pushed)))
  {
    var p := s.procs[pid];
    if ok {
      var s' := Become(Remove(s, Incoming(p.repo, p.oid)), pid, p.(pushAt := Pushed));
      RemoveKeeps(s, Incoming(p.repo, p.oid), pid);
      assert forall q | q in s'.procs && q != pid :: s'.procs[q] == Forget(s.procs[q], Incoming(p.repo, p.oid));
      StaysApart(s, s', pid);
      Assemble(s, s', pid);
    } else {
      LookPreserves(s, pid, Pushed);
    }
  }

  lemma PushPreserves(rules: Rules, s: State, pid: nat, c: Choice)
    requires rules.quiet && rules.noSelfRace && Inv(s)
    requires pid in s.procs && s.procs[pid].Push?
    requires PushStep(rules, s, pid, s.procs[pid], c).Some?
    ensures Inv(PushStep(rules, s, pid, s.procs[pid], c).value)
  {
    var p := s.procs[pid];
    assert ProcOk(s, p);
    match p.pushAt
    case WriteRef => ClaimPreserves(rules, s, pid, p);
    case Look => LookPreserves(s, pid, if c.ok && Content(p.oid) in s.bucket then WriteMarker else Upload);
    case Upload =>
      PutKeeps(s, Content(p.oid), rules.length(p.oid), pid);
      PutPreserves(s, pid, Content(p.oid), rules.length(p.oid), WriteMarker);
    case WriteMarker =>
      assert Claiming(p, p.repo, p.oid);
      PutMarkerKeeps(s, pid, p.repo, p.oid);
      PutPreserves(s, pid, Marker(p.repo, p.oid), 0, WriteSize);
    case WriteSize =>
      PutKeeps(s, Size(p.repo, p.oid, rules.length(p.oid)), 0, pid);
      PutPreserves(s, pid, Size(p.repo, p.oid, rules.length(p.oid)), 0, if p.direct then Clean else Pushed);
    case Clean =>
      CleanPreserves(s, pid, c.ok);
  }

  lemma ClaimIsApart(rules: Rules, s: State, s': State, pid: nat)
    requires rules.quiet && rules.noSelfRace && Inv(s)
    requires pid in s.procs && s.procs[pid].Push?
    requires MayClaim(rules, s, s.procs[pid].repo, s.procs[pid].oid)
    requires s'.procs == s.procs[pid := s.procs[pid].(pushAt := Look)]
    ensures Apart1(s', pid)
    ensures forall q, r: Repo, o: Oid | q in s.procs && q != pid && Deleting(s.procs[q], o) ::
      !Claiming(s'.procs[pid], r, o)
  {
  }

  // A push that was claiming already, or stops, is as apart as it was.
  lemma StaysApart(s: State, s': State, pid: nat)
    requires Inv(s)
    requires pid in s.procs && pid in s'.procs
    requires forall r: Repo, o: Oid :: Claiming(s'.procs[pid], r, o) ==> Claiming(s.procs[pid], r, o)
    requires forall r: Repo, o: Oid :: Dropping(s'.procs[pid], r, o) ==> Dropping(s.procs[pid], r, o)
    requires Others(s, s', pid)
    ensures Apart1(s', pid)
    ensures forall q, r: Repo, o: Oid | q in s.procs && q != pid && Deleting(s.procs[q], o) ::
      !Claiming(s'.procs[pid], r, o)
  {
  }

  // ----- Sweeps -----

  // A sweep that moves to a point where it drops nothing new, or nothing being claimed.
  lemma SweepStaysApart(rules: Rules, s: State, s': State, pid: nat)
    requires rules.noSelfRace && Inv(s)
    requires pid in s.procs && s.procs[pid].Sweep? && pid in s'.procs && s'.procs[pid].Sweep?
    requires Others(s, s', pid)
    requires forall r: Repo, o: Oid :: Dropping(s'.procs[pid], r, o) ==>
      Dropping(s.procs[pid], r, o) || MayDrop(rules, s, r, o)
    ensures Apart1(s', pid)
  {
  }

  lemma MovePreserves(rules: Rules, s: State, pid: nat, p: Proc)
    requires rules.noSelfRace && Inv(s)
    requires pid in s.procs && s.procs[pid].Sweep? && p.Sweep?
    requires forall r: Repo, o: Oid :: Dropping(p, r, o) ==> Dropping(s.procs[pid], r, o) || MayDrop(rules, s, r, o)
    requires SweepOk(Become(s, pid, p), p)
    ensures Inv(Become(s, pid, p))
  {
  }

  lemma SweepPutPreserves(rules: Rules, s: State, pid: nat, k: Key, p: Proc)
    requires rules.noSelfRace && Inv(s)
    requires pid in s.procs && s.procs[pid].Sweep? && p.Sweep?
    requires Kept(s, s.bucket[k := 0], pid)
    requires forall r: Repo, o: Oid :: !Dropping(p, r, o)
    requires SweepOk(Become(Put(s, k, 0), pid, p), p)
    ensures Inv(Become(Put(s, k, 0), pid, p))
  {
    var s' := Become(Put(s, k, 0), pid, p);
    SweepStaysApart(rules, s, s', pid);
    Assemble(s, s', pid);
  }

  lemma SweepRemovePreserves(rules: Rules, s: State, pid: nat, k: Key, p: Proc, removed: nat, reported: nat)
    requires rules.noSelfRace && Inv(s)
    requires pid in s.procs && s.procs[pid].Sweep? && p.Sweep?
    requires Kept(s, s.bucket - {k}, pid)
    requires forall r: Repo, o: Oid :: Dropping(p, r, o) ==> Dropping(s.procs[pid], r, o)
    requires SweepOk(Become(Remove(s, k).(removed := removed, reported := reported), pid, p), p)
    ensures Inv(Become(Remove(s, k).(removed := removed, reported := reported), pid, p))
  {
    var s' := Become(Remove(s, k).(removed := removed, reported := reported), pid, p);
    assert forall q | q in s'.procs && q != pid :: s'.procs[q] == Forget(s.procs[q], k);
    SweepStaysApart(rules, s, s', pid);
    Assemble(s, s', pid);
  }

  lemma RemoveMarkerKeeps(s: State, pid: nat, r: Repo, o: Oid)
    requires Inv(s)
    requires pid in s.procs && Dropping(s.procs[pid], r, o)
    ensures Kept(s, s.bucket - {Marker(r, o)}, pid)
  {
    var b := s.bucket - {Marker(r, o)};
    assert forall r: Repo, o: Oid :: RefLess(b, r, o) ==> RefLess(s.bucket, r, o);
    forall q | q in s.procs ensures !Claiming(s.procs[q], r, o) {}
  }

  lemma RemoveRefKeeps(s: State, pid: nat, r: Repo, o: Oid)
    requires Inv(s)
    requires pid in s.procs && Dropping(s.procs[pid], r, o)
    requires Marker(r, o) !in s.bucket
    ensures Kept(s, s.bucket - {Ref(o, r)}, pid)
  {
    var b := s.bucket - {Ref(o, r)};
    assert forall r: Repo, o: Oid :: RefLess(b, r, o) ==> RefLess(s.bucket, r, o);
    forall q | q in s.procs ensures !Claiming(s.procs[q], r, o) {}
  }

  lemma RemoveContentKeeps(s: State, pid: nat, o: Oid)
    requires Inv(s) && Untouched(s, o)
    ensures Kept(s, s.bucket - {Content(o)}, pid)
  {
    var b := s.bucket - {Content(o)};
    assert forall r: Repo, o: Oid :: RefLess(b, r, o) ==> RefLess(s.bucket, r, o);
  }

  lemma MarkKeeps(s: State, pid: nat)
    requires Inv(s) && Covered(s.bucket, {})
    ensures Kept(s, s.bucket[Complete := 0], pid)
  {
    var b := s.bucket[Complete := 0];
    assert forall r: Repo, o: Oid :: RefLess(b, r, o) ==> RefLess(s.bucket, r, o);
  }

  // The last word before bytes go.  Every marker of another repository either has
  // a ref, which the index read would have shown, or was there before the listing
  // began, which the listing would have shown.
  lemma NobodyElse(s: State, pid: nat, oid: Oid)
    requires Inv(s)
    requires pid in s.procs && s.procs[pid].Sweep?
    requires s.procs[pid].at == Recheck(oid, true)
    requires !ClaimedByAnother(s.bucket, s.procs[pid].repo, oid)
    ensures Untouched(s, oid)
  {
    var p := s.procs[pid];
    assert ProcOk(s, p);
    forall r: Repo ensures Marker(r, oid) !in s.bucket {
      if r != p.repo && Marker(r, oid) in s.bucket {
        assert RefLess(s.bucket, r, oid);
      }
    }
    forall q, r: Repo | q in s.procs ensures !Claiming(s.procs[q], r, oid) {
      if Claiming(s.procs[q], r, oid) {
        assert ProcOk(s, s.procs[q]);
        assert Ref(oid, r) in s.bucket;
        assert Dropping(p, p.repo, oid);
      }
    }
  }

  lemma LookUpPreserves(rules: Rules, s: State, pid: nat, c: Choice)
    requires rules.noSelfRace && Inv(s)
    requires pid in s.procs && s.procs[pid].Sweep? && s.procs[pid].at.Ready?
    ensures Inv(SweepStep(rules, s, pid, s.procs[pid], c).value)
  {
    var p := SweepStep(rules, s, pid, s.procs[pid], c).value.procs[pid];
    MovePreserves(rules, s, pid, p);
  }

  lemma ListAllPreserves(rules: Rules, s: State, pid: nat, c: Choice)
    requires rules.noSelfRace && Inv(s)
    requires pid in s.procs && s.procs[pid].Sweep? && s.procs[pid].at.ListAll?
    requires SweepStep(rules, s, pid, s.procs[pid], c).Some?
    ensures Inv(SweepStep(rules, s, pid, s.procs[pid], c).value)
  {
    var p := s.procs[pid];
    assert ProcOk(s, p);
    var p' := SweepStep(rules, s, pid, p, c).value.procs[pid];
    if c.ok {
      assert Covered(s.bucket, Claims(c.listing));
    }
    MovePreserves(rules, s, pid, p');
  }

  lemma FillPreserves(rules: Rules, s: State, pid: nat, c: Choice)
    requires rules.noSelfRace && Inv(s)
    requires pid in s.procs && s.procs[pid].Sweep? && s.procs[pid].at.Fill?
    requires SweepStep(rules, s, pid, s.procs[pid], c).Some?
    ensures Inv(SweepStep(rules, s, pid, s.procs[pid], c).value)
  {
    var p := s.procs[pid];
    assert ProcOk(s, p);
    var pending := p.at.pending;
    if c.ok && pending != {} {
      var k := Ref(c.claim.1, c.claim.0);
      PutKeeps(s, k, 0, pid);
      var b := s.bucket[k := 0];
      assert forall r: Repo, o: Oid :: RefLess(b, r, o) ==> RefLess(s.bucket, r, o);
      SweepPutPreserves(rules, s, pid, k, p.(at := Fill(pending - {c.claim})));
    } else {
      MovePreserves(rules, s, pid, SweepStep(rules, s, pid, p, c).value.procs[pid]);
    }
  }

  lemma NextPreserves(rules: Rules, s: State, pid: nat, c: Choice)
    requires rules.noSelfRace && Inv(s)
    requires pid in s.procs && s.procs[pid].Sweep? && s.procs[pid].at.Next?
    requires SweepStep(rules, s, pid, s.procs[pid], c).Some?
    ensures Inv(SweepStep(rules, s, pid, s.procs[pid], c).value)
  {
    var p := s.procs[pid];
    assert ProcOk(s, p);
    MovePreserves(rules, s, pid, SweepStep(rules, s, pid, p, c).value.procs[pid]);
  }

  lemma DropRefPreserves(rules: Rules, s: State, pid: nat, c: Choice, oid: Oid, frees: bool)
    requires rules.noSelfRace && Inv(s)
    requires pid in s.procs && s.procs[pid].Sweep? && s.procs[pid].at == DropRef(oid, frees)
    ensures Inv(SweepStep(rules, s, pid, s.procs[pid], c).value)
  {
    var p := s.procs[pid];
    assert ProcOk(s, p);
    if c.ok {
      RemoveRefKeeps(s, pid, p.repo, oid);
      SweepRemovePreserves(rules, s, pid, Ref(oid, p.repo), p.(at := DropSize(oid, frees)), s.removed, s.reported);
    } else {
      MovePreserves(rules, s, pid, p.(at := DropSize(oid, frees)));
    }
  }

  lemma DropSizePreserves(rules: Rules, s: State, pid: nat, c: Choice, oid: Oid, frees: bool)
    requires rules.noSelfRace && Inv(s)
    requires pid in s.procs && s.procs[pid].Sweep? && s.procs[pid].at == DropSize(oid, frees)
    ensures Inv(SweepStep(rules, s, pid, s.procs[pid], c).value)
  {
    var p := s.procs[pid];
    assert ProcOk(s, p);
    if c.ok {
      var k := Size(p.repo, oid, rules.length(oid));
      RemoveKeeps(s, k, pid);
      SweepRemovePreserves(rules, s, pid, k, p.(at := Recheck(oid, frees)), s.removed, s.reported);
    } else {
      MovePreserves(rules, s, pid, p.(at := Recheck(oid, frees)));
    }
  }

  lemma DeletePreserves(rules: Rules, s: State, pid: nat, c: Choice, oid: Oid)
    requires rules.noSelfRace && Inv(s)
    requires pid in s.procs && s.procs[pid].Sweep? && Deleting(s.procs[pid], oid)
    ensures Inv(SweepStep(rules, s, pid, s.procs[pid], c).value)
  {
    var p := s.procs[pid];
    assert ProcOk(s, p);
    var s' := SweepStep(rules, s, pid, p, c).value;
    if p.at.Delete? && !rules.toRemover {
      assert Untouched(s', oid);
      MovePreserves(rules, s, pid, s'.procs[pid]);
    } else {
      RemoveContentKeeps(s, pid, oid);
      SweepRemovePreserves(rules, s, pid, Content(oid), p.(at := Next), s'.removed, s'.reported);
    }
  }

  lemma SweepPreserves(rules: Rules, s: State, pid: nat, c: Choice)
    requires rules.quiet && rules.noSelfRace && Inv(s)
    requires pid in s.procs && s.procs[pid].Sweep?
    requires SweepStep(rules, s, pid, s.procs[pid], c).Some?
    ensures Inv(SweepStep(rules, s, pid, s.procs[pid], c).value)
  {
    var p := s.procs[pid];
    assert ProcOk(s, p);
    match p.at
    case Ready => LookUpPreserves(rules, s, pid, c);
    case ListOwn(_) => MovePreserves(rules, s, pid, SweepStep(rules, s, pid, p, c).value.procs[pid]);
    case ListAll(_) => ListAllPreserves(rules, s, pid, c);
    case Fill(_) => FillPreserves(rules, s, pid, c);
    case Mark =>
      MarkKeeps(s, pid);
      if c.ok {
        SweepPutPreserves(rules, s, pid, Complete, p.(at := Next));
      } else {
        MovePreserves(rules, s, pid, p.(at := Next));
      }
    case Next => NextPreserves(rules, s, pid, c);
    case Ask(_) => MovePreserves(rules, s, pid, SweepStep(rules, s, pid, p, c).value.procs[pid]);
    case DropMarker(oid, frees) =>
      RemoveMarkerKeeps(s, pid, p.repo, oid);
      SweepRemovePreserves(rules, s, pid, Marker(p.repo, oid), p.(at := DropRef(oid, frees)), s.removed, s.reported);
    case DropRef(oid, frees) => DropRefPreserves(rules, s, pid, c, oid, frees);
    case DropSize(oid, frees) => DropSizePreserves(rules, s, pid, c, oid, frees);
    case Recheck(oid, frees) =>
      if frees && c.ok && !ClaimedByAnother(s.bucket, p.repo, oid) {
        NobodyElse(s, pid, oid);
        var s' := Become(s, pid, p.(at := Delete(oid)));
        assert Untouched(s', oid);
        MovePreserves(rules, s, pid, p.(at := Delete(oid)));
      } else {
        MovePreserves(rules, s, pid, p.(at := Next));
      }
    case Delete(oid) => DeletePreserves(rules, s, pid, c, oid);
    case Erase(oid, _, _) => DeletePreserves(rules, s, pid, c, oid);
  }
}
