/**
 The request-level programs with nobody beside them: what a push leaves, and that a
 sweep does, request by request, what the loops of `BucketSweeping` do.
 */
module BucketAlone {
  import opened Wrappers
  import opened Names
  import opened BucketKeys
  import opened BucketProtocol
  import opened BucketSweeping
  import opened Sorting

  // ----- Every request is one of few -----

  // How many more requests a process can make at most, once it knows what it is about.
  function Left(p: Proc): nat {
    match p
    case Push(_, _, _, at) =>
      (match at
       case WriteRef => 6
       case Look => 5
       case Upload => 4
       case WriteMarker => 3
       case WriteSize => 2
       case Clean => 1
       case Pushed => 0)
    case Sweep(_, _, _, _, todo, at) =>
      match at
      case Fill(pending) => 9 * |todo| + |pending| + 3
      case Mark => 9 * |todo| + 2
      case Next => 9 * |todo| + 1
      case Ask(_) => 9 * |todo| + 9
      case DropMarker(_, _) => 9 * |todo| + 8
      case DropRef(_, _) => 9 * |todo| + 7
      case DropSize(_, _) => 9 * |todo| + 6
      case Recheck(_, _) => 9 * |todo| + 5
      case Delete(_) => 9 * |todo| + 4
      case Erase(_, _, _) => 9 * |todo| + 3
      case _ => 0
  }

  lemma PushesRunOut(rules: Rules, s: State, pid: nat, c: Choice)
    requires pid in s.procs && s.procs[pid].Push? && PushStep(rules, s, pid, s.procs[pid], c).Some?
    ensures var s' := PushStep(rules, s, pid, s.procs[pid], c).value; pid in s'.procs && Left(s'.procs[pid]) < Left(s.procs[pid])
  {
    hide MayClaim, Put, Remove;
  }

  lemma SweepsLookAndList(rules: Rules, s: State, pid: nat, c: Choice)
    requires pid in s.procs && s.procs[pid].Sweep? && SweepStep(rules, s, pid, s.procs[pid], c).Some?
    requires s.procs[pid].at.Ready? || s.procs[pid].at.ListOwn? || s.procs[pid].at.ListAll?
    ensures var s' := SweepStep(rules, s, pid, s.procs[pid], c).value; pid in s'.procs && s'.procs[pid].Sweep?
    ensures var at' := SweepStep(rules, s, pid, s.procs[pid], c).value.procs[pid].at;
      if s.procs[pid].at.Ready? then at'.ListOwn? || at'.ListAll? else at'.Next? || at'.Fill?
  {
    hide MayDrop, ClaimedByAnother, Unclaimed, Listing, Droppable, Claims, Sizes, Put, Remove, Erased;
  }

  lemma FillsRunOut(rules: Rules, s: State, pid: nat, c: Choice)
    requires pid in s.procs && s.procs[pid].Sweep? && SweepStep(rules, s, pid, s.procs[pid], c).Some?
    requires var at := s.procs[pid].at; at.Fill? || at.Mark?
    ensures var s' := SweepStep(rules, s, pid, s.procs[pid], c).value;
      pid in s'.procs && s'.procs[pid].Sweep? && Left(s'.procs[pid]) < Left(s.procs[pid])
  {
    hide MayDrop, ClaimedByAnother, Unclaimed, Listing, Droppable, Claims, Sizes, Put, Remove, Erased;
  }

  lemma AsksRunOut(rules: Rules, s: State, pid: nat, c: Choice)
    requires pid in s.procs && s.procs[pid].Sweep? && SweepStep(rules, s, pid, s.procs[pid], c).Some?
    requires s.procs[pid].at.Ask?
    ensures var s' := SweepStep(rules, s, pid, s.procs[pid], c).value;
      pid in s'.procs && s'.procs[pid].Sweep? && Left(s'.procs[pid]) < Left(s.procs[pid])
  {
    hide MayDrop, ClaimedByAnother, Unclaimed, Listing, Droppable, Claims, Sizes, Put, Remove, Erased;
  }

  lemma ObjectsRunOut(rules: Rules, s: State, pid: nat, c: Choice)
    requires pid in s.procs && s.procs[pid].Sweep? && SweepStep(rules, s, pid, s.procs[pid], c).Some?
    requires s.procs[pid].at.Next?
    ensures var s' := SweepStep(rules, s, pid, s.procs[pid], c).value;
      pid in s'.procs && s'.procs[pid].Sweep? && Left(s'.procs[pid]) < Left(s.procs[pid])
  {
    hide MayDrop, ClaimedByAnother, Unclaimed, Listing, Droppable, Claims, Sizes, Put, Remove, Erased;
    var p := s.procs[pid];
    if p.todo != {} {
      var left := p.todo - {c.oid};
      assert |left| == |p.todo| - 1;
      assert SweepStep(rules, s, pid, p, c).value.procs[pid].todo == left;
    }
  }

  lemma DropsRunOut(rules: Rules, s: State, pid: nat, c: Choice)
    requires pid in s.procs && s.procs[pid].Sweep? && SweepStep(rules, s, pid, s.procs[pid], c).Some?
    requires var at := s.procs[pid].at; at.DropMarker? || at.DropRef? || at.DropSize? || at.Recheck? || at.Delete? || at.Erase?
    ensures var s' := SweepStep(rules, s, pid, s.procs[pid], c).value;
      pid in s'.procs && s'.procs[pid].Sweep? && Left(s'.procs[pid]) < Left(s.procs[pid])
  {
    hide MayDrop, ClaimedByAnother, Unclaimed, Listing, Droppable, Claims, Sizes, Put, Remove, Erased;
  }

  // A push makes six requests at most.  A sweep looks for the mark and lists, and from
  // then on its requests run out, whoever else does what: nine for an object, and one
  // for each ref it has to write.
  lemma RequestsRunOut(rules: Rules, s: State, pid: nat, c: Choice)
    requires pid in s.procs && Step(rules, s, Advance(pid, c)).Some?
    ensures var p, s' := s.procs[pid], Step(rules, s, Advance(pid, c)).value;
      && pid in s'.procs
      && if p.Sweep? && p.at.Ready? then s'.procs[pid].Sweep? && (s'.procs[pid].at.ListOwn? || s'.procs[pid].at.ListAll?)
         else if p.Sweep? && (p.at.ListOwn? || p.at.ListAll?) then s'.procs[pid].Sweep? && (s'.procs[pid].at.Next? || s'.procs[pid].at.Fill?)
         else Left(s'.procs[pid]) < Left(p)
    ensures Step(rules, s, Abort(pid)) == Some(s.(procs := s.procs - {pid}))
  {
    hide PushStep, SweepStep, Left;
    var p := s.procs[pid];
    if p.Push? {
      PushesRunOut(rules, s, pid, c);
    } else if p.at.Ready? || p.at.ListOwn? || p.at.ListAll? {
      SweepsLookAndList(rules, s, pid, c);
    } else if p.at.Fill? || p.at.Mark? {
      FillsRunOut(rules, s, pid, c);
    } else if p.at.Next? {
      ObjectsRunOut(rules, s, pid, c);
    } else if p.at.Ask? {
      AsksRunOut(rules, s, pid, c);
    } else {
      OverIsOver(rules, s, pid, c);
      DropsRunOut(rules, s, pid, c);
    }
  }

  lemma OverIsOver(rules: Rules, s: State, pid: nat, c: Choice)
    requires pid in s.procs && s.procs[pid].Sweep?
    ensures s.procs[pid].at.Swept? ==> Step(rules, s, Advance(pid, c)).None?
  {
  }

  // ----- A push -----

  // The rest of a push, every request of it answered.
  function Drive(rules: Rules, s: State, pid: nat, c: Choice, n: nat): State
    requires pid in s.procs && s.procs[pid].Push?
    decreases n
  {
    if n == 0 then s
    else match PushStep(rules, s, pid, s.procs[pid], c)
      case None => s
      case Some(s') => Drive(rules, s', pid, c, n - 1)
  }

  lemma DriveOn(rules: Rules, s: State, pid: nat, c: Choice, n: nat)
    requires pid in s.procs && s.procs[pid].Push? && n > 0 && PushStep(rules, s, pid, s.procs[pid], c).Some?
    ensures Drive(rules, s, pid, c, n) == Drive(rules, PushStep(rules, s, pid, s.procs[pid], c).value, pid, c, n - 1)
  {
    hide PushStep;
  }

  // A push that nobody comes between claims, in the end, content that is there: what
  // was there already, or what it uploads.  An adoption needs the client's upload only
  // if the content is missing, and always cleans it up.
  lemma PushAlone(rules: Rules, s: State, pid: nat, c: Choice, n: nat)
    requires pid in s.procs && s.procs[pid].Push? && s.procs[pid].pushAt == WriteRef && c.ok && n >= 7
    requires MayClaim(rules, s, s.procs[pid].repo, s.procs[pid].oid)
    ensures var p, b, t := s.procs[pid], s.bucket, Drive(rules, s, pid, c, n);
      var content := if Content(p.oid) in b then b[Content(p.oid)] else rules.length(p.oid);
      var missing := p.direct && Content(p.oid) !in b && Incoming(p.repo, p.oid) !in b;
      var claimed := b[Ref(p.oid, p.repo) := 0][Content(p.oid) := content][Marker(p.repo, p.oid) := 0]
                      [Size(p.repo, p.oid, rules.length(p.oid)) := 0];
      && pid in t.procs && t.procs[pid] == p.(pushAt := if missing then Upload else Pushed)
      && (missing ==> t.bucket == b[Ref(p.oid, p.repo) := 0])
      && (!missing ==> t.bucket == claimed - if p.direct then {Incoming(p.repo, p.oid)} else {})
  {
    hide MayClaim, Drive;
    var p := s.procs[pid];
    DriveOn(rules, s, pid, c, n);
    var s1 := PushStep(rules, s, pid, p, c).value;
    DriveOn(rules, s1, pid, c, n - 1);
    var s2 := PushStep(rules, s1, pid, s1.procs[pid], c).value;
    if Content(p.oid) in s.bucket {
      assert s2.bucket == s.bucket[Ref(p.oid, p.repo) := 0][Content(p.oid) := s.bucket[Content(p.oid)]];
      ThenItClaims(rules, s2, pid, c, n - 2);
    } else if p.direct && Incoming(p.repo, p.oid) !in s.bucket {
      Waits(rules, s2, pid, c, n - 2);
    } else {
      DriveOn(rules, s2, pid, c, n - 2);
      ThenItClaims(rules, PushStep(rules, s2, pid, s2.procs[pid], c).value, pid, c, n - 3);
    }
  }

  lemma Waits(rules: Rules, s: State, pid: nat, c: Choice, n: nat)
    requires pid in s.procs && s.procs[pid].Push? && PushStep(rules, s, pid, s.procs[pid], c).None?
    ensures Drive(rules, s, pid, c, n) == s
  {
    hide PushStep;
  }

  lemma ThenItClaims(rules: Rules, s: State, pid: nat, c: Choice, n: nat)
    requires pid in s.procs && s.procs[pid].Push? && s.procs[pid].pushAt == WriteMarker && c.ok && n >= 4
    ensures var p, t := s.procs[pid], Drive(rules, s, pid, c, n);
      && pid in t.procs && t.procs[pid] == p.(pushAt := Pushed)
      && t.bucket == s.bucket[Marker(p.repo, p.oid) := 0][Size(p.repo, p.oid, rules.length(p.oid)) := 0]
           - if p.direct then {Incoming(p.repo, p.oid)} else {}
  {
    hide MayClaim, Drive;
    var p := s.procs[pid];
    DriveOn(rules, s, pid, c, n);
    var s1 := PushStep(rules, s, pid, p, c).value;
    DriveOn(rules, s1, pid, c, n - 1);
    var s2 := PushStep(rules, s1, pid, s1.procs[pid], c).value;
    if p.direct {
      DriveOn(rules, s2, pid, c, n - 2);
      Waits(rules, PushStep(rules, s2, pid, s2.procs[pid], c).value, pid, c, n - 3);
    } else {
      assert s2.bucket - {} == s2.bucket;
      Waits(rules, s2, pid, c, n - 2);
    }
  }

  // ----- A sweep -----

  // What a sweep is about: whose, what it keeps, the bucket as it finds it, and which
  // of the objects are old enough.
  datatype Job = Job(rules: Rules, repo: Repo, retained: set<Oid>, dry: bool, bucket: Bucket, aged: set<Oid>)
  {
    // Objects have their one size, and refs are empty.
    ghost predicate Sound() {
      forall k | k in bucket :: (k.Content? ==> bucket[k] == rules.length(k.oid)) && (k.Ref? ==> bucket[k] == 0)
    }

    predicate Indexed() {
      Complete in bucket
    }

    function Due(): set<Oid> {
      set k | k in bucket && k.Marker? && k.repo == repo && k.oid !in retained && k.oid in aged :: k.oid
    }

    function Sized(): Order {
      Order(repo, map o | o in Due() :: rules.length(o))
    }

    function Found(): Plan {
      if Indexed() then Plan(true, false, {}, map[]) else Plan(false, true, Claims(bucket), Sizes(bucket))
    }

    // The bucket, and the bytes counted, once some of the objects have been dealt with.
    function Left(done: seq<Oid>): Bucket {
      if dry then bucket else After(Prepared(bucket, false), bucket, Indexed(), Sized(), done)
    }

    function Counted(done: seq<Oid>): nat {
      if dry then 0 else Reported(Prepared(bucket, false), bucket, Indexed(), Sized(), done, false).bytes
    }
  }

  // The refs of every marker but the pending ones have been written.
  ghost predicate Filled(j: Job, b: Bucket, pending: set<Claim>) {
    forall k ::
      && (k in b <==> k in j.bucket || (k.Ref? && (k.repo, k.oid) in Claims(j.bucket) - pending))
      && (k in b ==> b[k] == if k in j.bucket then j.bucket[k] else 0)
  }

  // One object has been taken up and not yet dealt with.
  ghost predicate TakenUp(j: Job, p: Proc, done: seq<Oid>, o: Oid)
    requires p.Sweep?
  {
    o in j.Due() && o !in done && p.todo == j.Due() - (set d | d in done) - {o} && p.plan == j.Found()
  }

  // Where the sweep stands: which objects it is done with, and what it has left.
  ghost predicate Stands(j: Job, s: State, pid: nat, counted: nat, done: seq<Oid>) {
    && pid in s.procs && s.procs == map[pid := s.procs[pid]] && s.procs[pid].Sweep?
    && var p, b := s.procs[pid], s.bucket;
    && p.repo == j.repo && p.retained == j.retained && p.dry == j.dry
    && s.reported == counted + j.Counted(done)
    && Distinct(done) && (forall o | o in done :: o in j.Due())
    && match p.at
       case Ready => done == [] && b == j.bucket
       case ListOwn(own) => done == [] && b == j.bucket && own == b.Keys && j.Indexed() && p.plan == j.Found()
       case ListAll(must) => done == [] && b == j.bucket && must == b.Keys && !j.Indexed()
       case Fill(pending) =>
         && done == [] && !j.Indexed() && !j.dry && p.plan == j.Found() && p.todo == j.Due() && Filled(j, b, pending)
         && pending <= Claims(j.bucket)
       case Mark =>
         done == [] && !j.Indexed() && !j.dry && p.plan == j.Found() && p.todo == j.Due() && Filled(j, b, {})
       case Next => p.plan == j.Found() && p.todo == j.Due() - (set d | d in done) && b == j.Left(done)
       case Ask(o) => j.Indexed() && TakenUp(j, p, done, o) && b == j.Left(done)
       case DropMarker(o, frees) => !j.dry && TakenUp(j, p, done, o) && Asked(j, done, o, frees) && b == j.Left(done)
       case DropRef(o, frees) =>
         !j.dry && TakenUp(j, p, done, o) && Asked(j, done, o, frees) && b == j.Left(done) - {Marker(j.repo, o)}
       case DropSize(o, frees) =>
         && !j.dry && TakenUp(j, p, done, o) && Asked(j, done, o, frees)
         && b == j.Left(done) - {Marker(j.repo, o)} - {Ref(o, j.repo)}
       case Recheck(o, frees) =>
         !j.dry && TakenUp(j, p, done, o) && Asked(j, done, o, frees) && b == WithoutClaim(j.Left(done), j.Sized(), o)
       case Delete(o) => !j.dry && TakenUp(j, p, done, o) && Goes(j, b, done, o)
       case Erase(o, existed, size) =>
         && !j.dry && TakenUp(j, p, done, o) && Goes(j, b, done, o)
         && existed == (Content(o) in b) && size == (if j.Indexed() then SizeOf(b, o) else SizeOf(j.bucket, o))
       case Swept => j.Due() == (set d | d in done) && b == j.Left(done)
  }

  ghost predicate Asked(j: Job, done: seq<Oid>, o: Oid, frees: bool) {
    frees == Frees(j.Left(done), j.bucket, j.Indexed(), j.repo, o)
  }

  ghost predicate Goes(j: Job, b: Bucket, done: seq<Oid>, o: Oid) {
    Asked(j, done, o, true) && b == WithoutClaim(j.Left(done), j.Sized(), o) && !ClaimedByAnother(b, j.repo, o)
  }

  // One request of a sweep that is alone: answered, and with a listing that names what
  // is there.
  ghost predicate Answered(j: Job, s: State, pid: nat, c: Choice, s': State) {
    && pid in s.procs && s.procs[pid].Sweep? && c.ok
    && (s.procs[pid].at.ListOwn? || s.procs[pid].at.ListAll? ==> c.listing == s.bucket && c.aged == j.aged)
    && SweepStep(j.rules, s, pid, s.procs[pid], c) == Some(s')
  }

  lemma LooksForTheMark(j: Job, s: State, pid: nat, counted: nat, c: Choice, s': State)
    requires j.Sound() && Stands(j, s, pid, counted, []) && Answered(j, s, pid, c, s') && s.procs[pid].at.Ready?
    ensures Stands(j, s', pid, counted, [])
  {
    hide Job.Left, Job.Counted, Job.Due, Job.Sized, Job.Sound;
  }

  lemma DueAsListed(j: Job, claims: set<Claim>)
    requires forall r: Repo, o: Oid :: (r, o) in claims <==> Marker(r, o) in j.bucket
    ensures Droppable(claims, j.repo, j.retained, j.aged) == j.Due()
  {
    forall o ensures o in Droppable(claims, j.repo, j.retained, j.aged) <==> o in j.Due() {
      if Marker(j.repo, o) in j.bucket { assert Marker(j.repo, o).Marker?; }
    }
  }

  lemma NothingDone(j: Job)
    ensures j.Due() - (set d: Oid | d in []) == j.Due()
    ensures j.Left([]) == if j.dry then j.bucket else Prepared(j.bucket, false)
  {
  }

  lemma ListingStands(j: Job, s: State, pid: nat, counted: nat, c: Choice, s': State)
    requires j.Sound() && Stands(j, s, pid, counted, []) && Answered(j, s, pid, c, s')
    requires s.procs[pid].at.ListOwn? || s.procs[pid].at.ListAll?
    ensures Stands(j, s', pid, counted, [])
  {
    hide Job.Left, Job.Counted, Job.Due, Job.Sized, Job.Sound, Claims, Sizes, Droppable, Listing, Backfilled;
    DueAsListed(j, Claims(c.listing));
    NothingDone(j);
    if s'.procs[pid].at.Fill? { assert Filled(j, s'.bucket, Claims(j.bucket)) by { NothingFilled(j); } }
  }

  lemma NothingFilled(j: Job)
    ensures Filled(j, j.bucket, Claims(j.bucket))
  {
    hide Claims;
  }

  lemma FillingStands(j: Job, s: State, pid: nat, counted: nat, c: Choice, s': State)
    requires j.Sound() && Stands(j, s, pid, counted, []) && Answered(j, s, pid, c, s')
    requires s.procs[pid].at.Fill?
    ensures Stands(j, s', pid, counted, [])
  {
    hide Job.Left, Job.Counted, Job.Due, Job.Found, Job.Sized, Claims, Filled;
    var p, pending := s.procs[pid], s.procs[pid].at.pending;
    if pending != {} {
      OneMoreRef(j, s.bucket, pending, c.claim);
    }
  }

  lemma OneMoreRef(j: Job, b: Bucket, pending: set<Claim>, claim: Claim)
    requires j.Sound() && Filled(j, b, pending) && pending <= Claims(j.bucket) && claim in pending
    ensures Filled(j, b[Ref(claim.1, claim.0) := 0], pending - {claim})
  {
    hide Claims;
  }

  lemma MarkingStands(j: Job, s: State, pid: nat, counted: nat, c: Choice, s': State)
    requires j.Sound() && Stands(j, s, pid, counted, []) && Answered(j, s, pid, c, s')
    requires s.procs[pid].at.Mark?
    ensures Stands(j, s', pid, counted, [])
  {
    hide Job.Counted, Job.Due, Job.Found, Job.Sized, Filled, Job.Sound;
    FilledIsBackfilled(j, s.bucket);
    assert (set d: Oid | d in []) == {};
  }

  lemma FilledIsBackfilled(j: Job, b: Bucket)
    requires j.Sound() && Filled(j, b, {}) && !j.Indexed()
    ensures b[Complete := 0] == Backfilled(j.bucket)
  {
    var full := Backfilled(j.bucket);
    forall k ensures k in b[Complete := 0] <==> k in full {
      if k.Ref? && Marker(k.repo, k.oid) in j.bucket {
        assert (k.repo, k.oid) in Claims(j.bucket);
        assert Marker(k.repo, k.oid).Marker?;
      }
    }
  }

  // Nobody else is listed as holding it.
  lemma UnclaimedIsUnheld(j: Job, o: Oid)
    requires !j.Indexed()
    ensures Unclaimed(j.Found(), j.repo, o) <==> !HeldByAnother(j.bucket, j.repo, o)
  {
    if k :| k in j.bucket && k.Marker? && k.oid == o && k.repo != j.repo {
      assert (k.repo, k.oid) in Claims(j.bucket);
    }
    if q :| q in Claims(j.bucket) && q.1 == o && q.0 != j.repo {
      assert Marker(q.0, q.1) in j.bucket;
    }
  }

  lemma Onwards(done: seq<Oid>, o: Oid)
    ensures (set d | d in done + [o]) == (set d | d in done) + {o}
    ensures Distinct(done) && o !in done ==> Distinct(done + [o])
  {
  }

  lemma OverStands(j: Job, s: State, pid: nat, counted: nat, done: seq<Oid>, c: Choice, s': State)
    requires j.Sound() && Stands(j, s, pid, counted, done) && Answered(j, s, pid, c, s')
    requires s.procs[pid].at.Next? && s.procs[pid].todo == {}
    ensures Stands(j, s', pid, counted, done)
  {
    hide Job.Due, Job.Left, Job.Counted, Job.Found, Distinct, Job.Sound;
    NoneLeft(j.Due(), done);
  }

  lemma NoneLeft(due: set<Oid>, done: seq<Oid>)
    ensures due - (set d | d in done) == {} && (forall d | d in done :: d in due) ==> due == set d | d in done
  {
    if due - (set d | d in done) == {} {
      forall o | o in due ensures o in done {
        assert o !in due - (set d | d in done);
      }
    }
  }

  lemma TakingStands(j: Job, s: State, pid: nat, counted: nat, done: seq<Oid>, c: Choice, s': State)
    requires j.Sound() && Stands(j, s, pid, counted, done) && Answered(j, s, pid, c, s')
    requires s.procs[pid].at.Next? && s.procs[pid].todo != {} && (j.Indexed() || !j.dry)
    ensures Stands(j, s', pid, counted, done)
  {
    hide Job.Due, Job.Sized, Job.Left, Job.Counted, Claims, Sizes, Unclaimed, HeldByAnother, ClaimedByAnother, Distinct, Job.Sound;
    if !j.Indexed() { UnclaimedIsUnheld(j, c.oid); }
  }

  lemma SkippingStands(j: Job, s: State, pid: nat, counted: nat, done: seq<Oid>, c: Choice, s': State)
    requires j.Sound() && Stands(j, s, pid, counted, done) && Answered(j, s, pid, c, s')
    requires s.procs[pid].at.Next? && s.procs[pid].todo != {} && !j.Indexed() && j.dry
    ensures Stands(j, s', pid, counted, done + [c.oid])
  {
    hide Job.Due, Job.Sized, Claims, Sizes, After, Reported, Distinct, Job.Sound;
    Onwards(done, c.oid);
    assert s' == Become(s, pid, s.procs[pid].(todo := s.procs[pid].todo - {c.oid}));
    assert s.procs[pid].todo - {c.oid} == j.Due() - (set d | d in done + [c.oid]);
  }

  lemma RehearsalStands(j: Job, s: State, pid: nat, counted: nat, done: seq<Oid>, c: Choice, s': State)
    requires j.Sound() && Stands(j, s, pid, counted, done) && Answered(j, s, pid, c, s')
    requires s.procs[pid].at.Ask? && j.dry
    ensures Stands(j, s', pid, counted, done + [s.procs[pid].at.oid])
  {
    hide Job.Due, Job.Sized, ClaimedByAnother, After, Reported, Distinct, Job.Sound, Job.Found;
    var p, o := s.procs[pid], s.procs[pid].at.oid;
    Onwards(done, o);
    assert s' == Become(s, pid, p.(at := Next));
    assert p.todo == j.Due() - (set d | d in done + [o]);
  }

  lemma AskingStands(j: Job, s: State, pid: nat, counted: nat, done: seq<Oid>, c: Choice, s': State)
    requires j.Sound() && Stands(j, s, pid, counted, done) && Answered(j, s, pid, c, s')
    requires s.procs[pid].at.Ask? && !j.dry
    ensures Stands(j, s', pid, counted, done)
  {
    hide Job.Due, Job.Sized, Job.Left, Job.Counted, ClaimedByAnother, HeldByAnother, Distinct, Job.Sound, Job.Found;
    var p, o := s.procs[pid], s.procs[pid].at.oid;
    assert s' == Become(s, pid, p.(at := DropMarker(o, !ClaimedByAnother(s.bucket, p.repo, o))));
  }

  lemma ClaimGoes(j: Job, s: State, pid: nat, counted: nat, done: seq<Oid>, c: Choice, s': State)
    requires j.Sound() && Stands(j, s, pid, counted, done) && Answered(j, s, pid, c, s')
    requires s.procs[pid].at.DropMarker? || s.procs[pid].at.DropRef? || s.procs[pid].at.DropSize?
    ensures Stands(j, s', pid, counted, done)
  {
    hide Job.Left, Job.Counted, Job.Due, Job.Found, Asked, Distinct, Job.Sound, ClaimedByAnother, Listing, Droppable;
    var b, o := j.Left(done), s.procs[pid].at.oid;
    assert o in j.Sized().sized && j.Sized().sized[o] == j.rules.length(o);
    assert b - {Marker(j.repo, o)} - {Ref(o, j.repo)} == b - {Marker(j.repo, o), Ref(o, j.repo)};
  }

  lemma DoneWith(j: Job, done: seq<Oid>, o: Oid)
    requires !j.dry
    ensures var b := j.Left(done);
      && j.Left(done + [o]) == Without(b, j.bucket, j.Indexed(), j.Sized(), o)
      && j.Counted(done + [o]) == j.Counted(done) + Freed(b, j.bucket, j.Indexed(), j.Sized(), o)
  {
    hide Without, Freed, Prepared, Job.Sized;
    assert (done + [o])[..|done|] == done;
  }

  lemma RecheckingStands(j: Job, s: State, pid: nat, counted: nat, done: seq<Oid>, c: Choice, s': State) returns (done': seq<Oid>)
    requires j.Sound() && Stands(j, s, pid, counted, done) && Answered(j, s, pid, c, s')
    requires s.procs[pid].at.Recheck?
    ensures Stands(j, s', pid, counted, done')
  {
    hide Job.Left, Job.Counted, Job.Due, Job.Found, Job.Sized, Distinct, Job.Sound, WithoutClaim, ClaimedByAnother, Without, Freed;
    var o := s.procs[pid].at.oid;
    done' := done;
    if s'.procs[pid].at.Next? {
      done' := done + [o];
      Onwards(done, o);
      DoneWith(j, done, o);
      NotFreed(j, done, o, s.bucket);
      assert s'.procs[pid].todo == j.Due() - (set d | d in done');
    } else {
      assert TakenUp(j, s'.procs[pid], done', o) && Goes(j, s'.bucket, done', o);
    }
  }

  // What is dealt with by dropping the claim alone.
  lemma NotFreed(j: Job, done: seq<Oid>, o: Oid, b: Bucket)
    requires !j.dry && b == WithoutClaim(j.Left(done), j.Sized(), o)
    requires !Asked(j, done, o, true) || ClaimedByAnother(b, j.repo, o)
    ensures b == Without(j.Left(done), j.bucket, j.Indexed(), j.Sized(), o)
    ensures Freed(j.Left(done), j.bucket, j.Indexed(), j.Sized(), o) == 0
  {
    hide Job.Left, WithoutClaim, Frees, ClaimedByAnother;
  }

  // What is dealt with by deleting the bytes.
  lemma ItsBytesGo(j: Job, done: seq<Oid>, o: Oid, b: Bucket)
    requires !j.dry && Goes(j, b, done, o)
    ensures b - {Content(o)} == Without(j.Left(done), j.bucket, j.Indexed(), j.Sized(), o)
    ensures Freed(j.Left(done), j.bucket, j.Indexed(), j.Sized(), o)
      == if Content(o) !in b then 0 else if j.Indexed() then SizeOf(b, o) else SizeOf(j.bucket, o)
  {
    hide Job.Left, WithoutClaim, Frees, ClaimedByAnother;
  }

  // Nobody else has a listing under way to forget anything.
  lemma RemovedAlone(s: State, pid: nat, k: Key)
    requires pid in s.procs && s.procs == map[pid := s.procs[pid]] && s.procs[pid].Sweep?
    requires !s.procs[pid].at.ListOwn? && !s.procs[pid].at.ListAll?
    ensures Remove(s, k).procs == s.procs
  {
  }

  lemma ErasedStands(j: Job, s: State, pid: nat, counted: nat, done: seq<Oid>, o: Oid, existed: bool, size: nat, s': State)
    requires Stands(j, s, pid, counted, done) && (s.procs[pid].at == Delete(o) || s.procs[pid].at.Erase?)
    requires !j.dry && TakenUp(j, s.procs[pid], done, o) && Goes(j, s.bucket, done, o)
    requires existed == (Content(o) in s.bucket) && size == if j.Indexed() then SizeOf(s.bucket, o) else SizeOf(j.bucket, o)
    requires s' == Become(Erased(s, o, existed, size), pid, s.procs[pid].(at := Next))
    ensures Stands(j, s', pid, counted, done + [o])
  {
    hide Job.Left, Job.Counted, Job.Due, Job.Found, Job.Sized, Distinct, WithoutClaim, Without, Freed, Asked, Goes, SizeOf;
    Onwards(done, o);
    DoneWith(j, done, o);
    ItsBytesGo(j, done, o, s.bucket);
    RemovedAlone(s, pid, Content(o));
    assert s'.procs[pid].todo == j.Due() - (set d | d in done + [o]);
  }

  lemma DeletingStands(j: Job, s: State, pid: nat, counted: nat, done: seq<Oid>, c: Choice, s': State) returns (done': seq<Oid>)
    requires j.Sound() && Stands(j, s, pid, counted, done) && Answered(j, s, pid, c, s')
    requires s.procs[pid].at.Delete? || s.procs[pid].at.Erase?
    ensures Stands(j, s', pid, counted, done')
  {
    hide Job.Left, Job.Counted, Job.Due, Job.Sized, Distinct, Job.Sound, Asked, Erased, Goes, Sizes, Claims;
    var p := s.procs[pid];
    match p.at {
      case Delete(o) =>
        var size := if j.Indexed() then SizeOf(s.bucket, o) else SizeOf(j.bucket, o);
        if j.rules.toRemover {
          done' := done + [o];
          ErasedStands(j, s, pid, counted, done, o, Content(o) in s.bucket, size, s');
        } else {
          done' := done;
        }
      case Erase(o, existed, size) =>
        done' := done + [o];
        ErasedStands(j, s, pid, counted, done, o, existed, size, s');
    }
  }

  // ----- From beginning to end -----

  lemma StepStands(j: Job, s: State, pid: nat, counted: nat, done: seq<Oid>, c: Choice, s': State) returns (done': seq<Oid>)
    requires j.Sound() && Stands(j, s, pid, counted, done) && Answered(j, s, pid, c, s')
    ensures Stands(j, s', pid, counted, done')
  {
    BeforeItDrops(j, s, pid, counted, done);
    hide Stands, Answered, Job.Sound;
    done' := done;
    match s.procs[pid].at {
      case Ready => LooksForTheMark(j, s, pid, counted, c, s');
      case ListOwn(_) => ListingStands(j, s, pid, counted, c, s');
      case ListAll(_) => ListingStands(j, s, pid, counted, c, s');
      case Fill(_) => FillingStands(j, s, pid, counted, c, s');
      case Mark => MarkingStands(j, s, pid, counted, c, s');
      case Next =>
        if s.procs[pid].todo == {} {
          OverStands(j, s, pid, counted, done, c, s');
        } else if j.Indexed() || !j.dry {
          TakingStands(j, s, pid, counted, done, c, s');
        } else {
          done' := done + [c.oid];
          SkippingStands(j, s, pid, counted, done, c, s');
        }
      case Ask(o) =>
        if j.dry {
          done' := done + [o];
          RehearsalStands(j, s, pid, counted, done, c, s');
        } else {
          AskingStands(j, s, pid, counted, done, c, s');
        }
      case DropMarker(_, _) => ClaimGoes(j, s, pid, counted, done, c, s');
      case DropRef(_, _) => ClaimGoes(j, s, pid, counted, done, c, s');
      case DropSize(_, _) => ClaimGoes(j, s, pid, counted, done, c, s');
      case Recheck(_, _) => done' := RecheckingStands(j, s, pid, counted, done, c, s');
      case Delete(_) => done' := DeletingStands(j, s, pid, counted, done, c, s');
      case Erase(_, _, _) => done' := DeletingStands(j, s, pid, counted, done, c, s');
      case Swept => SweptIsTheEnd(j, s, pid, c, s');
    }
  }

  lemma BeforeItDrops(j: Job, s: State, pid: nat, counted: nat, done: seq<Oid>)
    requires Stands(j, s, pid, counted, done)
    ensures pid in s.procs && s.procs[pid].Sweep?
    ensures var at := s.procs[pid].at; at.Ready? || at.ListOwn? || at.ListAll? || at.Fill? || at.Mark? ==> done == []
  {
  }

  lemma SweptIsTheEnd(j: Job, s: State, pid: nat, c: Choice, s': State)
    requires pid in s.procs && s.procs[pid].Sweep? && s.procs[pid].at.Swept?
    ensures !Answered(j, s, pid, c, s')
  {
  }

  // A sweep of its own from the first request on, each one answered.
  ghost predicate Alone(j: Job, pid: nat, states: seq<State>, choices: seq<Choice>) {
    && |states| == |choices| + 1
    && pid in states[0].procs && states[0].procs == map[pid := states[0].procs[pid]]
    && (var p := states[0].procs[pid];
        p.Sweep? && p.repo == j.repo && p.retained == j.retained && p.dry == j.dry && p.at.Ready?)
    && states[0].bucket == j.bucket
    && forall i | 0 <= i < |choices| :: Answered(j, states[i], pid, choices[i], states[i + 1])
  }

  lemma {:induction false} AlwaysStands(j: Job, pid: nat, states: seq<State>, choices: seq<Choice>, i: nat) returns (done: seq<Oid>)
    requires j.Sound() && Alone(j, pid, states, choices) && i < |states|
    ensures Stands(j, states[i], pid, states[0].reported, done)
  {
    if i == 0 {
      done := [];
      assert j.Counted([]) == 0;
    } else {
      hide Stands, Answered, Job.Sound;
      done := AlwaysStands(j, pid, states, choices, i - 1);
      assert Answered(j, states[i - 1], pid, choices[i - 1], states[i - 1 + 1]);
      done := StepStands(j, states[i - 1], pid, states[0].reported, done, choices[i - 1], states[i]);
    }
  }

  // A sweep alone, when it is over, has dealt with exactly its own markers that were
  // neither retained nor young, in some order, and has left and counted what the
  // sequential sweep of them leaves and counts.
  lemma SweepAlone(j: Job, pid: nat, states: seq<State>, choices: seq<Choice>) returns (drop: seq<Oid>)
    requires j.Sound() && Alone(j, pid, states, choices)
    requires var last := states[|choices|]; pid in last.procs && last.procs[pid].Sweep? && last.procs[pid].at.Swept?
    ensures Distinct(drop)
    ensures forall o :: o in drop <==> Marker(j.repo, o) in j.bucket && o !in j.retained && o in j.aged
    ensures var last, full, order := states[|choices|], Prepared(j.bucket, false), Order(j.repo, map o | o in drop :: j.rules.length(o));
      && last.bucket == (if j.dry then j.bucket else After(full, j.bucket, Complete in j.bucket, order, drop))
      && last.reported == states[0].reported
           + if j.dry then 0 else Reported(full, j.bucket, Complete in j.bucket, order, drop, false).bytes
  {
    hide Answered, Job.Sound, After, Reported, Prepared;
    drop := AlwaysStands(j, pid, states, choices, |choices|);
    assert forall o :: o in drop <==> o in j.Due() by { assert forall o :: o in drop <==> o in (set d | d in drop); }
    assert j.Sized() == Order(j.repo, map o | o in drop :: j.rules.length(o));
    forall o ensures o in j.Due() <==> Marker(j.repo, o) in j.bucket && o !in j.retained && o in j.aged {
      if Marker(j.repo, o) in j.bucket { assert Marker(j.repo, o).Marker?; }
    }
  }

  // And until then there is always a request it can make.
  lemma NeverStuck(j: Job, s: State, pid: nat, counted: nat, done: seq<Oid>) returns (c: Choice, s': State)
    requires j.Sound() && Stands(j, s, pid, counted, done) && !s.procs[pid].at.Swept?
    ensures Answered(j, s, pid, c, s')
  {
    hide Job.Left, Job.Counted, Job.Due, Filled;
    var p := s.procs[pid];
    var oid := if p.at.Next? && p.todo != {} then (var o :| o in p.todo; o) else Oid("");
    var claim := if p.at.Fill? && p.at.pending != {} then (var q :| q in p.at.pending; q) else (j.repo, oid);
    c := Choice(true, oid, claim, s.bucket, j.aged);
    assert MayDrop(j.rules, s, p.repo, oid);
    if p.at.Ask? { assert MayDrop(j.rules, s, p.repo, p.at.oid); }
    s' := SweepStep(j.rules, s, pid, p, c).value;
  }
}
