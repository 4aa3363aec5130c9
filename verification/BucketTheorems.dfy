/**
 What the claim index promises over whole runs, and why each of the two race rules the
 protocol leans on is needed.
 */
module BucketTheorems {
  import opened Wrappers
  import opened Names
  import opened BucketKeys
  import opened BucketProtocol
  import opened BucketSafety

  // A bucket before anybody is running.  It may predate the index: without the
  // mark, markers need no refs.
  ghost predicate Genesis(rules: Rules, s: State) {
    Held(s.bucket) && Indexed(s.bucket) && Sized(rules, s.bucket) && s.procs == map[] && s.reported == s.removed == 0
  }

  ghost predicate Run(rules: Rules, states: seq<State>, actions: seq<Action>) {
    && |states| == |actions| + 1
    && Genesis(rules, states[0])
    && forall i | 0 <= i < |actions| :: Step(rules, states[i], actions[i]) == Some(states[i + 1])
  }

  lemma StepPreserves(rules: Rules, s: State, a: Action)
    requires rules.quiet && rules.noSelfRace && Inv(s)
    requires Step(rules, s, a).Some?
    ensures Inv(Step(rules, s, a).value)
  {
    var s' := Step(rules, s, a).value;
    match a
    case Start(pid, p) => Assemble(s, s', pid);
    case Abort(pid) => Assemble(s, s', pid);
    case Advance(pid, c) =>
      if s.procs[pid].Push? { PushPreserves(rules, s, pid, c); } else { SweepPreserves(rules, s, pid, c); }
    case ClientUpload(repo, oid) => BystanderPuts(s, Incoming(repo, oid), rules.length(oid));
    case Reclaim(repo, oid) => BystanderRemoves(s, Incoming(repo, oid));
    case StrayRef(repo, oid) => BystanderPuts(s, Ref(oid, repo), 0);
  }

  ghost function Nobody(s: State): (pid: nat)
    ensures pid !in s.procs
  {
    Above(s.procs.Keys)
  }

  ghost function Above(pids: set<nat>): (bound: nat)
    ensures forall p | p in pids :: p < bound
  {
    if pids == {} then 0
    else
      var p :| p in pids;
      var rest := Above(pids - {p});
      assert forall q | q in pids :: q == p || q in pids - {p};
      if p < rest then rest else p + 1
  }

  lemma BystanderPuts(s: State, k: Key, size: nat)
    requires Inv(s)
    requires k.Ref? || k.Incoming?
    ensures Inv(Put(s, k, size))
  {
    PutKeeps(s, k, size, Nobody(s));
    Assemble(s, Put(s, k, size), Nobody(s));
  }

  lemma BystanderRemoves(s: State, k: Key)
    requires Inv(s)
    requires k.Incoming?
    ensures Inv(Remove(s, k))
  {
    var s' := Remove(s, k);
    RemoveKeeps(s, k, Nobody(s));
    assert forall q | q in s'.procs :: s'.procs[q] == Forget(s.procs[q], k);
    Assemble(s, s', Nobody(s));
  }

  lemma {:induction false} RunInv(rules: Rules, states: seq<State>, actions: seq<Action>, i: nat)
    requires rules.quiet && rules.noSelfRace && Run(rules, states, actions) && i < |states|
    ensures Inv(states[i])
  {
    if i > 0 {
      RunInv(rules, states, actions, i - 1);
      assert Step(rules, states[i - 1], actions[i - 1]) == Some(states[i - 1 + 1]);
      StepPreserves(rules, states[i - 1], actions[i - 1]);
    }
  }

  // In every state of every run, a marker means the content is there, and once the
  // index is marked complete it names every holder.
  lemma MarkerImpliesContent(rules: Rules, states: seq<State>, actions: seq<Action>, i: nat)
    requires rules.quiet && rules.noSelfRace && Run(rules, states, actions) && i < |states|
    ensures forall r: Repo, o: Oid :: Marker(r, o) in states[i].bucket ==> Content(o) in states[i].bucket
    ensures Complete in states[i].bucket ==>
      forall r: Repo, o: Oid :: Marker(r, o) in states[i].bucket ==> Ref(o, r) in states[i].bucket
  {
    RunInv(rules, states, actions, i);
    forall r: Repo, o: Oid | Complete in states[i].bucket && Marker(r, o) in states[i].bucket
      ensures Ref(o, r) in states[i].bucket
    {
      assert !RefLess(states[i].bucket, r, o);
    }
  }

  // The mark is for ever.
  lemma {:induction false} CompleteForEver(rules: Rules, states: seq<State>, actions: seq<Action>, i: nat, j: nat)
    requires Run(rules, states, actions) && i <= j < |states|
    requires Complete in states[i].bucket
    ensures Complete in states[j].bucket
  {
    if i < j {
      CompleteForEver(rules, states, actions, i, j - 1);
      assert Step(rules, states[j - 1], actions[j - 1]) == Some(states[j]);
    }
  }

  // The mark appears only in a step that leaves no marker without a ref: a backfill
  // cut short never sets it.
  lemma MarkIsLast(rules: Rules, states: seq<State>, actions: seq<Action>, i: nat)
    requires rules.quiet && rules.noSelfRace && Run(rules, states, actions) && i < |actions|
    requires Complete !in states[i].bucket && Complete in states[i + 1].bucket
    ensures forall r: Repo, o: Oid :: Marker(r, o) in states[i].bucket ==> Ref(o, r) in states[i].bucket
    ensures var a, s := actions[i], states[i];
      a.Advance? && a.choice.ok && s.procs[a.pid].Sweep? && s.procs[a.pid].at == Mark
  {
    RunInv(rules, states, actions, i);
    var s, a := states[i], actions[i];
    assert Step(rules, s, a) == Some(states[i + 1]);
    assert ProcOk(s, s.procs[a.pid]);
    forall r: Repo, o: Oid | Marker(r, o) in s.bucket ensures Ref(o, r) in s.bucket {
      assert !RefLess(s.bucket, r, o);
    }
  }

  // Another process's request reaches a process only through a listing under way.
  lemma OthersStandStill(rules: Rules, s: State, a: Action, s': State, pid: nat)
    requires Step(rules, s, a) == Some(s') && pid in s.procs && pid in s'.procs
    requires !(a.Advance? && a.pid == pid) && s'.procs[pid] != s.procs[pid]
    ensures s'.procs[pid].Sweep? && (s'.procs[pid].at.ListOwn? || s'.procs[pid].at.ListAll?)
  {
    hide PushStep, SweepStep, Forget;
    match a {
      case Advance(q, c) =>
        if s.procs[q].Push? { PushTouches(rules, s, q, c, pid); } else { SweepTouches(rules, s, q, c, pid); }
      case _ =>
    }
    var k :| s'.procs[pid] == Forget(s.procs[pid], k);
    Forgotten(s.procs[pid], k);
  }

  lemma Forgotten(p: Proc, k: Key)
    ensures Forget(p, k) != p ==> Forget(p, k).Sweep? && (Forget(p, k).at.ListOwn? || Forget(p, k).at.ListAll?)
  {
  }

  lemma PushTouches(rules: Rules, s: State, pid: nat, c: Choice, q: nat)
    requires pid in s.procs && s.procs[pid].Push? && PushStep(rules, s, pid, s.procs[pid], c).Some?
    requires q in s.procs && q != pid
    ensures var s' := PushStep(rules, s, pid, s.procs[pid], c).value;
      q in s'.procs && (s'.procs[q] == s.procs[q] || exists k :: s'.procs[q] == Forget(s.procs[q], k))
  {
    hide MayClaim, Forget;
  }

  lemma SweepTouches(rules: Rules, s: State, pid: nat, c: Choice, q: nat)
    requires pid in s.procs && s.procs[pid].Sweep? && SweepStep(rules, s, pid, s.procs[pid], c).Some?
    requires q in s.procs && q != pid
    ensures var s' := SweepStep(rules, s, pid, s.procs[pid], c).value;
      q in s'.procs && (s'.procs[q] == s.procs[q] || exists k :: s'.procs[q] == Forget(s.procs[q], k))
  {
    hide MayDrop, ClaimedByAnother, Unclaimed, Listing, Droppable, Claims, Sizes, Forget, Put, Remove, Erased;
    PutsTouchNobody(s, q);
    RemovesForget(s, q);
  }

  lemma PutsTouchNobody(s: State, q: nat)
    ensures forall k: Key, n: nat :: Put(s, k, n).procs == s.procs
  {
  }

  lemma RemovesForget(s: State, q: nat)
    requires q in s.procs
    ensures forall k :: q in Remove(s, k).procs && Remove(s, k).procs[q] == Forget(s.procs[q], k)
    ensures forall o: Oid, mine: bool, n: nat ::
      q in Erased(s, o, mine, n).procs && Erased(s, o, mine, n).procs[q] == Forget(s.procs[q], Content(o))
  {
    hide Forget;
  }

  // And a sweep gets there only with nothing left to give a ref, every write of its
  // backfill answered: a write that is not ends the backfill.
  lemma MarkAfterFill(rules: Rules, states: seq<State>, actions: seq<Action>, i: nat, pid: nat)
    requires Run(rules, states, actions) && i < |actions|
    requires pid in states[i].procs && pid in states[i + 1].procs && states[i].procs[pid] != states[i + 1].procs[pid]
    requires states[i + 1].procs[pid].Sweep? && (states[i + 1].procs[pid].at == Mark || states[i + 1].procs[pid].at.Fill?)
    requires states[i].procs[pid].Sweep? && !states[i].procs[pid].at.ListAll?
    ensures actions[i] == Advance(pid, actions[i].choice) && actions[i].choice.ok && states[i].procs[pid].at.Fill?
    ensures var pending, claim, p' := states[i].procs[pid].at.pending, actions[i].choice.claim, states[i + 1].procs[pid];
      if p'.at == Mark then pending == {}
      else claim in pending && p'.at.pending == pending - {claim} && Ref(claim.1, claim.0) in states[i + 1].bucket
  {
    hide Step, Genesis;
    assert Step(rules, states[i], actions[i]) == Some(states[i + 1]);
    if !(actions[i].Advance? && actions[i].pid == pid) {
      OthersStandStill(rules, states[i], actions[i], states[i + 1], pid);
    } else {
      FillStep(rules, states[i], pid, actions[i].choice, states[i + 1]);
    }
  }

  lemma FillStep(rules: Rules, s: State, pid: nat, c: Choice, s': State)
    requires Step(rules, s, Advance(pid, c)) == Some(s') && pid in s.procs && s.procs[pid].Sweep?
    requires !s.procs[pid].at.ListAll? && s'.procs[pid].Sweep?
    requires s'.procs[pid].at == Mark || s'.procs[pid].at.Fill?
    ensures c.ok && s.procs[pid].at.Fill?
    ensures var pending := s.procs[pid].at.pending;
      if s'.procs[pid].at == Mark then pending == {}
      else c.claim in pending && s'.procs[pid].at.pending == pending - {c.claim} && Ref(c.claim.1, c.claim.0) in s'.bucket
  {
    hide MayDrop, ClaimedByAnother, Unclaimed, Listing, Droppable, Claims, Sizes, Erased, Remove;
  }

  // Bytes go only when no repository holds them and none is claiming them.
  lemma BytesGoLast(rules: Rules, states: seq<State>, actions: seq<Action>, i: nat, o: Oid)
    requires rules.quiet && rules.noSelfRace && Run(rules, states, actions) && i < |actions|
    requires Content(o) in states[i].bucket && Content(o) !in states[i + 1].bucket
    ensures var a, s := actions[i], states[i];
      && a.Advance? && Deleting(s.procs[a.pid], o) && !s.procs[a.pid].dry
      && (forall r: Repo :: Marker(r, o) !in s.bucket)
      && (forall q, r: Repo | q in s.procs :: !Claiming(s.procs[q], r, o))
  {
    RunInv(rules, states, actions, i);
    var s, a := states[i], actions[i];
    assert Step(rules, s, a) == Some(states[i + 1]);
    assert ProcOk(s, s.procs[a.pid]);
  }

  // A marker goes only by a sweep of its own repository that was not told to keep it.
  lemma MarkersGoByTheirOwner(rules: Rules, states: seq<State>, actions: seq<Action>, i: nat, r: Repo, o: Oid)
    requires rules.quiet && rules.noSelfRace && Run(rules, states, actions) && i < |actions|
    requires Marker(r, o) in states[i].bucket && Marker(r, o) !in states[i + 1].bucket
    ensures var a, s := actions[i], states[i];
      && a.Advance? && s.procs[a.pid].Sweep? && s.procs[a.pid].repo == r
      && !s.procs[a.pid].dry && o !in s.procs[a.pid].retained
  {
    RunInv(rules, states, actions, i);
    var s, a := states[i], actions[i];
    assert Step(rules, s, a) == Some(states[i + 1]);
    assert ProcOk(s, s.procs[a.pid]);
  }

  // A push that reports success leaves its claim, the index of it and the bytes.
  lemma PushLands(rules: Rules, states: seq<State>, actions: seq<Action>, i: nat, pid: nat)
    requires rules.quiet && rules.noSelfRace && Run(rules, states, actions) && i < |actions|
    requires actions[i].Advance? && actions[i].pid == pid
    requires pid in states[i].procs && states[i].procs[pid].Push? && states[i + 1].procs[pid].pushAt == Pushed
    ensures var p, b := states[i].procs[pid], states[i + 1].bucket;
      Marker(p.repo, p.oid) in b && Ref(p.oid, p.repo) in b && Content(p.oid) in b
  {
    RunInv(rules, states, actions, i);
    assert Step(rules, states[i], actions[i]) == Some(states[i + 1]);
    assert ProcOk(states[i], states[i].procs[pid]);
  }

  // ----- Why the two race rules are there -----

  // One repository's sweep of one object, up to the point where it has read the
  // index for the last time and is about to delete the bytes.
  ghost predicate AboutToDelete(rules: Rules, states: seq<State>, actions: seq<Action>, r: Repo, o: Oid) {
    && Run(rules, states, actions)
    && states[|actions|] == Lone(r, Delete(o), map[Complete := 0, Content(o) := rules.length(o)], {})
  }

  lemma Extend(rules: Rules, states: seq<State>, actions: seq<Action>, a: Action, s: State)
    requires Run(rules, states, actions)
    requires Step(rules, states[|actions|], a) == Some(s)
    ensures Run(rules, states + [s], actions + [a])
  {
  }

  function Lone(r: Repo, at: SweepAt, b: Bucket, todo: set<Oid>): State {
    State(b, map[0 := Sweep(r, {}, false, Plan(true, false, {}, map[]), todo, at)], 0, 0)
  }

  function Shared(rules: Rules, r: Repo, o: Oid): Bucket {
    map[Complete := 0, Content(o) := rules.length(o), Marker(r, o) := 0, Ref(o, r) := 0]
  }

  function Yes(r: Repo, o: Oid): Choice {
    Choice(true, o, (r, o), map[Marker(r, o) := 0], {o})
  }

  lemma SweepLists(rules: Rules, r: Repo, o: Oid)
    ensures var b := Shared(rules, r, o);
      && Leads(rules, Lone(r, ListOwn(b.Keys), b, {}), Advance(0, Yes(r, o)), Lone(r, Next, b, {o}))
      && Leads(rules, Lone(r, Next, b, {o}), Advance(0, Yes(r, o)), Lone(r, Ask(o), b, {}))
      && Leads(rules, Lone(r, Ask(o), b, {}), Advance(0, Yes(r, o)), Lone(r, DropMarker(o, true), b, {}))
  {
    SweepFinds(rules, r, o);
    hide Leads;
    SweepAsks(rules, r, o);
  }

  lemma SweepFinds(rules: Rules, r: Repo, o: Oid)
    ensures var b := Shared(rules, r, o);
      Leads(rules, Lone(r, ListOwn(b.Keys), b, {}), Advance(0, Yes(r, o)), Lone(r, Next, b, {o}))
  {
    assert Droppable(Claims(Yes(r, o).listing), r, {}, {o}) == {o};
  }

  lemma SweepAsks(rules: Rules, r: Repo, o: Oid)
    ensures var b := Shared(rules, r, o);
      && Leads(rules, Lone(r, Next, b, {o}), Advance(0, Yes(r, o)), Lone(r, Ask(o), b, {}))
      && Leads(rules, Lone(r, Ask(o), b, {}), Advance(0, Yes(r, o)), Lone(r, DropMarker(o, true), b, {}))
  {
    assert {o} - {o} == {};
  }

  lemma SweepDrops(rules: Rules, r: Repo, o: Oid)
    ensures var b := Shared(rules, r, o);
      var b' := b - {Marker(r, o)};
      var c := map[Complete := 0, Content(o) := rules.length(o)];
      && Leads(rules, Lone(r, DropMarker(o, true), b, {}), Advance(0, Yes(r, o)), Lone(r, DropRef(o, true), b', {}))
      && Leads(rules, Lone(r, DropRef(o, true), b', {}), Advance(0, Yes(r, o)), Lone(r, DropSize(o, true), c, {}))
  {
  }

  lemma SweepRechecks(rules: Rules, r: Repo, o: Oid)
    ensures var c := map[Complete := 0, Content(o) := rules.length(o)];
      && Leads(rules, Lone(r, DropSize(o, true), c, {}), Advance(0, Yes(r, o)), Lone(r, Recheck(o, true), c, {}))
      && Leads(rules, Lone(r, Recheck(o, true), c, {}), Advance(0, Yes(r, o)), Lone(r, Delete(o), c, {}))
  {
  }

  lemma SweepReachesDrop(rules: Rules, r: Repo, o: Oid) returns (states: seq<State>, actions: seq<Action>)
    ensures Run(rules, states, actions)
    ensures states[|actions|] == Lone(r, DropMarker(o, true), Shared(rules, r, o), {})
  {
    var b := Shared(rules, r, o);
    var idle := Sweep(r, {}, false, Plan(false, false, {}, map[]), {}, Ready);
    var s0 := State(b, map[], 0, 0);
    var s1 := s0.(procs := map[0 := idle]);
    Extend(rules, [s0], [], Start(0, idle), s1);
    states, actions := [s0] + [s1], [] + [Start(0, idle)];
    SweepLists(rules, r, o);
    StartsReady(rules, r, b);
    hide Leads, Step;
    states, actions := Extending(rules, states, actions, Advance(0, Yes(r, o)), Lone(r, ListOwn(b.Keys), b, {}));
    states, actions := Extending(rules, states, actions, Advance(0, Yes(r, o)), Lone(r, Next, b, {o}));
    states, actions := Extending(rules, states, actions, Advance(0, Yes(r, o)), Lone(r, Ask(o), b, {}));
    states, actions := Extending(rules, states, actions, Advance(0, Yes(r, o)), Lone(r, DropMarker(o, true), b, {}));
  }

  lemma StartsReady(rules: Rules, r: Repo, b: Bucket)
    requires Complete in b
    ensures forall o :: Leads(rules, State(b, map[0 := Sweep(r, {}, false, Plan(false, false, {}, map[]), {}, Ready)], 0, 0),
                              Advance(0, Yes(r, o)), Lone(r, ListOwn(b.Keys), b, {}))
  {
  }

  lemma SweepReachesDelete(rules: Rules, r: Repo, o: Oid) returns (states: seq<State>, actions: seq<Action>)
    ensures AboutToDelete(rules, states, actions, r, o)
  {
    states, actions := SweepReachesDrop(rules, r, o);
    var c := map[Complete := 0, Content(o) := rules.length(o)];
    SweepDrops(rules, r, o);
    SweepRechecks(rules, r, o);
    states, actions := Extending(rules, states, actions, Advance(0, Yes(r, o)),
      Lone(r, DropRef(o, true), Shared(rules, r, o) - {Marker(r, o)}, {}));
    states, actions := Extending(rules, states, actions, Advance(0, Yes(r, o)), Lone(r, DropSize(o, true), c, {}));
    states, actions := Extending(rules, states, actions, Advance(0, Yes(r, o)), Lone(r, Recheck(o, true), c, {}));
    states, actions := Extending(rules, states, actions, Advance(0, Yes(r, o)), Lone(r, Delete(o), c, {}));
  }

  ghost predicate Leads(rules: Rules, s: State, a: Action, s': State) {
    var t := Step(rules, s, a);
    t.Some? && t.value.bucket == s'.bucket && t.value.procs == s'.procs
    && t.value.removed == s'.removed && t.value.reported == s'.reported
  }

  // A second process pushes the object in the gap: ref, content seen, marker.
  function Gap(r: Repo, o: Oid, b: Bucket, other: Repo, at: PushAt): State {
    State(b, map[0 := Sweep(r, {}, false, Plan(true, false, {}, map[]), {}, Delete(o)),
                 1 := Push(other, o, false, at)], 0, 0)
  }

  lemma PushSteps(rules: Rules, r: Repo, o: Oid, other: Repo, b: Bucket)
    requires b == map[Complete := 0, Content(o) := rules.length(o)]
    requires other == r ==> !rules.noSelfRace
    requires other != r ==> !rules.quiet
    ensures var b' := b[Ref(o, other) := 0];
      && Leads(rules, Lone(r, Delete(o), b, {}), Start(1, Push(other, o, false, WriteRef)), Gap(r, o, b, other, WriteRef))
      && Leads(rules, Gap(r, o, b, other, WriteRef), Advance(1, Yes(r, o)), Gap(r, o, b', other, Look))
      && Leads(rules, Gap(r, o, b', other, Look), Advance(1, Yes(r, o)), Gap(r, o, b', other, WriteMarker))
      && Leads(rules, Gap(r, o, b', other, WriteMarker), Advance(1, Yes(r, o)),
               Gap(r, o, b'[Marker(other, o) := 0], other, WriteSize))
  {
  }

  lemma Extending(rules: Rules, states: seq<State>, actions: seq<Action>, a: Action, s: State)
    returns (states': seq<State>, actions': seq<Action>)
    requires Run(rules, states, actions) && Leads(rules, states[|actions|], a, s)
    ensures Run(rules, states', actions') && states'[|actions'|] == s
  {
    Extend(rules, states, actions, a, s);
    states', actions' := states + [s], actions + [a];
  }

  lemma PushInTheGap(rules: Rules, states: seq<State>, actions: seq<Action>, r: Repo, o: Oid, other: Repo)
    returns (states': seq<State>, actions': seq<Action>)
    requires AboutToDelete(rules, states, actions, r, o)
    requires other == r ==> !rules.noSelfRace
    requires other != r ==> !rules.quiet
    ensures Run(rules, states', actions') && !Held(states'[|actions'|].bucket)
  {
    var b := states[|actions|].bucket;
    var b' := b[Ref(o, other) := 0];
    PushSteps(rules, r, o, other, b);
    hide Leads;
    states', actions' := Extending(rules, states, actions, Start(1, Push(other, o, false, WriteRef)), Gap(r, o, b, other, WriteRef));
    states', actions' := Extending(rules, states', actions', Advance(1, Yes(r, o)), Gap(r, o, b', other, Look));
    states', actions' := Extending(rules, states', actions', Advance(1, Yes(r, o)), Gap(r, o, b', other, WriteMarker));
    var s4 := Gap(r, o, b'[Marker(other, o) := 0], other, WriteSize);
    states', actions' := Extending(rules, states', actions', Advance(1, Yes(r, o)), s4);
    states', actions' := DeleteAfterAll(rules, states', actions', r, o, other);
  }

  // The sweep goes through with its delete all the same.
  lemma DeleteAfterAll(rules: Rules, states: seq<State>, actions: seq<Action>, r: Repo, o: Oid, other: Repo)
    returns (states': seq<State>, actions': seq<Action>)
    requires Run(rules, states, actions)
    requires states[|actions|]
      == Gap(r, o, map[Complete := 0, Content(o) := rules.length(o), Ref(o, other) := 0, Marker(other, o) := 0], other, WriteSize)
    ensures Run(rules, states', actions') && !Held(states'[|actions'|].bucket)
  {
    hide Genesis;
    states', actions' := states, actions;
    if !rules.toRemover {
      var asked := Step(rules, states[|actions|], Advance(0, Yes(r, o))).value;
      states', actions' := Extending(rules, states', actions', Advance(0, Yes(r, o)), asked);
    }
    var last := Step(rules, states'[|actions'|], Advance(0, Yes(r, o))).value;
    states', actions' := Extending(rules, states', actions', Advance(0, Yes(r, o)), last);
    assert Marker(other, o) in last.bucket && Content(o) !in last.bucket;
  }

  // Without either rule some run leaves a marker with no content behind it.
  lemma BothRulesAreNeeded(rules: Rules)
    requires !rules.quiet || !rules.noSelfRace
    ensures exists states: seq<State>, actions: seq<Action> :: Run(rules, states, actions) && !Held(states[|actions|].bucket)
  {
    var r, o := Repo("org", "one"), Oid("00");
    var states, actions := SweepReachesDelete(rules, r, o);
    var other := if rules.noSelfRace then Repo("org", "two") else r;
    var states', actions' := PushInTheGap(rules, states, actions, r, o, other);
  }

  // So the rules are exactly what safety over every run takes.
  lemma SafeExactlyUnderTheRules(rules: Rules)
    ensures (rules.quiet && rules.noSelfRace)
      <==> (forall states: seq<State>, actions: seq<Action> :: Run(rules, states, actions) ==> Held(states[|actions|].bucket))
  {
    if rules.quiet && rules.noSelfRace {
      forall states: seq<State>, actions: seq<Action> | Run(rules, states, actions) ensures Held(states[|actions|].bucket) {
        RunInv(rules, states, actions, |actions|);
      }
    } else {
      BothRulesAreNeeded(rules);
    }
  }
}
