/**
 What sweeps report, and what a rehearsal leaves alone, in every run: whoever races
 whom.
 */
module BucketCounts {
  import opened Wrappers
  import opened Names
  import opened BucketKeys
  import opened BucketProtocol
  import opened BucketTheorems

  lemma PushCounts(rules: Rules, s: State, pid: nat, c: Choice)
    requires Counts(rules, s) && pid in s.procs && s.procs[pid].Push?
    requires PushStep(rules, s, pid, s.procs[pid], c).Some?
    ensures Counts(rules, PushStep(rules, s, pid, s.procs[pid], c).value)
  {
  }

  // A request that leaves contents at their size, its own process well, and what the
  // others know but for a listing under way.
  lemma Keep(rules: Rules, s: State, s': State, pid: nat)
    requires Counts(rules, s) && Sized(rules, s'.bucket)
    requires forall q | q in s'.procs && q != pid :: q in s.procs
    requires forall q | q in s'.procs && q != pid :: s'.procs[q] == s.procs[q] || exists k :: s'.procs[q] == Forget(s.procs[q], k)
    requires pid in s'.procs ==> CountOk(rules, s'.procs[pid])
    requires rules.toRemover ==> s'.reported <= s'.removed
    ensures Counts(rules, s')
  {
    hide Sized;
  }

  lemma RemoveCounts(rules: Rules, s: State, pid: nat, k: Key, p: Proc, removed: nat, reported: nat)
    requires Counts(rules, s) && CountOk(rules, p) && (rules.toRemover ==> reported <= removed)
    ensures Counts(rules, Become(Remove(s, k).(removed := removed, reported := reported), pid, p))
  {
    hide CountOk;
    var s' := Become(Remove(s, k).(removed := removed, reported := reported), pid, p);
    assert forall q | q in s'.procs && q != pid :: s'.procs[q] == Forget(s.procs[q], k);
    Keep(rules, s, s', pid);
  }

  lemma PutCounts(rules: Rules, s: State, pid: nat, k: Key, p: Proc)
    requires Counts(rules, s) && CountOk(rules, p) && !k.Content?
    ensures Counts(rules, Become(s, pid, p)) && Counts(rules, Become(Put(s, k, 0), pid, p))
  {
    hide CountOk;
    Keep(rules, s, Become(s, pid, p), pid);
    Keep(rules, s, Become(Put(s, k, 0), pid, p), pid);
  }

  lemma DeleteCounts(rules: Rules, s: State, pid: nat, c: Choice, oid: Oid)
    requires Counts(rules, s) && pid in s.procs && Deleting(s.procs[pid], oid)
    ensures Counts(rules, SweepStep(rules, s, pid, s.procs[pid], c).value)
  {
    hide Sized, Counts;
    Unfold(rules, s);
    var p, s' := s.procs[pid], SweepStep(rules, s, pid, s.procs[pid], c).value;
    var p' := s'.procs[pid];
    assert CountOk(rules, p);
    if p.at.Delete? && !rules.toRemover {
      PutCounts(rules, s, pid, Complete, p');
    } else {
      RemoveCounts(rules, s, pid, Content(oid), p', s'.removed, s'.reported);
    }
  }

  lemma SweepCounts(rules: Rules, s: State, pid: nat, c: Choice)
    requires Counts(rules, s) && pid in s.procs && s.procs[pid].Sweep?
    requires SweepStep(rules, s, pid, s.procs[pid], c).Some?
    ensures Counts(rules, SweepStep(rules, s, pid, s.procs[pid], c).value)
  {
    hide Sized, Counts, ClaimedByAnother, Unclaimed, Droppable, MayDrop, Listing, Claims, Sizes, Erased;
    var p := s.procs[pid];
    assert CountOk(rules, p) && (rules.toRemover ==> s.reported <= s.removed) by { Unfold(rules, s); }
    var s' := SweepStep(rules, s, pid, p, c).value;
    var p' := s'.procs[pid];
    if p.at.ListAll? { ListedSizes(rules, p.at.must, c.listing); }
    match p.at
    case Fill(_) => PutCounts(rules, s, pid, Ref(c.claim.1, c.claim.0), p');
    case DropMarker(oid, _) => RemoveCounts(rules, s, pid, Marker(p.repo, oid), p', s.removed, s.reported);
    case DropRef(oid, _) =>
      RemoveCounts(rules, s, pid, Ref(oid, p.repo), p', s.removed, s.reported);
      PutCounts(rules, s, pid, Complete, p');
    case DropSize(oid, _) =>
      RemoveCounts(rules, s, pid, Size(p.repo, oid, rules.length(oid)), p', s.removed, s.reported);
      PutCounts(rules, s, pid, Complete, p');
    case Delete(oid) => DeleteCounts(rules, s, pid, c, oid);
    case Erase(oid, _, _) => DeleteCounts(rules, s, pid, c, oid);
    case _ => PutCounts(rules, s, pid, Complete, p');
  }

  lemma ListedSizes(rules: Rules, must: set<Key>, listing: map<Key, nat>)
    ensures Listing(rules, must, listing) ==> forall o | o in Sizes(listing) :: Sizes(listing)[o] == rules.length(o)
  {
  }

  lemma Unfold(rules: Rules, s: State)
    requires Counts(rules, s)
    ensures forall q | q in s.procs :: CountOk(rules, s.procs[q])
    ensures forall k | k in s.bucket :: k.Content? ==> s.bucket[k] == rules.length(k.oid)
    ensures rules.toRemover ==> s.reported <= s.removed
  {
  }

  lemma {:induction false} RunCounts(rules: Rules, states: seq<State>, actions: seq<Action>, i: nat)
    requires Run(rules, states, actions) && i < |states|
    ensures Counts(rules, states[i])
  {
    hide Held, Indexed, PushStep, SweepStep;
    if i > 0 {
      RunCounts(rules, states, actions, i - 1);
      var s, a := states[i - 1], actions[i - 1];
      assert Step(rules, states[i - 1], actions[i - 1]) == Some(states[i - 1 + 1]);
      match a
      case Advance(pid, c) =>
        if s.procs[pid].Push? { PushCounts(rules, s, pid, c); } else { SweepCounts(rules, s, pid, c); }
      case _ =>
    }
  }

  // A dry run writes nothing and counts nothing as freed.
  lemma DryRunWritesNothing(rules: Rules, states: seq<State>, actions: seq<Action>, i: nat, pid: nat)
    requires Run(rules, states, actions) && i < |actions|
    requires actions[i].Advance? && actions[i].pid == pid
    requires pid in states[i].procs && states[i].procs[pid].Sweep? && states[i].procs[pid].dry
    ensures var s, s' := states[i], states[i + 1];
      s'.bucket == s.bucket && s'.removed == s.removed && s'.reported == s.reported
      && s'.procs[pid].Sweep? && s'.procs[pid].dry
  {
    RunCounts(rules, states, actions, i);
    assert Step(rules, states[i], actions[i]) == Some(states[i + 1]);
    assert CountOk(rules, states[i].procs[pid]);
  }

  // ----- Who takes the credit -----

  // Where a delete reports to its remover only, the bytes all sweeps report, added
  // up, never exceed the content removed.
  lemma ReportsNeverExceed(rules: Rules, states: seq<State>, actions: seq<Action>, i: nat)
    requires rules.toRemover && Run(rules, states, actions) && i < |states|
    ensures states[i].reported <= states[i].removed
  {
    RunCounts(rules, states, actions, i);
  }

  // Where it is asked for first, two repositories that let go of one object can both
  // report its bytes.

  function Full(rules: Rules, r: Repo, o: Oid): Bucket {
    map[Content(o) := rules.length(o), Marker(r, o) := 0, Ref(o, r) := 0]
  }

  function Bare(rules: Rules, o: Oid): Bucket {
    map[Content(o) := rules.length(o)]
  }

  function Answer(rules: Rules, r: Repo, o: Oid, ok: bool): Choice {
    Choice(ok, o, (r, o), Full(rules, r, o), {o})
  }

  predicate NobodyLists(procs: map<nat, Proc>) {
    forall q | q in procs :: procs[q].Sweep? ==> !procs[q].at.ListOwn? && !procs[q].at.ListAll?
  }

  // One repository's sweep beside whatever else is going on.
  function Beside(procs: map<nat, Proc>, pid: nat, b: Bucket, r: Repo, plan: Plan, todo: set<Oid>, at: SweepAt): State {
    State(b, procs[pid := Sweep(r, {}, false, plan, todo, at)], 0, 0)
  }

  function Seen(rules: Rules, r: Repo, o: Oid): Plan {
    Plan(false, true, {(r, o)}, map[o := rules.length(o)])
  }

  const BLANK := Plan(false, false, {}, map[])

  lemma Goes(procs: map<nat, Proc>, pid: nat, b: Bucket, r: Repo, plan: Plan, todo: set<Oid>, at: SweepAt,
             plan': Plan, todo': set<Oid>, at': SweepAt)
    ensures Become(Beside(procs, pid, b, r, plan, todo, at), pid, Sweep(r, {}, false, plan', todo', at'))
      == Beside(procs, pid, b, r, plan', todo', at')
  {
    var p, p' := Sweep(r, {}, false, plan, todo, at), Sweep(r, {}, false, plan', todo', at');
    assert procs[pid := p][pid := p'] == procs[pid := p'];
  }

  lemma Drops(procs: map<nat, Proc>, pid: nat, b: Bucket, r: Repo, plan: Plan, at: SweepAt, at': SweepAt, k: Key)
    requires NobodyLists(procs) && !at.ListOwn? && !at.ListAll?
    ensures Become(Remove(Beside(procs, pid, b, r, plan, {}, at), k), pid, Sweep(r, {}, false, plan, {}, at'))
      == Beside(procs, pid, b - {k}, r, plan, {}, at')
  {
    var s := Beside(procs, pid, b, r, plan, {}, at);
    assert (map q | q in s.procs :: Forget(s.procs[q], k)) == s.procs;
    Goes(procs, pid, b - {k}, r, plan, {}, at, plan, {}, at');
  }

  lemma LooksForIt(rules: Rules, procs: map<nat, Proc>, pid: nat, b: Bucket, r: Repo, c: Choice)
    requires Complete !in b
    ensures Step(rules, Beside(procs, pid, b, r, BLANK, {}, Ready), Advance(pid, c))
      == Some(Beside(procs, pid, b, r, BLANK, {}, ListAll(b.Keys)))
  {
    Goes(procs, pid, b, r, BLANK, {}, Ready, BLANK, {}, ListAll(b.Keys));
  }

  lemma ListsIt(rules: Rules, procs: map<nat, Proc>, pid: nat, r: Repo, o: Oid)
    ensures var b := Full(rules, r, o);
      Step(rules, Beside(procs, pid, b, r, BLANK, {}, ListAll(b.Keys)), Advance(pid, Answer(rules, r, o, true)))
        == Some(Beside(procs, pid, b, r, Seen(rules, r, o), {o}, Fill({(r, o)})))
  {
    var b := Full(rules, r, o);
    Goes(procs, pid, b, r, BLANK, {}, ListAll(b.Keys), Seen(rules, r, o), {o}, Fill({(r, o)}));
    SeesAll(rules, r, o);
    hide Claims, Sizes, Droppable;
  }

  lemma SeesAll(rules: Rules, r: Repo, o: Oid)
    ensures var b := Full(rules, r, o);
      Claims(b) == {(r, o)} && Sizes(b) == map[o := rules.length(o)] && Droppable(Claims(b), r, {}, {o}) == {o}
  {
    var b := Full(rules, r, o);
    assert Claims(b) == {(r, o)};
    assert Sizes(b) == map[o := rules.length(o)];
    assert Droppable(Claims(b), r, {}, {o}) == {o};
  }

  lemma FailsToFill(rules: Rules, procs: map<nat, Proc>, pid: nat, r: Repo, o: Oid)
    ensures var b := Full(rules, r, o);
      Step(rules, Beside(procs, pid, b, r, Seen(rules, r, o), {o}, Fill({(r, o)})), Advance(pid, Answer(rules, r, o, false)))
        == Some(Beside(procs, pid, b, r, Seen(rules, r, o), {o}, Next))
  {
    Goes(procs, pid, Full(rules, r, o), r, Seen(rules, r, o), {o}, Fill({(r, o)}), Seen(rules, r, o), {o}, Next);
  }

  lemma LetsGo(rules: Rules, procs: map<nat, Proc>, pid: nat, r: Repo, o: Oid)
    requires forall q | q in procs :: !Claiming(procs[q], r, o)
    ensures var plan, b := Seen(rules, r, o), Full(rules, r, o);
      Step(rules, Beside(procs, pid, b, r, plan, {o}, Next), Advance(pid, Answer(rules, r, o, true)))
        == Some(Beside(procs, pid, b, r, plan, {}, DropMarker(o, true)))
  {
    var plan, b := Seen(rules, r, o), Full(rules, r, o);
    assert {o} - {o} == {};
    Goes(procs, pid, b, r, plan, {o}, Next, plan, {}, DropMarker(o, true));
  }

  lemma DropsAll(rules: Rules, procs: map<nat, Proc>, pid: nat, b: Bucket, r: Repo, plan: Plan, o: Oid, c: Choice)
    requires NobodyLists(procs) && c.ok
    ensures Step(rules, Beside(procs, pid, b, r, plan, {}, DropMarker(o, true)), Advance(pid, c))
      == Some(Beside(procs, pid, b - {Marker(r, o)}, r, plan, {}, DropRef(o, true)))
    ensures Step(rules, Beside(procs, pid, b, r, plan, {}, DropRef(o, true)), Advance(pid, c))
      == Some(Beside(procs, pid, b - {Ref(o, r)}, r, plan, {}, DropSize(o, true)))
    ensures Step(rules, Beside(procs, pid, b, r, plan, {}, DropSize(o, true)), Advance(pid, c))
      == Some(Beside(procs, pid, b - {Size(r, o, rules.length(o))}, r, plan, {}, Recheck(o, true)))
  {
    hide Remove, NobodyLists;
    Drops(procs, pid, b, r, plan, DropMarker(o, true), DropRef(o, true), Marker(r, o));
    Drops(procs, pid, b, r, plan, DropRef(o, true), DropSize(o, true), Ref(o, r));
    Drops(procs, pid, b, r, plan, DropSize(o, true), Recheck(o, true), Size(r, o, rules.length(o)));
  }

  lemma NothingElseLeft(rules: Rules, r: Repo, o: Oid)
    ensures Full(rules, r, o) - {Marker(r, o)} - {Ref(o, r)} == Bare(rules, o)
    ensures Bare(rules, o) - {Size(r, o, rules.length(o))} == Bare(rules, o)
  {
  }

  // A sweep of the one repository that holds an object, up to its last question.
  lemma SweepToRecheck(rules: Rules, states: seq<State>, actions: seq<Action>, procs: map<nat, Proc>, pid: nat, r: Repo, o: Oid)
    returns (states': seq<State>, actions': seq<Action>)
    requires Run(rules, states, actions) && states[|actions|] == State(Full(rules, r, o), procs, 0, 0)
    requires pid !in procs && NobodyLists(procs) && forall q | q in procs :: !Claiming(procs[q], r, o)
    ensures Run(rules, states', actions')
    ensures states'[|actions'|] == Beside(procs, pid, Bare(rules, o), r, Seen(rules, r, o), {}, Recheck(o, true))
  {
    var b, plan := Full(rules, r, o), Seen(rules, r, o);
    var yes, no := Answer(rules, r, o, true), Answer(rules, r, o, false);
    var idle := Sweep(r, {}, false, BLANK, {}, Ready);
    LooksForIt(rules, procs, pid, b, r, yes);
    ListsIt(rules, procs, pid, r, o);
    FailsToFill(rules, procs, pid, r, o);
    LetsGo(rules, procs, pid, r, o);
    DropsAll(rules, procs, pid, b, r, plan, o, yes);
    DropsAll(rules, procs, pid, b - {Marker(r, o)}, r, plan, o, yes);
    DropsAll(rules, procs, pid, Bare(rules, o), r, plan, o, yes);
    NothingElseLeft(rules, r, o);
    assert Step(rules, states[|actions|], Start(pid, idle)) == Some(Beside(procs, pid, b, r, BLANK, {}, Ready));
    hide Step, Run;
    states', actions' := Extending(rules, states, actions, Start(pid, idle), Beside(procs, pid, b, r, BLANK, {}, Ready));
    states', actions' := Extending(rules, states', actions', Advance(pid, yes), Beside(procs, pid, b, r, BLANK, {}, ListAll(b.Keys)));
    states', actions' := Extending(rules, states', actions', Advance(pid, yes), Beside(procs, pid, b, r, plan, {o}, Fill({(r, o)})));
    states', actions' := Extending(rules, states', actions', Advance(pid, no), Beside(procs, pid, b, r, plan, {o}, Next));
    states', actions' := Extending(rules, states', actions', Advance(pid, yes), Beside(procs, pid, b, r, plan, {}, DropMarker(o, true)));
    states', actions' := Extending(rules, states', actions', Advance(pid, yes),
      Beside(procs, pid, b - {Marker(r, o)}, r, plan, {}, DropRef(o, true)));
    states', actions' := Extending(rules, states', actions', Advance(pid, yes),
      Beside(procs, pid, Bare(rules, o), r, plan, {}, DropSize(o, true)));
    states', actions' := Extending(rules, states', actions', Advance(pid, yes),
      Beside(procs, pid, Bare(rules, o), r, plan, {}, Recheck(o, true)));
  }

  // Another repository pushes the object, finds the bytes there, writes its marker
  // and stops.
  lemma PushBeside(rules: Rules, states: seq<State>, actions: seq<Action>, procs: map<nat, Proc>, pid: nat, r: Repo, o: Oid)
    returns (states': seq<State>, actions': seq<Action>)
    requires Run(rules, states, actions) && states[|actions|] == State(Bare(rules, o), procs, 0, 0)
    requires pid !in procs && MayClaim(rules, states[|actions|], r, o)
    ensures Run(rules, states', actions') && states'[|actions'|] == State(Full(rules, r, o), procs, 0, 0)
  {
    var yes := Answer(rules, r, o, true);
    var b := Bare(rules, o);
    var b' := b[Ref(o, r) := 0];
    var at := (b: Bucket, at: PushAt) => State(b, procs[pid := Push(r, o, false, at)], 0, 0);
    PushGoes(rules, procs, pid, r, o);
    assert Step(rules, states[|actions|], Start(pid, Push(r, o, false, WriteRef))) == Some(at(b, WriteRef));
    hide Step, Run;
    states', actions' := Extending(rules, states, actions, Start(pid, Push(r, o, false, WriteRef)), at(b, WriteRef));
    states', actions' := Extending(rules, states', actions', Advance(pid, yes), at(b', Look));
    states', actions' := Extending(rules, states', actions', Advance(pid, yes), at(b', WriteMarker));
    states', actions' := Extending(rules, states', actions', Advance(pid, yes), at(Full(rules, r, o), WriteSize));
    states', actions' := Extending(rules, states', actions', Abort(pid), State(Full(rules, r, o), procs, 0, 0));
  }

  lemma PushGoes(rules: Rules, procs: map<nat, Proc>, pid: nat, r: Repo, o: Oid)
    requires pid !in procs && MayClaim(rules, State(Bare(rules, o), procs, 0, 0), r, o)
    ensures var yes, b := Answer(rules, r, o, true), Bare(rules, o);
      var b' := b[Ref(o, r) := 0];
      var at := (b: Bucket, at: PushAt) => State(b, procs[pid := Push(r, o, false, at)], 0, 0);
      && Step(rules, at(b, WriteRef), Advance(pid, yes)) == Some(at(b', Look))
      && Step(rules, at(b', Look), Advance(pid, yes)) == Some(at(b', WriteMarker))
      && Step(rules, at(b', WriteMarker), Advance(pid, yes)) == Some(at(Full(rules, r, o), WriteSize))
      && Step(rules, at(Full(rules, r, o), WriteSize), Abort(pid)) == Some(State(Full(rules, r, o), procs, 0, 0))
  {
    forall x: PushAt, y: PushAt ensures
      procs[pid := Push(r, o, false, x)][pid := Push(r, o, false, y)] == procs[pid := Push(r, o, false, y)] {}
    assert procs[pid := Push(r, o, false, WriteSize)] - {pid} == procs;
    assert Bare(rules, o)[Ref(o, r) := 0][Marker(r, o) := 0] == Full(rules, r, o);
  }

  // Both repositories' sweeps stand at the delete; both ask, both are told that the
  // bytes are there, both delete, and both report them.
  lemma BothTakeTheCredit(rules: Rules, o: Oid) returns (states: seq<State>, actions: seq<Action>)
    requires !rules.toRemover
    ensures Run(rules, states, actions)
    ensures states[|actions|].removed == rules.length(o) && states[|actions|].reported == 2 * rules.length(o)
  {
    var a, b := Repo("org", "one"), Repo("org", "two");
    states, actions := BothAtTheDelete(rules, a, b, o);
    var last := states[|actions|];
    BothAsk(rules, a, b, o);
    BothDelete(rules, a, b, o);
    hide Step, Run;
    var c, n := Answer(rules, a, o, true), rules.length(o);
    states, actions := Extending(rules, states, actions, Advance(0, c), Both(rules, a, b, o, Bare(rules, o), Erase(o, true, n), Delete(o), 0, 0));
    states, actions := Extending(rules, states, actions, Advance(2, c), Both(rules, a, b, o, Bare(rules, o), Erase(o, true, n), Erase(o, true, n), 0, 0));
    states, actions := Extending(rules, states, actions, Advance(0, c), Both(rules, a, b, o, map[], Next, Erase(o, true, n), n, n));
    states, actions := Extending(rules, states, actions, Advance(2, c), Both(rules, a, b, o, map[], Next, Next, n, 2 * n));
  }

  function Both(rules: Rules, a: Repo, b: Repo, o: Oid, bucket: Bucket, at: SweepAt, at': SweepAt, removed: nat, reported: nat): State {
    State(bucket, map[0 := Sweep(a, {}, false, Seen(rules, a, o), {}, at), 2 := Sweep(b, {}, false, Seen(rules, b, o), {}, at')],
          removed, reported)
  }

  lemma BothAsk(rules: Rules, a: Repo, b: Repo, o: Oid)
    requires !rules.toRemover
    ensures var c, n, bare := Answer(rules, a, o, true), rules.length(o), Bare(rules, o);
      var asked := Erase(o, true, n);
      && Step(rules, Both(rules, a, b, o, bare, Delete(o), Delete(o), 0, 0), Advance(0, c))
           == Some(Both(rules, a, b, o, bare, asked, Delete(o), 0, 0))
      && Step(rules, Both(rules, a, b, o, bare, asked, Delete(o), 0, 0), Advance(2, c))
           == Some(Both(rules, a, b, o, bare, asked, asked, 0, 0))
  {
    var bare, asked := Bare(rules, o), Erase(o, true, rules.length(o));
    BothMove(rules, a, b, o, bare, Delete(o), Delete(o), asked, 0, 0);
    BothMove(rules, a, b, o, bare, asked, Delete(o), asked, 0, 0);
  }

  lemma BothDelete(rules: Rules, a: Repo, b: Repo, o: Oid)
    ensures var c, n := Answer(rules, a, o, true), rules.length(o);
      var asked := Erase(o, true, n);
      && Step(rules, Both(rules, a, b, o, Bare(rules, o), asked, asked, 0, 0), Advance(0, c))
           == Some(Both(rules, a, b, o, map[], Next, asked, n, n))
      && Step(rules, Both(rules, a, b, o, map[], Next, asked, n, n), Advance(2, c))
           == Some(Both(rules, a, b, o, map[], Next, Next, n, 2 * n))
  {
    hide Erased;
    var n := rules.length(o);
    var none: Bucket := map[];
    var asked := Erase(o, true, n);
    BothMove(rules, a, b, o, none, asked, asked, Next, n, n);
    BothMove(rules, a, b, o, none, Next, asked, Next, n, 2 * n);
    BothErase(rules, a, b, o, Bare(rules, o), asked, asked, 0, 0);
    BothErase(rules, a, b, o, none, Next, asked, n, n);
  }

  lemma BothMove(rules: Rules, a: Repo, b: Repo, o: Oid, bucket: Bucket, x: SweepAt, y: SweepAt, z: SweepAt, removed: nat, reported: nat)
    ensures Become(Both(rules, a, b, o, bucket, x, y, removed, reported), 0, Sweep(a, {}, false, Seen(rules, a, o), {}, z))
      == Both(rules, a, b, o, bucket, z, y, removed, reported)
    ensures Become(Both(rules, a, b, o, bucket, x, y, removed, reported), 2, Sweep(b, {}, false, Seen(rules, b, o), {}, z))
      == Both(rules, a, b, o, bucket, x, z, removed, reported)
  {
    var s := Both(rules, a, b, o, bucket, x, y, removed, reported);
    assert s.procs[0 := Sweep(a, {}, false, Seen(rules, a, o), {}, z)]
        == Both(rules, a, b, o, bucket, z, y, removed, reported).procs;
    assert s.procs[2 := Sweep(b, {}, false, Seen(rules, b, o), {}, z)]
        == Both(rules, a, b, o, bucket, x, z, removed, reported).procs;
  }

  lemma BothErase(rules: Rules, a: Repo, b: Repo, o: Oid, bucket: Bucket, x: SweepAt, y: SweepAt, removed: nat, reported: nat)
    requires !x.ListOwn? && !x.ListAll? && !y.ListOwn? && !y.ListAll?
    requires bucket == Bare(rules, o) || bucket == map[]
    ensures var gone := if Content(o) in bucket then rules.length(o) else 0;
      Erased(Both(rules, a, b, o, bucket, x, y, removed, reported), o, true, rules.length(o))
        == Both(rules, a, b, o, map[], x, y, removed + gone, reported + rules.length(o))
  {
    var s := Both(rules, a, b, o, bucket, x, y, removed, reported);
    var none: Bucket := map[];
    assert bucket - {Content(o)} == none;
    assert (map q | q in s.procs :: Forget(s.procs[q], Content(o))) == s.procs;
  }

  // The first has let go of its claim and asked for the last time but one when the
  // second claims the object, and lets go of it too.
  lemma BothAtTheDelete(rules: Rules, a: Repo, b: Repo, o: Oid) returns (states: seq<State>, actions: seq<Action>)
    requires a != b
    ensures Run(rules, states, actions)
    ensures states[|actions|] == Both(rules, a, b, o, Bare(rules, o), Delete(o), Delete(o), 0, 0)
  {
    var none: map<nat, Proc> := map[];
    var one := Sweep(a, {}, false, Seen(rules, a, o), {}, Recheck(o, true));
    states, actions := [State(Full(rules, a, o), none, 0, 0)], [];
    states, actions := SweepToRecheck(rules, states, actions, none, 0, a, o);
    assert none[0 := one] == map[0 := one];
    states, actions := PushBeside(rules, states, actions, map[0 := one], 1, b, o);
    states, actions := SweepToRecheck(rules, states, actions, map[0 := one], 2, b, o);
    assert states[|actions|].procs == Both(rules, a, b, o, Bare(rules, o), Recheck(o, true), Recheck(o, true), 0, 0).procs;
    BothRecheck(rules, a, b, o);
    hide Step, Run;
    var c := Answer(rules, a, o, true);
    states, actions := Extending(rules, states, actions, Advance(2, c), Both(rules, a, b, o, Bare(rules, o), Recheck(o, true), Delete(o), 0, 0));
    states, actions := Extending(rules, states, actions, Advance(0, c), Both(rules, a, b, o, Bare(rules, o), Delete(o), Delete(o), 0, 0));
  }

  lemma BothRecheck(rules: Rules, a: Repo, b: Repo, o: Oid)
    ensures var c, bare := Answer(rules, a, o, true), Bare(rules, o);
      && Step(rules, Both(rules, a, b, o, bare, Recheck(o, true), Recheck(o, true), 0, 0), Advance(2, c))
           == Some(Both(rules, a, b, o, bare, Recheck(o, true), Delete(o), 0, 0))
      && Step(rules, Both(rules, a, b, o, bare, Recheck(o, true), Delete(o), 0, 0), Advance(0, c))
           == Some(Both(rules, a, b, o, bare, Delete(o), Delete(o), 0, 0))
  {
    BothMove(rules, a, b, o, Bare(rules, o), Recheck(o, true), Recheck(o, true), Delete(o), 0, 0);
    BothMove(rules, a, b, o, Bare(rules, o), Recheck(o, true), Delete(o), Delete(o), 0, 0);
  }

  // So reports add up to no more than was removed, in every run, exactly where the
  // delete tells its remover and nobody else.
  lemma ReportsExactlyWhen(rules: Rules, o: Oid)
    requires rules.length(o) > 0
    ensures rules.toRemover <==> forall states: seq<State>, actions: seq<Action> ::
      Run(rules, states, actions) ==> states[|actions|].reported <= states[|actions|].removed
  {
    hide Step, Genesis;
    if rules.toRemover {
      forall states: seq<State>, actions: seq<Action> | Run(rules, states, actions)
        ensures states[|actions|].reported <= states[|actions|].removed
      {
        ReportsNeverExceed(rules, states, actions, |actions|);
      }
    } else {
      var states, actions := BothTakeTheCredit(rules, o);
    }
  }
}
