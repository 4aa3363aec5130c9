/**
 Whether a promotion, which takes a repository's name away before it links it back,
 keeps the object for the repository: exactly where it is let finish, and no sweep
 takes the shared entry from under it.
 */
module Promotion {
  import opened Wrappers
  import opened Names
  import opened Framing
  import opened Reading
  import opened Serving
  import opened Files
  import opened LocalProtocol
  import opened LocalSafety
  import opened LocalTheorems

  // `finishes`: a promotion that has renamed the object away is not stopped before it
  // has linked it back.  `spares`: no sweep removes an object's shared entry while a
  // promotion of the object is between the two.
  datatype Rules = Rules(finishes: bool, spares: bool)

  predicate Between(p: Proc) {
    p.Promote? && (p.promoteAt == Back || p.promoteAt == Undo)
  }

  predicate Obeys(rules: Rules, s: State, a: Action) {
    match a
    case Abort(pid) => rules.finishes && pid in s.procs ==> !Between(s.procs[pid])
    case Advance(pid, _) =>
      rules.spares && pid in s.procs && s.procs[pid].Collect? && s.procs[pid].collectAt == CollectAt.Sweep ==>
        forall q | q in s.procs :: !(Between(s.procs[q]) && s.procs[q].oid == s.procs[pid].oid)
    case _ => true
  }

  ghost predicate RunUnder(w: World, rules: Rules, states: seq<State>, actions: seq<Action>) {
    Run(w, states, actions) && forall i | 0 <= i < |actions| :: Obeys(rules, states[i], actions[i])
  }

  // The object is away: the repository's own promotion has it, one link from back.
  ghost predicate IsAway(s: State, r: Repo, o: Oid) {
    s.fs.Has(Shared(o)) && exists q | q in s.procs :: s.procs[q] == Promote(r, o, Back)
  }

  ghost predicate NoSweepOf(s: State, r: Repo, o: Oid) {
    forall pid | pid in s.procs :: s.procs[pid].Collect? ==> s.procs[pid].repo != r || s.procs[pid].oid != o
  }

  // What a repository holds, and does not sweep, it holds for good, but for the
  // moments its own promotion has it away.
  ghost predicate Keeps(states: seq<State>) {
    forall r, o, i, j | 0 <= i <= j < |states| && Holds(states, r, o, i, j) :: KeptAt(states[j], r, o)
  }

  ghost predicate Holds(states: seq<State>, r: Repo, o: Oid, i: nat, j: nat)
    requires i <= j < |states|
  {
    states[i].fs.Has(Object(r, o)) && forall k | i <= k <= j :: NoSweepOf(states[k], r, o)
  }

  ghost predicate KeptAt(s: State, r: Repo, o: Oid) {
    s.fs.Has(Object(r, o)) || IsAway(s, r, o)
  }

  // ----- Where both rules hold -----

  // A promotion that has the object away has the shared entry to link it back from.
  ghost predicate Backed(s: State) {
    forall q | q in s.procs && Between(s.procs[q]) :: s.procs[q].promoteAt == Back && s.fs.Has(Shared(s.procs[q].oid))
  }

  lemma StaysBacked(w: World, s: State, a: Action, s': State, q: nat)
    requires Follows(w, s, a, s') && Backed(s) && Obeys(Rules(true, true), s, a)
    requires q in s.procs && q in s'.procs && s'.procs[q] == s.procs[q] && Between(s.procs[q])
    ensures s'.fs.Has(Shared(s.procs[q].oid))
  {
    hide Step, Follows;
    var x := Shared(s.procs[q].oid);
    if !s'.fs.Has(x) {
      NameGoes(w, s, a, s', x);
    }
  }

  lemma MovesOne(w: World, s: State, a: Action, s': State, q: nat)
    requires Follows(w, s, a, s') && q in s'.procs && !(q in s.procs && s'.procs[q] == s.procs[q])
    ensures (a.Start? && a.pid == q && s'.procs[q] == a.proc && Fresh(w, a.proc)) || (a.Advance? && a.pid == q)
  {
    hide Opening, World.Writes, Container, Disk, Fs.Links, Link, Rename;
  }

  lemma PromoteMoves(w: World, s: State, pid: nat, c: Choice, s': State)
    requires Follows(w, s, Advance(pid, c), s') && s.procs[pid].Promote? && Backed(s) && pid in s'.procs
    ensures s'.procs[pid].Promote? && (Between(s'.procs[pid]) ==>
      s'.procs[pid].promoteAt == Back && s'.fs.Has(Shared(s'.procs[pid].oid)))
  {
  }

  lemma OnlyPromotionsPromote(w: World, s: State, pid: nat, c: Choice, s': State)
    requires Follows(w, s, Advance(pid, c), s') && pid in s'.procs && s'.procs[pid].Promote?
    ensures s.procs[pid].Promote?
  {
    hide Opening, World.Writes;
  }

  lemma BackedStep(w: World, s: State, a: Action, s': State)
    requires Follows(w, s, a, s') && Backed(s) && Obeys(Rules(true, true), s, a)
    ensures Backed(s')
  {
    hide Step, Follows;
    forall q | q in s'.procs && Between(s'.procs[q])
      ensures s'.procs[q].promoteAt == Back && s'.fs.Has(Shared(s'.procs[q].oid))
    {
      if q in s.procs && s'.procs[q] == s.procs[q] {
        StaysBacked(w, s, a, s', q);
      } else {
        MovesOne(w, s, a, s', q);
        if a.Advance? {
          OnlyPromotionsPromote(w, s, q, a.choice, s');
          PromoteMoves(w, s, q, a.choice, s');
        }
      }
    }
  }

  lemma {:induction false} RunBacked(w: World, states: seq<State>, actions: seq<Action>, i: nat)
    requires RunUnder(w, Rules(true, true), states, actions) && i < |states|
    ensures Backed(states[i])
  {
    hide Follows, Obeys;
    if i > 0 {
      RunBacked(w, states, actions, i - 1);
      assert Follows(w, states[i - 1], actions[i - 1], states[i - 1 + 1]);
      BackedStep(w, states[i - 1], actions[i - 1], states[i]);
    }
  }

  // From being away an object comes back by the very next call of its promotion.
  lemma LinksBack(w: World, s: State, pid: nat, c: Choice, s': State)
    requires Follows(w, s, Advance(pid, c), s') && s.procs[pid].Promote? && s.procs[pid].promoteAt == Back && Backed(s)
    ensures s'.fs.Has(s.procs[pid].Here())
  {
    assert Between(s.procs[pid]);
  }

  lemma KeepStep(w: World, s: State, a: Action, s': State, r: Repo, o: Oid)
    requires Follows(w, s, a, s') && Backed(s) && Obeys(Rules(true, true), s, a)
    requires KeptAt(s, r, o) && NoSweepOf(s, r, o)
    ensures KeptAt(s', r, o)
  {
    hide Step, Follows, Obeys;
    BackedStep(w, s, a, s');
    if s.fs.Has(Object(r, o)) {
      if !s'.fs.Has(Object(r, o)) {
        NameGoes(w, s, a, s', Object(r, o));
        assert s'.procs[a.pid] == Promote(r, o, Back);
      }
    } else {
      var q :| q in s.procs && s.procs[q] == Promote(r, o, Back);
      assert Between(s.procs[q]);
      if a.Advance? && a.pid == q {
        LinksBack(w, s, q, a.choice, s');
      } else {
        StandsStill(w, s, a, s', q);
        assert Between(s'.procs[q]);
      }
    }
  }

  lemma StandsStill(w: World, s: State, a: Action, s': State, q: nat)
    requires Follows(w, s, a, s') && Obeys(Rules(true, true), s, a)
    requires q in s.procs && Between(s.procs[q]) && !(a.Advance? && a.pid == q)
    ensures q in s'.procs && s'.procs[q] == s.procs[q]
  {
    hide Opening, World.Writes, Container, Disk, Fs.Links, Link, Rename, Fresh, MayStart;
  }

  lemma {:induction false} KeptFromThen(w: World, states: seq<State>, actions: seq<Action>, r: Repo, o: Oid, i: nat, j: nat)
    requires RunUnder(w, Rules(true, true), states, actions) && i <= j < |states| && Holds(states, r, o, i, j)
    ensures KeptAt(states[j], r, o)
  {
    hide Follows, Obeys, Genesis;
    if i < j {
      KeptFromThen(w, states, actions, r, o, i, j - 1);
      RunBacked(w, states, actions, j - 1);
      assert Follows(w, states[j - 1], actions[j - 1], states[j - 1 + 1]);
      KeepStep(w, states[j - 1], actions[j - 1], states[j], r, o);
    }
  }

  // A promotion that has an object away can go on, and when it does the repository
  // reads the object again.
  lemma PromotionPutsBack(w: World, states: seq<State>, actions: seq<Action>, pid: nat, c: Choice) returns (s': State)
    requires RunUnder(w, Rules(true, true), states, actions)
    requires var s := states[|actions|]; pid in s.procs && s.procs[pid].Promote? && s.procs[pid].promoteAt == Back
    ensures Follows(w, states[|actions|], Advance(pid, c), s') && s'.fs.Valid()
    ensures var p := states[|actions|].procs[pid]; Held(w, s'.fs, p.repo, p.oid).Some?
  {
    hide ReadBack, Follows, Genesis;
    var s := states[|actions|];
    RunInv(w, states, actions, |actions|);
    RunBacked(w, states, actions, |actions|);
    ConfigsAreSound(w, s);
    s' := PromoteStep(w, s, pid, s.procs[pid]);
    assert Follows(w, s, Advance(pid, c), s') by { GoesOn(w, s, pid, c); }
    LinksBack(w, s, pid, c, s');
    StepPreserves(w, s, Advance(pid, c), s');
    assert Leads(w, s'.fs, s.procs[pid].Here(), s.procs[pid].oid) by { IntactLeads(w, s', s.procs[pid].repo, s.procs[pid].oid); }
  }

  lemma GoesOn(w: World, s: State, pid: nat, c: Choice)
    requires s.fs.Valid() && (forall q | q in s.procs && s.procs[q].Compress? :: s.procs[q].config.Sound())
    requires pid in s.procs && s.procs[pid].Promote?
    ensures Follows(w, s, Advance(pid, c), PromoteStep(w, s, pid, s.procs[pid]))
  {
    hide PromoteStep;
  }

  lemma IntactLeads(w: World, s: State, r: Repo, o: Oid)
    requires Inv(w, s) && s.fs.Has(Object(r, o))
    ensures Leads(w, s.fs, Object(r, o), o)
  {
    hide Right;
  }

  // ----- Where one does not -----

  function Two(r1: Repo, r2: Repo, o: Oid): Fs {
    Fs(map[Object(r1, o) := 0, Object(r2, o) := 1], map[0 := [], 1 := []])
  }

  function Moved(r2: Repo, o: Oid): Fs {
    Fs(map[Shared(o) := 0, Object(r2, o) := 1], map[0 := [], 1 := []])
  }

  function Alone(o: Oid): Fs {
    Fs(map[Shared(o) := 0], map[0 := [], 1 := []])
  }

  function Gone(): Fs {
    Fs(map[], map[0 := [], 1 := []])
  }

  lemma TwoIsGenesis(w: World, r1: Repo, r2: Repo, o: Oid)
    requires w.Sound() && o == w.digest([])
    ensures Genesis(w, State(Two(r1, r2, o), map[]))
  {
  }

  lemma PromoteMovesAway(w: World, r1: Repo, r2: Repo, o: Oid, c: Choice)
    requires w.Sound() && o == w.digest([]) && r1 != r2
    ensures
      && Follows(w, State(Two(r1, r2, o), map[]), Start(0, Promote(r1, o, Vet), 2),
                 State(Two(r1, r2, o), map[0 := Promote(r1, o, Vet)]))
      && Follows(w, State(Two(r1, r2, o), map[0 := Promote(r1, o, Vet)]), Advance(0, c),
                 State(Two(r1, r2, o), map[0 := Promote(r1, o, Away)]))
      && Follows(w, State(Two(r1, r2, o), map[0 := Promote(r1, o, Away)]), Advance(0, c),
                 State(Moved(r2, o), map[0 := Promote(r1, o, Back)]))
  {
    PromoteStarts(w, r1, r2, o);
    PromoteVets(w, r1, r2, o, c);
    hide Follows;
    PromoteRenames(w, r1, r2, o, c);
  }

  lemma PromoteStarts(w: World, r1: Repo, r2: Repo, o: Oid)
    ensures Follows(w, State(Two(r1, r2, o), map[]), Start(0, Promote(r1, o, Vet), 2),
                    State(Two(r1, r2, o), map[0 := Promote(r1, o, Vet)]))
  {
  }

  lemma PromoteVets(w: World, r1: Repo, r2: Repo, o: Oid, c: Choice)
    requires o == w.digest([])
    ensures Follows(w, State(Two(r1, r2, o), map[0 := Promote(r1, o, Vet)]), Advance(0, c),
                    State(Two(r1, r2, o), map[0 := Promote(r1, o, Away)]))
  {
    assert map[0 := Promote(r1, o, Vet)][0 := Promote(r1, o, Away)] == map[0 := Promote(r1, o, Away)];
  }

  lemma PromoteRenames(w: World, r1: Repo, r2: Repo, o: Oid, c: Choice)
    requires r1 != r2
    ensures Follows(w, State(Two(r1, r2, o), map[0 := Promote(r1, o, Away)]), Advance(0, c),
                    State(Moved(r2, o), map[0 := Promote(r1, o, Back)]))
  {
    assert map[0 := Promote(r1, o, Away)][0 := Promote(r1, o, Back)] == map[0 := Promote(r1, o, Back)];
    assert Rename(Two(r1, r2, o), Object(r1, o), Shared(o)).value.names == Moved(r2, o).names;
  }

  lemma CollectDetaches(w: World, r1: Repo, r2: Repo, o: Oid, c: Choice)
    requires w.Sound() && r1 != r2
    ensures var p := Promote(r1, o, Back);
      && Follows(w, State(Moved(r2, o), map[0 := p]), Start(1, Collect(r2, o, Detach), 2),
                 State(Moved(r2, o), map[0 := p, 1 := Collect(r2, o, Detach)]))
      && Follows(w, State(Moved(r2, o), map[0 := p, 1 := Collect(r2, o, Detach)]), Advance(1, c),
                 State(Alone(o), map[0 := p, 1 := Collect(r2, o, Count)]))
  {
    var p := Promote(r1, o, Back);
    assert map[0 := p][1 := Collect(r2, o, Detach)] == map[0 := p, 1 := Collect(r2, o, Detach)];
    assert map[0 := p, 1 := Collect(r2, o, Detach)][1 := Collect(r2, o, Count)] == map[0 := p, 1 := Collect(r2, o, Count)];
    assert Unlink(Moved(r2, o), Object(r2, o)).names == Alone(o).names;
  }

  lemma CollectSweeps(w: World, r1: Repo, r2: Repo, o: Oid, c: Choice)
    ensures var p := Promote(r1, o, Back);
      && Follows(w, State(Alone(o), map[0 := p, 1 := Collect(r2, o, Count)]), Advance(1, c),
                 State(Alone(o), map[0 := p, 1 := Collect(r2, o, Sweep)]))
      && Follows(w, State(Alone(o), map[0 := p, 1 := Collect(r2, o, Sweep)]), Advance(1, c),
                 State(Gone(), map[0 := p, 1 := Collect(r2, o, Collected)]))
  {
    var p := Promote(r1, o, Back);
    assert map[0 := p, 1 := Collect(r2, o, Count)][1 := Collect(r2, o, Sweep)] == map[0 := p, 1 := Collect(r2, o, Sweep)];
    assert map[0 := p, 1 := Collect(r2, o, Sweep)][1 := Collect(r2, o, Collected)] == map[0 := p, 1 := Collect(r2, o, Collected)];
    assert (set q | q in Alone(o).names && Alone(o).names[q] == 0) == {Shared(o)};
    assert Alone(o).Links(0) == 1;
    assert Unlink(Alone(o), Shared(o)).names == Gone().names;
  }

  lemma PromoteFindsNothing(w: World, r1: Repo, r2: Repo, o: Oid, c: Choice)
    ensures var q := Collect(r2, o, Collected);
      && Follows(w, State(Gone(), map[0 := Promote(r1, o, Back), 1 := q]), Advance(0, c),
                 State(Gone(), map[0 := Promote(r1, o, Undo), 1 := q]))
      && Follows(w, State(Gone(), map[0 := Promote(r1, o, Undo), 1 := q]), Advance(0, c), State(Gone(), map[1 := q]))
  {
    var q := Collect(r2, o, Collected);
    assert map[0 := Promote(r1, o, Back), 1 := q][0 := Promote(r1, o, Undo)] == map[0 := Promote(r1, o, Undo), 1 := q];
    assert map[0 := Promote(r1, o, Undo), 1 := q] - {0} == map[1 := q];
  }

  ghost predicate Unswept(states: seq<State>, r: Repo, o: Oid) {
    forall k | 0 <= k < |states| :: NoSweepOf(states[k], r, o)
  }

  // Nobody in the run sweeps the repository's object, and at its end the object is
  // neither held nor on its way back.
  ghost predicate Loses(states: seq<State>, r: Repo, o: Oid) {
    states != [] && states[0].fs.Has(Object(r, o)) && Unswept(states, r, o) && !KeptAt(states[|states| - 1], r, o)
  }

  lemma Extend(w: World, rules: Rules, states: seq<State>, actions: seq<Action>, r: Repo, o: Oid, a: Action, s: State)
    returns (states': seq<State>, actions': seq<Action>)
    requires RunUnder(w, rules, states, actions) && Unswept(states, r, o)
    requires Follows(w, states[|actions|], a, s) && Obeys(rules, states[|actions|], a) && NoSweepOf(s, r, o)
    ensures RunUnder(w, rules, states', actions') && Unswept(states', r, o)
    ensures states'[|actions'|] == s && states'[0] == states[0]
  {
    hide Follows, Obeys, Genesis, NoSweepOf;
    states', actions' := states + [s], actions + [a];
    forall i | 0 <= i < |actions'| ensures Follows(w, states'[i], actions'[i], states'[i + 1]) && Obeys(rules, states'[i], actions'[i]) {
      if i < |actions| { assert Follows(w, states[i], actions[i], states[i + 1]) && Obeys(rules, states[i], actions[i]); }
    }
  }

  // A promotion is started and gets as far as having the name away.
  lemma RunsAway(w: World, rules: Rules, r1: Repo, r2: Repo, o: Oid, c: Choice)
    returns (states: seq<State>, actions: seq<Action>)
    requires w.Sound() && r1 != r2 && o == w.digest([])
    ensures RunUnder(w, rules, states, actions) && states[|actions|] == State(Moved(r2, o), map[0 := Promote(r1, o, Back)])
    ensures states[0].fs.Has(Object(r1, o)) && Unswept(states, r1, o)
  {
    TwoIsGenesis(w, r1, r2, o);
    PromoteMovesAway(w, r1, r2, o, c);
    hide Follows, Genesis, World.Sound;
    states, actions := [State(Two(r1, r2, o), map[])], [];
    states, actions := Extend(w, rules, states, actions, r1, o, Start(0, Promote(r1, o, Vet), 2),
      State(Two(r1, r2, o), map[0 := Promote(r1, o, Vet)]));
    states, actions := Extend(w, rules, states, actions, r1, o, Advance(0, c),
      State(Two(r1, r2, o), map[0 := Promote(r1, o, Away)]));
    states, actions := Extend(w, rules, states, actions, r1, o, Advance(0, c),
      State(Moved(r2, o), map[0 := Promote(r1, o, Back)]));
  }

  // Stopped there, it leaves the object under the shared entry alone.
  lemma StoppingLoses(w: World, rules: Rules, r1: Repo, r2: Repo) returns (states: seq<State>, actions: seq<Action>)
    requires w.Sound() && r1 != r2 && !rules.finishes
    ensures RunUnder(w, rules, states, actions) && Loses(states, r1, w.digest([]))
  {
    var o, c := w.digest([]), Choice(true, 2);
    states, actions := RunsAway(w, rules, r1, r2, o, c);
    var none: map<nat, Proc> := map[];
    StopsThere(w, r1, r2, o);
    hide Follows, Run, World.Sound, Unswept;
    states, actions := Extend(w, rules, states, actions, r1, o, Abort(0), State(Moved(r2, o), none));
    LongEnough(w, rules, states, actions);
  }

  lemma StopsThere(w: World, r1: Repo, r2: Repo, o: Oid)
    ensures Follows(w, State(Moved(r2, o), map[0 := Promote(r1, o, Back)]), Abort(0), State(Moved(r2, o), map[]))
  {
    var none: map<nat, Proc> := map[];
    assert map[0 := Promote(r1, o, Back)] - {0} == none;
  }

  lemma LongEnough(w: World, rules: Rules, states: seq<State>, actions: seq<Action>)
    requires RunUnder(w, rules, states, actions)
    ensures |states| == |actions| + 1
  {
  }

  // Another repository's sweep of its own copy, in between, sees one link, and
  // removes the shared entry.
  lemma SweepBetween(w: World, rules: Rules, states: seq<State>, actions: seq<Action>, r1: Repo, r2: Repo, o: Oid, c: Choice)
    returns (states': seq<State>, actions': seq<Action>)
    requires w.Sound() && r1 != r2 && !rules.spares && c.inode == 2 && RunUnder(w, rules, states, actions) && Unswept(states, r1, o)
    requires states[|actions|] == State(Moved(r2, o), map[0 := Promote(r1, o, Back)])
    ensures RunUnder(w, rules, states', actions') && Unswept(states', r1, o) && states'[0] == states[0]
    ensures states'[|actions'|] == State(Gone(), map[0 := Promote(r1, o, Back), 1 := Collect(r2, o, Collected)])
  {
    var p := Promote(r1, o, Back);
    CollectDetaches(w, r1, r2, o, c);
    CollectSweeps(w, r1, r2, o, c);
    hide Follows, Genesis, World.Sound, Unswept;
    states', actions' := Extend(w, rules, states, actions, r1, o, Start(1, Collect(r2, o, Detach), 2),
      State(Moved(r2, o), map[0 := p, 1 := Collect(r2, o, Detach)]));
    states', actions' := Extend(w, rules, states', actions', r1, o, Advance(1, c),
      State(Alone(o), map[0 := p, 1 := Collect(r2, o, Count)]));
    states', actions' := Extend(w, rules, states', actions', r1, o, Advance(1, c),
      State(Alone(o), map[0 := p, 1 := Collect(r2, o, Sweep)]));
    states', actions' := Extend(w, rules, states', actions', r1, o, Advance(1, c),
      State(Gone(), map[0 := p, 1 := Collect(r2, o, Collected)]));
  }

  lemma SweepingLoses(w: World, rules: Rules, r1: Repo, r2: Repo) returns (states: seq<State>, actions: seq<Action>)
    requires w.Sound() && r1 != r2 && !rules.spares
    ensures RunUnder(w, rules, states, actions) && Loses(states, r1, w.digest([]))
    ensures states[|actions|].fs.names == map[]
  {
    var o, c := w.digest([]), Choice(true, 2);
    var q := Collect(r2, o, Collected);
    states, actions := RunsAway(w, rules, r1, r2, o, c);
    states, actions := SweepBetween(w, rules, states, actions, r1, r2, o, c);
    PromoteFindsNothing(w, r1, r2, o, c);
    hide Follows, Genesis, World.Sound, Unswept;
    states, actions := Extend(w, rules, states, actions, r1, o, Advance(0, c),
      State(Gone(), map[0 := Promote(r1, o, Undo), 1 := q]));
    states, actions := Extend(w, rules, states, actions, r1, o, Advance(0, c), State(Gone(), map[1 := q]));
  }

  lemma LosingIsNotKeeping(states: seq<State>, r: Repo, o: Oid)
    requires Loses(states, r, o)
    ensures !Keeps(states)
  {
    hide KeptAt, NoSweepOf;
    assert Holds(states, r, o, 0, |states| - 1);
  }

  // So every run keeps what its repositories hold exactly where promotions are let
  // finish and sweeps keep off them.
  lemma PromotionKeepsExactlyWhen(w: World, rules: Rules)
    requires w.Sound()
    ensures rules.finishes && rules.spares <==>
      forall states: seq<State>, actions: seq<Action> :: RunUnder(w, rules, states, actions) ==> Keeps(states)
  {
    hide RunUnder, KeptAt, World.Sound, Loses;
    if rules.finishes && rules.spares {
      assert rules == Rules(true, true);
      forall states: seq<State>, actions: seq<Action> | RunUnder(w, rules, states, actions) ensures Keeps(states) {
        forall r, o, i, j | 0 <= i <= j < |states| && Holds(states, r, o, i, j) ensures KeptAt(states[j], r, o) {
          KeptFromThen(w, states, actions, r, o, i, j);
        }
      }
    } else {
      var r1, r2, o := Repo("org", "one"), Repo("org", "two"), w.digest([]);
      var states, actions;
      if !rules.finishes {
        states, actions := StoppingLoses(w, rules, r1, r2);
      } else {
        states, actions := SweepingLoses(w, rules, r1, r2);
      }
      LosingIsNotKeeping(states, r1, o);
    }
  }
}
