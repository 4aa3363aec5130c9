/**
 What the lock protocol promises over whole runs, and exactly where.
 */
module LockTheorems {
  import opened Wrappers
  import opened LockProtocol
  import opened LockSafety

  // A store before anybody is running, with whatever locks it holds.
  ghost predicate Genesis(s: State) {
    StoreOk(s) && s.procs == map[] && s.log == []
  }

  ghost predicate Run(rules: Rules, states: seq<State>, actions: seq<Action>) {
    && |states| == |actions| + 1
    && Genesis(states[0])
    && forall i | 0 <= i < |actions| :: Step(rules, states[i], actions[i]) == Some(states[i + 1])
  }

  lemma StepPreserves(rules: Rules, s: State, a: Action)
    requires Inv(rules, s) && Ordered(rules) && Step(rules, s, a).Some?
    ensures Inv(rules, Step(rules, s, a).value)
  {
    hide Safe, CreateStep, UnlockStep, StaleFor, MayOpen;
    match a
    case Start(pid, p) => SameLog(s, Step(rules, s, a).value);
    case Stop(pid) => SameLog(s, Step(rules, s, a).value);
    case Advance(pid, c) =>
      if s.procs[pid].Create? { CreatePreserves(rules, s, pid, c); } else { UnlockPreserves(rules, s, pid, c); }
  }

  lemma {:induction false} RunInv(rules: Rules, states: seq<State>, actions: seq<Action>, i: nat)
    requires Ordered(rules) && Run(rules, states, actions) && i < |states|
    ensures Inv(rules, states[i])
  {
    hide Step, Safe;
    if i == 0 {
      assert Safe(states[0].log) by { NothingLoggedIsSafe(); }
    } else {
      RunInv(rules, states, actions, i - 1);
      assert Step(rules, states[i - 1], actions[i - 1]) == Some(states[i - 1 + 1]);
      StepPreserves(rules, states[i - 1], actions[i - 1]);
    }
  }

  lemma NothingLoggedIsSafe()
    ensures Safe([])
  {
  }

  // Nobody is given a lock somebody else was given and still has: between two grants
  // of one path, the very version the first wrote was removed.
  lemma GrantsAreApart(rules: Rules, states: seq<State>, actions: seq<Action>, n: nat, i: nat, j: nat)
    requires Ordered(rules) && Run(rules, states, actions) && n < |states|
    requires i < j < |states[n].log| && states[n].log[i].Granted? && states[n].log[j].Granted?
    requires states[n].log[i].id == states[n].log[j].id
    ensures exists k | i < k < j :: Removal(states[n].log[k], states[n].log[i].id, states[n].log[i].version)
  {
    hide Run, Entitled;
    RunInv(rules, states, actions, n);
    assert RemovedBetween(states[n].log, i, j, states[n].log[i].id, states[n].log[i].version);
    var k :| i < k < j && k < |states[n].log| && Removal(states[n].log[k], states[n].log[i].id, states[n].log[i].version);
  }

  // A lock that is granted stays in the store until a removal of that version.
  lemma GrantsStand(rules: Rules, states: seq<State>, actions: seq<Action>, n: nat, i: nat)
    requires Ordered(rules) && Run(rules, states, actions) && n < |states|
    requires i < |states[n].log| && states[n].log[i].Granted?
    requires forall k | i < k < |states[n].log| :: !Removal(states[n].log[k], states[n].log[i].id, states[n].log[i].version)
    ensures var e, store := states[n].log[i], states[n].store; e.id in store && store[e.id].version == e.version
  {
    hide Run, Safe;
    RunInv(rules, states, actions, n);
    assert Stands(states[n], i);
  }

  // A lock that nobody found stale goes only by its owner's hand or an admin's force,
  // and what goes is what was read: no delete decided from an old read takes a lock
  // that came after it.
  lemma RemovalsAreEntitled(rules: Rules, states: seq<State>, actions: seq<Action>, n: nat, i: nat)
    requires Ordered(rules) && Run(rules, states, actions) && n < |states|
    requires i < |states[n].log| && states[n].log[i].Removed?
    ensures var e := states[n].log[i];
      && e.stored == Stored(e.seen.version, Some(e.seen.lock))
      && (e.remover.Taker? ==> StaleFor(e.seen.lock, e.remover.maxAge, e.remover.now).Some?)
      && (e.remover.Unlocker? && !e.seen.lock.owner.Is(e.remover.actor) ==> e.remover.force && e.remover.admin)
  {
    hide Run, StaleFor;
    RunInv(rules, states, actions, n);
    assert Entitled(states[n].log[i]);
  }

  // ----- Two processes over one directory -----

  lemma Extend(rules: Rules, states: seq<State>, actions: seq<Action>, a: Action, s: State)
    returns (states': seq<State>, actions': seq<Action>)
    requires Run(rules, states, actions) && Step(rules, states[|actions|], a) == Some(s)
    ensures Run(rules, states', actions') && states'[|actions'|] == s
  {
    hide Step, Genesis;
    states', actions' := states + [s], actions + [a];
    forall i | 0 <= i < |actions'| ensures Step(rules, states'[i], actions'[i]) == Some(states'[i + 1]) {
      if i < |actions| { assert Step(rules, states[i], actions[i]) == Some(states[i + 1]); }
    }
  }

  const PATH := "a"
  const YES := Choice(true, false, 2)

  function Named(rules: Rules, taken: int, who: string): Lock {
    Lock(rules.idOf(PATH), PATH, Some(taken), Owner(who, Some(who)))
  }

  // Each on a replica of its own, both after a lock as old as the clock.
  function Taking(rules: Rules, replica: nat, at: CreateAt): Proc {
    Create(replica, Some(0), Named(rules, 2, "new"), at)
  }

  function Seen(rules: Rules): Held {
    Held(0, Named(rules, 0, "old"))
  }

  function Pair(rules: Rules, one: CreateAt, other: CreateAt, store: map<string, Stored>, next: nat, log: seq<Event>): State {
    State(store, next, map[0 := Taking(rules, 0, one), 1 := Taking(rules, 1, other)], log)
  }

  function Abandoned(rules: Rules): map<string, Stored> {
    map[rules.idOf(PATH) := Stored(0, Some(Named(rules, 0, "old")))]
  }

  lemma Moves(rules: Rules, one: CreateAt, other: CreateAt, store: map<string, Stored>, next: nat, log: seq<Event>, at: CreateAt)
    ensures Become(Pair(rules, one, other, store, next, log), 0, Taking(rules, 0, at)) == Pair(rules, at, other, store, next, log)
    ensures Become(Pair(rules, one, other, store, next, log), 1, Taking(rules, 1, at)) == Pair(rules, one, at, store, next, log)
  {
  }

  // Up to the point where it is about to discard what it read.
  lemma FirstFindsItStale(rules: Rules, other: CreateAt)
    requires rules.backend.Local? && !rules.alone
    ensures var b := Abandoned(rules);
      && Step(rules, Pair(rules, Enter, other, b, 1, []), Advance(0, YES)) == Some(Pair(rules, Look, other, b, 1, []))
      && Step(rules, Pair(rules, Look, other, b, 1, []), Advance(0, YES)) == Some(Pair(rules, Take, other, b, 1, []))
      && Step(rules, Pair(rules, Take, other, b, 1, []), Advance(0, YES)) == Some(Pair(rules, ReadHolder, other, b, 1, []))
      && Step(rules, Pair(rules, ReadHolder, other, b, 1, []), Advance(0, YES))
           == Some(Pair(rules, Discard(Seen(rules), 2), other, b, 1, []))
  {
    var b := Abandoned(rules);
    Moves(rules, Enter, other, b, 1, [], Look);
    Moves(rules, Look, other, b, 1, [], Take);
    Moves(rules, Take, other, b, 1, [], ReadHolder);
    Moves(rules, ReadHolder, other, b, 1, [], Discard(Seen(rules), 2));
  }

  lemma SecondFindsItStale(rules: Rules, one: CreateAt)
    requires rules.backend.Local? && !rules.alone
    ensures var b := Abandoned(rules);
      && Step(rules, Pair(rules, one, Enter, b, 1, []), Advance(1, YES)) == Some(Pair(rules, one, Look, b, 1, []))
      && Step(rules, Pair(rules, one, Look, b, 1, []), Advance(1, YES)) == Some(Pair(rules, one, Take, b, 1, []))
      && Step(rules, Pair(rules, one, Take, b, 1, []), Advance(1, YES)) == Some(Pair(rules, one, ReadHolder, b, 1, []))
      && Step(rules, Pair(rules, one, ReadHolder, b, 1, []), Advance(1, YES))
           == Some(Pair(rules, one, Discard(Seen(rules), 2), b, 1, []))
  {
    var b := Abandoned(rules);
    Moves(rules, one, Enter, b, 1, [], Look);
    Moves(rules, one, Look, b, 1, [], Take);
    Moves(rules, one, Take, b, 1, [], ReadHolder);
    Moves(rules, one, ReadHolder, b, 1, [], Discard(Seen(rules), 2));
  }

  function Discarded(rules: Rules, version: nat, lock: Lock): Event {
    Removed(rules.idOf(PATH), Stored(version, Some(lock)), Seen(rules), Taker(Some(0), 2))
  }

  // The second takes the lock over, and then the first discards what the second took.
  lemma FreshLockIsDiscarded(rules: Rules)
    requires rules.backend.Local? && !rules.alone
    ensures var d, id := Discard(Seen(rules), 2), rules.idOf(PATH);
      var gone := Discarded(rules, 0, Named(rules, 0, "old"));
      var taken := map[id := Stored(1, Some(Named(rules, 2, "new")))];
      && Step(rules, Pair(rules, d, d, Abandoned(rules), 1, []), Advance(1, YES)) == Some(Pair(rules, d, TakeAgain, map[], 1, [gone]))
      && Step(rules, Pair(rules, d, TakeAgain, map[], 1, [gone]), Advance(1, YES))
           == Some(Pair(rules, d, Created(true), taken, 2, [gone, Granted(id, 1)]))
      && Step(rules, Pair(rules, d, Created(true), taken, 2, [gone, Granted(id, 1)]), Advance(0, YES))
           == Some(Pair(rules, TakeAgain, Created(true), map[], 2,
                        [gone, Granted(id, 1), Discarded(rules, 1, Named(rules, 2, "new"))]))
  {
    var d, id := Discard(Seen(rules), 2), rules.idOf(PATH);
    var gone := Discarded(rules, 0, Named(rules, 0, "old"));
    var taken := map[id := Stored(1, Some(Named(rules, 2, "new")))];
    Moves(rules, d, d, map[], 1, [gone], TakeAgain);
    Moves(rules, d, TakeAgain, taken, 2, [gone, Granted(id, 1)], Created(true));
    Moves(rules, d, Created(true), map[], 2, [gone, Granted(id, 1), Discarded(rules, 1, Named(rules, 2, "new"))], TakeAgain);
    assert Abandoned(rules) - {id} == map[] && taken - {id} == map[];
    var none: map<string, Stored> := map[];
    assert none[id := Stored(1, Some(Named(rules, 2, "new")))] == taken;
    assert [] + [gone] == [gone];
    assert [gone] + [Granted(id, 1)] == [gone, Granted(id, 1)];
    assert [gone, Granted(id, 1)] + [Discarded(rules, 1, Named(rules, 2, "new"))]
        == [gone, Granted(id, 1), Discarded(rules, 1, Named(rules, 2, "new"))];
  }

  lemma TwoArrive(rules: Rules) returns (states: seq<State>, actions: seq<Action>)
    requires rules.backend.Local? && !rules.alone
    ensures Run(rules, states, actions) && states[|actions|] == Pair(rules, Enter, Enter, Abandoned(rules), 1, [])
  {
    var s0 := State(Abandoned(rules), 1, map[], []);
    var s1 := State(Abandoned(rules), 1, map[0 := Taking(rules, 0, Enter)], []);
    states, actions := [s0], [];
    assert s0.procs[0 := Taking(rules, 0, Enter)] == s1.procs;
    states, actions := Extend(rules, states, actions, Start(0, Taking(rules, 0, Enter)), s1);
    assert s1.procs[1 := Taking(rules, 1, Enter)] == Pair(rules, Enter, Enter, Abandoned(rules), 1, []).procs;
    states, actions := Extend(rules, states, actions, Start(1, Taking(rules, 1, Enter)),
      Pair(rules, Enter, Enter, Abandoned(rules), 1, []));
  }

  // Two processes over one directory can discard a lock just taken.
  lemma DirectoryNeedsOneProcess(rules: Rules) returns (states: seq<State>, actions: seq<Action>)
    requires !Ordered(rules)
    ensures Run(rules, states, actions) && !Safe(states[|actions|].log)
  {
    var b, d, id := Abandoned(rules), Discard(Seen(rules), 2), rules.idOf(PATH);
    var gone := Discarded(rules, 0, Named(rules, 0, "old"));
    var taken := map[id := Stored(1, Some(Named(rules, 2, "new")))];
    states, actions := TwoArrive(rules);
    FirstFindsItStale(rules, Enter);
    SecondFindsItStale(rules, d);
    FreshLockIsDiscarded(rules);
    hide Step, Run, Safe;
    states, actions := Extend(rules, states, actions, Advance(0, YES), Pair(rules, Look, Enter, b, 1, []));
    states, actions := Extend(rules, states, actions, Advance(0, YES), Pair(rules, Take, Enter, b, 1, []));
    states, actions := Extend(rules, states, actions, Advance(0, YES), Pair(rules, ReadHolder, Enter, b, 1, []));
    states, actions := Extend(rules, states, actions, Advance(0, YES), Pair(rules, d, Enter, b, 1, []));
    states, actions := Extend(rules, states, actions, Advance(1, YES), Pair(rules, d, Look, b, 1, []));
    states, actions := Extend(rules, states, actions, Advance(1, YES), Pair(rules, d, Take, b, 1, []));
    states, actions := Extend(rules, states, actions, Advance(1, YES), Pair(rules, d, ReadHolder, b, 1, []));
    states, actions := Extend(rules, states, actions, Advance(1, YES), Pair(rules, d, d, b, 1, []));
    states, actions := Extend(rules, states, actions, Advance(1, YES), Pair(rules, d, TakeAgain, map[], 1, [gone]));
    states, actions := Extend(rules, states, actions, Advance(1, YES), Pair(rules, d, Created(true), taken, 2, [gone, Granted(id, 1)]));
    var log := [gone, Granted(id, 1), Discarded(rules, 1, Named(rules, 2, "new"))];
    states, actions := Extend(rules, states, actions, Advance(0, YES), Pair(rules, TakeAgain, Created(true), map[], 2, log));
    assert !Safe(log) by { Unsafe(log, 2); }
  }

  lemma Unsafe(log: seq<Event>, i: nat)
    requires i < |log| && log[i].Removed? && !Entitled(log[i])
    ensures !Safe(log)
  {
  }

  // So locks are safe in every run exactly where deletes are conditional or one
  // process has the directory to itself.
  lemma SafeExactlyWhenOrdered(rules: Rules)
    ensures Ordered(rules) <==>
      (forall states: seq<State>, actions: seq<Action> :: Run(rules, states, actions) ==> Safe(states[|actions|].log))
  {
    hide Step, Safe, Genesis, LogOk;
    if Ordered(rules) {
      forall states: seq<State>, actions: seq<Action> | Run(rules, states, actions) ensures Safe(states[|actions|].log) {
        RunInv(rules, states, actions, |actions|);
        LogIsSafe(states[|actions|]);
      }
    } else {
      var states, actions := DirectoryNeedsOneProcess(rules);
    }
  }

  lemma LogIsSafe(s: State)
    requires LogOk(s)
    ensures Safe(s.log)
  {
  }
}
