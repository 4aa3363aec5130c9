/**
 What those who ask for a lock, or ask to open one, are told, and what it is worth.
 */
module LockAnswers {
  import opened Wrappers
  import opened LockProtocol
  import opened LockSafety
  import opened LockTheorems

  // ----- An answer and what was done -----

  // A request that ends with its create being told it has the lock.
  ghost predicate ToldYes(s: State, s': State, pid: nat) {
    && pid in s.procs && s.procs[pid].Create? && !s.procs[pid].createAt.Created?
    && pid in s'.procs && s'.procs[pid] == s.procs[pid].(createAt := Created(true))
  }

  // The lock is written, where there was none, and the grant logged.
  ghost predicate Grants(s: State, s': State, lock: Lock, version: nat) {
    && lock.id !in s.store && s'.store == s.store[lock.id := Stored(version, Some(lock))]
    && s'.log == s.log + [Granted(lock.id, version)]
  }

  lemma TakeAnswers(rules: Rules, s: State, pid: nat, p: Proc, c: Choice, next: CreateAt)
    requires pid in s.procs && s.procs[pid] == p && p.Create? && !p.createAt.Created? && !next.Created?
    ensures var s' := TakeStep(rules, s, pid, p, c, next);
      && (ToldYes(s, s', pid) ==> Grants(s, s', p.lock, s.next))
      && (s'.log == s.log || ToldYes(s, s', pid))
  {
  }

  // Whoever is told they have the lock had it written by that very request, and
  // whoever had it written, and was answered, is told.
  lemma CreateAnswers(rules: Rules, s: State, pid: nat, c: Choice)
    requires pid in s.procs && s.procs[pid].Create? && CreateStep(rules, s, pid, s.procs[pid], c).Some?
    ensures var s' := CreateStep(rules, s, pid, s.procs[pid], c).value;
      && (ToldYes(s, s', pid) ==> Grants(s, s', s.procs[pid].lock, s.next))
      && (s'.log == s.log || s'.log[|s.log|].Removed? || ToldYes(s, s', pid))
  {
    hide StaleFor, ReadLock, Shut, Removes, TakeStep, Grants;
    var p := s.procs[pid];
    match p.createAt {
      case Take => TakeAnswers(rules, s, pid, p, c, ReadHolder);
      case TakeAgain => TakeAnswers(rules, s, pid, p, c, ReadWinner);
      case _ =>
    }
  }

  lemma OnlyOneMoves(rules: Rules, s: State, pid: nat, c: Choice, q: nat)
    requires Step(rules, s, Advance(pid, c)).Some? && q != pid
    ensures !ToldYes(s, Step(rules, s, Advance(pid, c)).value, q)
  {
    hide StaleFor, ReadLock, Shut, Removes, MayOpen;
  }

  lemma UnlockGrantsNothing(rules: Rules, s: State, pid: nat, c: Choice)
    requires pid in s.procs && s.procs[pid].Unlock? && UnlockStep(rules, s, pid, s.procs[pid], c).Some?
    ensures var s' := UnlockStep(rules, s, pid, s.procs[pid], c).value;
      (s'.log == s.log || s'.log[|s.log|].Removed?) && !ToldYes(s, s', pid)
  {
    hide MayOpen, ReadLock, Shut, Removes;
  }

  // In any step of anybody a create is told yes if and only if a lock is granted, and
  // it is its own.
  lemma YesIsAGrant(rules: Rules, s: State, a: Action, pid: nat)
    requires Step(rules, s, a).Some?
    ensures var s' := Step(rules, s, a).value;
      && (ToldYes(s, s', pid) <==>
           && a.Advance? && a.pid == pid && pid in s.procs && s.procs[pid].Create?
           && exists v :: Grants(s, s', s.procs[pid].lock, v))
      && ((exists id, v :: s'.log == s.log + [Granted(id, v)]) <==> a.Advance? && ToldYes(s, s', a.pid))
  {
    hide CreateStep, UnlockStep, ToldYes;
    match a
    case Start(q, p) => NobodyIsTold(s, Step(rules, s, a).value);
    case Stop(q) => NobodyIsTold(s, Step(rules, s, a).value);
    case Advance(q, c) =>
      if q != pid { OnlyOneMoves(rules, s, q, c, pid); }
      if s.procs[q].Create? { CreateAnswers(rules, s, q, c); } else { UnlockGrantsNothing(rules, s, q, c); }
  }

  lemma NobodyIsTold(s: State, s': State)
    requires forall q | q in s.procs && q in s'.procs :: s'.procs[q] == s.procs[q]
    ensures forall q :: !ToldYes(s, s', q)
  {
  }

  // An unlock is told yes if and only if that request removed what it had read, and
  // was answered.
  lemma UnlockAnswers(rules: Rules, s: State, pid: nat, c: Choice)
    requires pid in s.procs && s.procs[pid].Unlock? && UnlockStep(rules, s, pid, s.procs[pid], c).Some?
    ensures var p, s' := s.procs[pid], UnlockStep(rules, s, pid, s.procs[pid], c).value;
      s'.procs[pid] == p.(unlockAt := Opened(true)) <==>
        && c.ok && p.unlockAt.Release? && p.unlockAt.held.lock.id in s.store
        && s'.store == s.store - {p.unlockAt.held.lock.id}
        && s'.log == s.log + [Removed(p.unlockAt.held.lock.id, s.store[p.unlockAt.held.lock.id], p.unlockAt.held,
                                      Unlocker(p.actor, p.force, p.admin))]
  {
    hide MayOpen, ReadLock, Shut;
    var s' := UnlockStep(rules, s, pid, s.procs[pid], c).value;
    forall e: Event ensures s.log != s.log + [e] {
      assert |s.log| != |s.log + [e]|;
    }
  }

  // ----- Over runs -----

  lemma OneEntryAStep(rules: Rules, s: State, a: Action)
    requires Step(rules, s, a).Some?
    ensures var s' := Step(rules, s, a).value; s'.log == s.log || exists e :: s'.log == s.log + [e]
  {
    hide StaleFor, ReadLock, Shut, Removes, MayOpen;
    var s' := Step(rules, s, a).value;
    if s'.log != s.log { assert s'.log == s.log + [s'.log[|s.log|]]; }
  }

  lemma {:induction false} LogGrows(rules: Rules, states: seq<State>, actions: seq<Action>, m: nat, n: nat)
    requires Run(rules, states, actions) && m <= n < |states|
    ensures states[m].log <= states[n].log
  {
    hide Step, Genesis;
    if m < n {
      LogGrows(rules, states, actions, m, n - 1);
      assert Step(rules, states[n - 1], actions[n - 1]) == Some(states[n - 1 + 1]);
      OneEntryAStep(rules, states[n - 1], actions[n - 1]);
    }
  }

  // What is in the log got there in one step.
  lemma {:induction false} LoggedAt(rules: Rules, states: seq<State>, actions: seq<Action>, m: nat, n: nat, x: nat)
    returns (k: nat)
    requires Run(rules, states, actions) && m <= n < |states| && |states[m].log| <= x < |states[n].log|
    ensures m <= k < n && states[k + 1].log == states[k].log + [states[n].log[x]]
  {
    hide Step, Genesis;
    assert Step(rules, states[n - 1], actions[n - 1]) == Some(states[n - 1 + 1]);
    OneEntryAStep(rules, states[n - 1], actions[n - 1]);
    if x < |states[n - 1].log| {
      k := LoggedAt(rules, states, actions, m, n - 1, x);
    } else {
      k := n - 1;
    }
  }

  lemma YesInARun(rules: Rules, states: seq<State>, actions: seq<Action>, m: nat, p: nat) returns (v: nat)
    requires Run(rules, states, actions) && m < |actions| && ToldYes(states[m], states[m + 1], p)
    ensures Grants(states[m], states[m + 1], states[m].procs[p].lock, v)
  {
    hide Step, Genesis, ToldYes;
    assert Step(rules, states[m], actions[m]) == Some(states[m + 1]);
    YesIsAGrant(rules, states[m], actions[m], p);
    v :| Grants(states[m], states[m + 1], states[m].procs[p].lock, v);
  }

  // The step in which the first grant was undone.
  lemma RemovedInBetween(rules: Rules, states: seq<State>, actions: seq<Action>, m: nat, n: nat, id: string, v: nat, w: nat)
    returns (k: nat)
    requires Ordered(rules) && Run(rules, states, actions) && m < n < |actions|
    requires states[m + 1].log == states[m].log + [Granted(id, v)] && states[n + 1].log == states[n].log + [Granted(id, w)]
    ensures m < k < n && |states[k + 1].log| == |states[k].log| + 1 && Removal(states[k + 1].log[|states[k].log|], id, v)
  {
    assert |states| == |actions| + 1;
    hide Run, Removal, Ordered;
    LogGrows(rules, states, actions, m + 1, n);
    var i, j := |states[m].log|, |states[n].log|;
    Places(states[m].log, states[m + 1].log, states[n].log, states[n + 1].log, Granted(id, v), Granted(id, w));
    GrantsAreApart(rules, states, actions, n + 1, i, j);
    var x :| i < x < j && Removal(states[n + 1].log[x], states[n + 1].log[i].id, states[n + 1].log[i].version);
    assert states[n + 1].log[x] == states[n].log[x];
    k := LoggedAt(rules, states, actions, m + 1, n, x);
  }

  lemma Places(a: seq<Event>, b: seq<Event>, c: seq<Event>, d: seq<Event>, e: Event, f: Event)
    requires b == a + [e] && b <= c && d == c + [f]
    ensures |a| < |c| < |d| && d[|a|] == e && d[|c|] == f && forall x | |a| < x < |c| :: d[x] == c[x]
  {
  }

  // Two who are told they have one lock do not have it together: in between a request
  // removed the very version the first was told of.
  lemma AnswersAreApart(rules: Rules, states: seq<State>, actions: seq<Action>, m: nat, n: nat, p: nat, q: nat)
    requires Ordered(rules) && Run(rules, states, actions) && m < n < |actions|
    requires ToldYes(states[m], states[m + 1], p) && ToldYes(states[n], states[n + 1], q)
    requires states[m].procs[p].lock.id == states[n].procs[q].lock.id
    ensures var lock := states[m].procs[p].lock;
      exists v, k ::
        && m < k < n && lock.id in states[m + 1].store && states[m + 1].store[lock.id] == Stored(v, Some(lock))
        && |states[k + 1].log| == |states[k].log| + 1 && Removal(states[k + 1].log[|states[k].log|], lock.id, v)
  {
    assert |states| == |actions| + 1;
    hide Run, Removal;
    var v := YesInARun(rules, states, actions, m, p);
    var w := YesInARun(rules, states, actions, n, q);
    var k := RemovedInBetween(rules, states, actions, m, n, states[m].procs[p].lock.id, v, w);
  }

  // ----- Every request is one of few -----

  // How many more requests it can make at most.
  function Left(p: Proc): nat {
    match p
    case Create(_, _, _, at) =>
      (match at
       case Enter => 8
       case Look => 7
       case Count => 6
       case Take => 5
       case ReadHolder => 4
       case Discard(_, _) => 3
       case TakeAgain => 2
       case ReadWinner => 1
       case Created(_) => 0)
    case Unlock(_, _, _, _, _, at) =>
      match at
      case Knock => 3
      case Read => 2
      case Release(_) => 1
      case Opened(_) => 0
  }

  lemma TakesRunOut(rules: Rules, s: State, pid: nat, p: Proc, c: Choice, next: CreateAt)
    requires pid in s.procs && p.Create? && Left(p.(createAt := next)) < Left(p) && Left(p) > 0
    ensures var s' := TakeStep(rules, s, pid, p, c, next); pid in s'.procs && Left(s'.procs[pid]) < Left(p)
  {
  }

  lemma CreatesRunOut(rules: Rules, s: State, pid: nat, c: Choice)
    requires pid in s.procs && s.procs[pid].Create?
    ensures var p, s' := s.procs[pid], CreateStep(rules, s, pid, s.procs[pid], c);
      && (s'.Some? ==> pid in s'.value.procs && Left(s'.value.procs[pid]) < Left(p))
      && (s'.None? <==> Left(p) == 0 || (Shut(rules, s, p) && p.createAt == Enter))
  {
    hide Shut, StaleFor, ReadLock, Removes, TakeStep, Remove;
    var p := s.procs[pid];
    match p.createAt {
      case Take => TakesRunOut(rules, s, pid, p, c, ReadHolder);
      case TakeAgain => TakesRunOut(rules, s, pid, p, c, ReadWinner);
      case _ =>
    }
  }

  lemma UnlocksRunOut(rules: Rules, s: State, pid: nat, c: Choice)
    requires pid in s.procs && s.procs[pid].Unlock?
    ensures var p, s' := s.procs[pid], UnlockStep(rules, s, pid, s.procs[pid], c);
      && (s'.Some? ==> pid in s'.value.procs && Left(s'.value.procs[pid]) < Left(p))
      && (s'.None? <==> Left(p) == 0 || (Shut(rules, s, p) && p.unlockAt == Knock))
  {
    hide Shut, MayOpen, ReadLock, Removes;
  }

  // Whoever asks is told within eight requests, an unlock within three, answered or
  // not, and is kept waiting at the gate and nowhere else.  One that stops is gone.
  lemma RequestsRunOut(rules: Rules, s: State, pid: nat, c: Choice)
    requires pid in s.procs
    ensures var p, s' := s.procs[pid], Step(rules, s, Advance(pid, c));
      && (s'.Some? ==> pid in s'.value.procs && Left(s'.value.procs[pid]) < Left(p))
      && (s'.None? <==> Left(p) == 0 || (Shut(rules, s, p) && if p.Create? then p.createAt == Enter else p.unlockAt == Knock))
    ensures Step(rules, s, Stop(pid)) == Some(State(s.store, s.next, s.procs - {pid}, s.log))
  {
    hide Shut, CreateStep, UnlockStep, Left;
    if s.procs[pid].Create? { CreatesRunOut(rules, s, pid, c); } else { UnlocksRunOut(rules, s, pid, c); }
  }

  // ----- With nobody in between -----

  // The rest of a request with everything answered.
  function Drive(rules: Rules, s: State, pid: nat, c: Choice, n: nat): State
    decreases n
  {
    if n == 0 then s
    else match Step(rules, s, Advance(pid, c))
      case None => s
      case Some(s') => Drive(rules, s', pid, c, n - 1)
  }

  // How a create ends: with the lock written, or with nothing changed.
  ghost predicate Ends(s: State, t: State, pid: nat, granted: bool)
    requires pid in s.procs && s.procs[pid].Create?
  {
    var p := s.procs[pid];
    && pid in t.procs && t.procs[pid] == p.(createAt := Created(granted))
    && t.store == if granted then s.store[p.lock.id := Stored(s.next, Some(p.lock))] else s.store
  }

  lemma {:induction false} NoFurther(rules: Rules, s: State, pid: nat, c: Choice, n: nat)
    requires pid in s.procs && s.procs[pid].Create? && s.procs[pid].createAt.Created?
    ensures Drive(rules, s, pid, c, n) == s
  {
  }

  lemma TakeEnds(rules: Rules, s: State, pid: nat, c: Choice, n: nat)
    requires pid in s.procs && s.procs[pid].Create? && c.ok && n >= 1
    requires s.procs[pid].createAt.Take? || s.procs[pid].createAt.TakeAgain?
    requires s.procs[pid].lock.id !in s.store || (rules.backend.Bucket? && !rules.arbitrates)
    ensures Ends(s, Drive(rules, s, pid, c, n), pid, rules.backend.Local? || rules.arbitrates)
  {
    hide Drive;
    var s' := Step(rules, s, Advance(pid, c)).value;
    DriveOn(rules, s, pid, c, n);
    NoFurther(rules, s', pid, c, n - 1);
  }

  lemma DriveOn(rules: Rules, s: State, pid: nat, c: Choice, n: nat)
    requires n > 0 && Step(rules, s, Advance(pid, c)).Some?
    ensures Drive(rules, s, pid, c, n) == Drive(rules, Step(rules, s, Advance(pid, c)).value, pid, c, n - 1)
  {
    hide Step;
  }

  // The one condition under which a lock somebody has is given to another.
  predicate Abandoned(lock: Lock, maxAge: Option<nat>, now: int) {
    maxAge.Some? && lock.lockedAt.Some? && now - lock.lockedAt.value > maxAge.value
  }

  lemma HolderDecides(rules: Rules, s: State, pid: nat, c: Choice, n: nat)
    requires StoreOk(s) && pid in s.procs && s.procs[pid].Create? && c.ok && n >= 3
    requires s.procs[pid].createAt.ReadHolder? && s.procs[pid].lock.id in s.store && (rules.backend.Local? || rules.arbitrates)
    ensures var p := s.procs[pid]; var body := s.store[p.lock.id].body;
      Ends(s, Drive(rules, s, pid, c, n), pid, body.Some? && Abandoned(body.value, p.maxAge, c.now))
  {
    hide Drive;
    var p := s.procs[pid];
    var body := s.store[p.lock.id].body;
    var s1 := Step(rules, s, Advance(pid, c)).value;
    DriveOn(rules, s, pid, c, n);
    if body.Some? && Abandoned(body.value, p.maxAge, c.now) {
      var s2 := Step(rules, s1, Advance(pid, c)).value;
      DriveOn(rules, s1, pid, c, n - 1);
      assert s2.store == s.store - {p.lock.id};
      TakeEnds(rules, s2, pid, c, n - 2);
      assert s2.store[p.lock.id := Stored(s.next, Some(p.lock))] == s.store[p.lock.id := Stored(s.next, Some(p.lock))];
    } else {
      NoFurther(rules, s1, pid, c, n - 1);
    }
  }

  // Nobody else in its process is behind the gate it goes through.
  ghost predicate Free(rules: Rules, s: State, pid: nat)
    requires pid in s.procs
  {
    forall q | q in s.procs && s.procs[q].replica == s.procs[pid].replica
      && rules.slot(s.procs[q].Id()) == rules.slot(s.procs[pid].Id()) :: !s.procs[q].Inside()
  }

  lemma NotHeldUp(rules: Rules, s: State, pid: nat)
    requires pid in s.procs && Free(rules, s, pid)
    ensures !Shut(rules, s, s.procs[pid])
  {
  }

  // A create is taken up for a path of one to 4096 bytes, under the id the path hashes
  // to, and puts down who is asking by id.
  lemma TakenUpExactlyWhen(rules: Rules, s: State, pid: nat, replica: nat, maxAge: Option<nat>, lock: Lock)
    requires pid !in s.procs && (rules.alone ==> replica == 0)
    ensures Step(rules, s, Start(pid, Create(replica, maxAge, lock, Enter))).Some? <==>
      1 <= |lock.path| <= 4096 && lock.id == rules.idOf(lock.path) && lock.owner.id.Some?
  {
  }

  // A create that nobody comes between, every request of it answered: the lock is its
  // own if there was none and room for one, or if the one there was abandoned.
  lemma AloneItIsDecided(rules: Rules, s: State, pid: nat, c: Choice, n: nat)
    requires StoreOk(s) && pid in s.procs && s.procs[pid].Create? && s.procs[pid].createAt == Enter
    requires Free(rules, s, pid) && c.ok && n >= 7
    ensures var p := s.procs[pid];
      Ends(s, Drive(rules, s, pid, c, n), pid,
        && (rules.backend.Local? || rules.arbitrates)
        && if p.lock.id !in s.store then |s.store| < rules.capacity
           else s.store[p.lock.id].body.Some? && Abandoned(s.store[p.lock.id].body.value, p.maxAge, c.now))
  {
    hide Drive, StaleFor, Shut, Abandoned, Free;
    NotHeldUp(rules, s, pid);
    var s' := Step(rules, s, Advance(pid, c)).value;
    DriveOn(rules, s, pid, c, n);
    LookDecides(rules, s', pid, c, n - 1);
  }

  lemma LookDecides(rules: Rules, s: State, pid: nat, c: Choice, n: nat)
    requires StoreOk(s) && pid in s.procs && s.procs[pid].Create? && s.procs[pid].createAt == Look && c.ok && n >= 6
    ensures var p := s.procs[pid];
      Ends(s, Drive(rules, s, pid, c, n), pid,
        && (rules.backend.Local? || rules.arbitrates)
        && if p.lock.id !in s.store then |s.store| < rules.capacity
           else s.store[p.lock.id].body.Some? && Abandoned(s.store[p.lock.id].body.value, p.maxAge, c.now))
  {
    hide Drive, StaleFor, Shut, Abandoned;
    var s1 := Step(rules, s, Advance(pid, c)).value;
    DriveOn(rules, s, pid, c, n);
    if s1.procs[pid].createAt.Take? {
      ArrivesAtTake(rules, s1, pid, c, n - 1);
    } else {
      var s2 := Step(rules, s1, Advance(pid, c)).value;
      DriveOn(rules, s1, pid, c, n - 1);
      if s2.procs[pid].createAt.Take? {
        ArrivesAtTake(rules, s2, pid, c, n - 2);
      } else {
        NoFurther(rules, s2, pid, c, n - 2);
      }
    }
  }

  lemma ArrivesAtTake(rules: Rules, s: State, pid: nat, c: Choice, n: nat)
    requires StoreOk(s) && pid in s.procs && s.procs[pid].Create? && c.ok && s.procs[pid].createAt.Take?
    requires n >= 4
    ensures var p := s.procs[pid];
      Ends(s, Drive(rules, s, pid, c, n), pid,
        && (rules.backend.Local? || rules.arbitrates)
        && (p.lock.id !in s.store
            || (s.store[p.lock.id].body.Some? && Abandoned(s.store[p.lock.id].body.value, p.maxAge, c.now))))
  {
    hide Drive, StaleFor, Shut, Abandoned;
    if s.procs[pid].lock.id !in s.store || (rules.backend.Bucket? && !rules.arbitrates) {
      TakeEnds(rules, s, pid, c, n);
    } else {
      var s' := Step(rules, s, Advance(pid, c)).value;
      DriveOn(rules, s, pid, c, n);
      HolderDecides(rules, s', pid, c, n - 1);
    }
  }

  // And an unlock: it opens what can be read and is its actor's own, by id or, where
  // the lock names none, by name; anybody's, if an admin forces it.
  lemma AloneItOpens(rules: Rules, s: State, pid: nat, c: Choice, n: nat)
    requires StoreOk(s) && pid in s.procs && s.procs[pid].Unlock? && s.procs[pid].unlockAt == Knock
    requires Free(rules, s, pid) && c.ok && n >= 3
    ensures var p, t := s.procs[pid], Drive(rules, s, pid, c, n);
      var opens := p.id in s.store && s.store[p.id].body.Some? && var owner := s.store[p.id].body.value.owner;
        owner.id == Some(p.actor.id) || (owner.id.None? && owner.name == p.actor.login) || (p.force && p.admin);
      && pid in t.procs && t.procs[pid] == p.(unlockAt := Opened(opens))
      && t.store == if opens then s.store - {p.id} else s.store
  {
    hide Drive, Shut, MayOpen, ReadLock, Removes, Free;
    NotHeldUp(rules, s, pid);
    var s' := Step(rules, s, Advance(pid, c)).value;
    DriveOn(rules, s, pid, c, n);
    ReadDecides(rules, s', pid, c, n - 1);
  }

  lemma WhoMayOpen(p: Proc, lock: Lock)
    requires p.Unlock?
    ensures MayOpen(lock, p.actor, p.force, p.admin) <==>
      lock.owner.id == Some(p.actor.id) || (lock.owner.id.None? && lock.owner.name == p.actor.login) || (p.force && p.admin)
  {
  }

  lemma ReadDecides(rules: Rules, s: State, pid: nat, c: Choice, n: nat)
    requires StoreOk(s) && pid in s.procs && s.procs[pid].Unlock? && s.procs[pid].unlockAt == Read && c.ok && n >= 2
    ensures var p, t := s.procs[pid], Drive(rules, s, pid, c, n);
      var opens := p.id in s.store && s.store[p.id].body.Some? && var owner := s.store[p.id].body.value.owner;
        owner.id == Some(p.actor.id) || (owner.id.None? && owner.name == p.actor.login) || (p.force && p.admin);
      && pid in t.procs && t.procs[pid] == p.(unlockAt := Opened(opens))
      && t.store == if opens then s.store - {p.id} else s.store
  {
    hide Drive, Shut, MayOpen;
    if ReadLock(s, s.procs[pid].id).Some? { WhoMayOpen(s.procs[pid], s.store[s.procs[pid].id].body.value); }
    var s' := Step(rules, s, Advance(pid, c)).value;
    DriveOn(rules, s, pid, c, n);
    if s'.procs[pid].unlockAt.Release? {
      DriveOn(rules, s', pid, c, n - 1);
      Opens(rules, Step(rules, s', Advance(pid, c)).value, pid, c, n - 2);
    } else {
      Opens(rules, s', pid, c, n - 1);
    }
  }

  lemma {:induction false} Opens(rules: Rules, s: State, pid: nat, c: Choice, n: nat)
    requires pid in s.procs && s.procs[pid].Unlock? && s.procs[pid].unlockAt.Opened?
    ensures Drive(rules, s, pid, c, n) == s
  {
  }
}
