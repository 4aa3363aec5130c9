/**
 What the lock protocol keeps at every request of every interleaving.
 */
module LockSafety {
  import opened Wrappers
  import opened LockProtocol

  // What a process means to remove: read under this version, and still what that
  // version holds.
  ghost predicate HeldOk(s: State, held: Held) {
    && held.version < s.next
    && (held.lock.id in s.store && s.store[held.lock.id].version == held.version ==>
         s.store[held.lock.id].body == Some(held.lock))
  }

  // Where only the gate orders the callers, what is behind it has not moved.
  ghost predicate Unmoved(rules: Rules, s: State, held: Held) {
    rules.backend.Local? ==> held.lock.id in s.store && s.store[held.lock.id].version == held.version
  }

  ghost predicate ProcOk(rules: Rules, s: State, p: Proc) {
    && (rules.alone ==> p.replica == 0)
    && match p
       case Create(_, maxAge, lock, Discard(held, now)) =>
         held.lock.id == lock.id && HeldOk(s, held) && Unmoved(rules, s, held) && StaleFor(held.lock, maxAge, now).Some?
       case Unlock(_, actor, force, admin, id, Release(held)) =>
         held.lock.id == id && HeldOk(s, held) && Unmoved(rules, s, held) && MayOpen(held.lock, actor, force, admin)
       case _ => true
  }

  // One request of a process behind one gate.
  ghost predicate Gated(rules: Rules, s: State) {
    forall p, q | p in s.procs && q in s.procs && p != q && s.procs[p].Inside() && s.procs[q].Inside() ::
      s.procs[p].replica != s.procs[q].replica || rules.slot(s.procs[p].Id()) != rules.slot(s.procs[q].Id())
  }

  ghost predicate StoreOk(s: State) {
    forall id | id in s.store ::
      s.store[id].version < s.next && (s.store[id].body.Some? ==> s.store[id].body.value.id == id)
  }

  // A grant stands until the version it wrote is removed.
  ghost predicate Stands(s: State, i: nat)
    requires i < |s.log| && s.log[i].Granted?
  {
    (s.log[i].id in s.store && s.store[s.log[i].id].version == s.log[i].version)
    || RemovedBetween(s.log, i, |s.log|, s.log[i].id, s.log[i].version)
  }

  ghost predicate LogOk(s: State) {
    Safe(s.log) && forall i | 0 <= i < |s.log| && s.log[i].Granted? :: Stands(s, i)
  }

  ghost predicate Inv(rules: Rules, s: State) {
    && StoreOk(s)
    && LogOk(s)
    && Gated(rules, s)
    && (forall q | q in s.procs :: ProcOk(rules, s, s.procs[q]))
  }

  // Safe where a delete is conditional, or where one process has the store.
  predicate Ordered(rules: Rules) {
    rules.backend.Bucket? || rules.alone
  }

  // ----- The store and the log -----

  lemma PutKeepsLog(s: State, lock: Lock, answered: bool)
    requires StoreOk(s) && LogOk(s) && lock.id !in s.store
    ensures StoreOk(Put(s, lock, answered)) && LogOk(Put(s, lock, answered))
  {
    var s' := Put(s, lock, answered);
    forall i | 0 <= i < |s.log| && s.log[i].Granted? ensures Stands(s', i) {
      assert Stands(s, i);
      if RemovedBetween(s.log, i, |s.log|, s.log[i].id, s.log[i].version) {
        CarriesOver(s.log, s'.log, i, |s.log|, |s'.log|);
      }
    }
    forall i, j | 0 <= i < j < |s'.log| && s'.log[i].Granted? && s'.log[j].Granted? && s'.log[i].id == s'.log[j].id
      ensures RemovedBetween(s'.log, i, j, s'.log[i].id, s'.log[i].version)
    {
      assert s'.log[i] == s.log[i];
      if j < |s.log| {
        CarriesOver(s.log, s'.log, i, j, j);
      } else {
        assert Stands(s, i);
        CarriesOver(s.log, s'.log, i, |s.log|, j);
      }
    }
  }

  lemma CarriesOver(log: seq<Event>, log': seq<Event>, i: nat, j: nat, j': nat)
    requires i < |log| && log <= log' && j <= j' && j <= |log| && log[i].Granted?
    requires RemovedBetween(log, i, j, log[i].id, log[i].version)
    ensures RemovedBetween(log', i, j', log'[i].id, log'[i].version)
  {
    var k :| i < k < j && k < |log| && Removal(log[k], log[i].id, log[i].version);
    assert Removal(log'[k], log'[i].id, log'[i].version);
  }

  lemma RemoveKeepsLog(s: State, held: Held, remover: Remover)
    requires StoreOk(s) && LogOk(s) && held.lock.id in s.store
    requires Entitled(Removed(held.lock.id, s.store[held.lock.id], held, remover))
    ensures StoreOk(Remove(s, held, remover)) && LogOk(Remove(s, held, remover))
  {
    var s' := Remove(s, held, remover);
    forall i | 0 <= i < |s'.log| && s'.log[i].Granted? ensures Stands(s', i) {
      assert Stands(s, i);
      if RemovedBetween(s.log, i, |s.log|, s.log[i].id, s.log[i].version) {
        CarriesOver(s.log, s'.log, i, |s.log|, |s'.log|);
      } else if s.log[i].id == held.lock.id {
        assert Removal(s'.log[|s.log|], s'.log[i].id, s'.log[i].version);
      }
    }
    forall i, j | 0 <= i < j < |s'.log| && s'.log[i].Granted? && s'.log[j].Granted? && s'.log[i].id == s'.log[j].id
      ensures RemovedBetween(s'.log, i, j, s'.log[i].id, s'.log[i].version)
    {
      CarriesOver(s.log, s'.log, i, j, j);
    }
  }

  // ----- One request -----

  // Only this lock's name is touched: left, emptied, or written under a new version.
  ghost predicate TouchesOnly(s: State, s': State, id: string) {
    && s'.next >= s.next
    && (forall i | i != id :: (i in s'.store <==> i in s.store) && (i in s.store ==> s'.store[i] == s.store[i]))
    && (id in s'.store ==> (id in s.store && s'.store[id] == s.store[id]) || s'.store[id].version >= s.next)
  }

  lemma OthersStayOk(rules: Rules, s: State, s': State, pid: nat, q: nat)
    requires Inv(rules, s) && Ordered(rules) && pid in s.procs && q in s.procs && q != pid
    requires TouchesOnly(s, s', s.procs[pid].Id())
    requires s'.store != s.store ==> s.procs[pid].Inside()
    ensures ProcOk(rules, s', s.procs[q])
  {
    hide Safe, MayOpen, StaleFor, Stands;
    assert ProcOk(rules, s, s.procs[q]) && ProcOk(rules, s, s.procs[pid]);
    var other := s.procs[q];
    if other.Inside() && rules.alone && s'.store != s.store {
      assert rules.slot(s.procs[pid].Id()) != rules.slot(other.Id());
    }
  }

  lemma Assemble(rules: Rules, s: State, s': State, pid: nat)
    requires Inv(rules, s) && Ordered(rules) && pid in s.procs && pid in s'.procs
    requires StoreOk(s') && LogOk(s') && TouchesOnly(s, s', s.procs[pid].Id())
    requires s'.store != s.store ==> s.procs[pid].Inside()
    requires s'.procs == s.procs[pid := s'.procs[pid]]
    requires ProcOk(rules, s', s'.procs[pid])
    requires s'.procs[pid].replica == s.procs[pid].replica && s'.procs[pid].Id() == s.procs[pid].Id()
    requires s'.procs[pid].Inside() ==> s.procs[pid].Inside() || !Shut(rules, s, s.procs[pid])
    ensures Inv(rules, s')
  {
    hide Safe, LogOk, StoreOk, ProcOk, TouchesOnly;
    forall q | q in s'.procs ensures ProcOk(rules, s', s'.procs[q]) {
      if q != pid { OthersStayOk(rules, s, s', pid, q); }
    }
    forall p, q | p in s'.procs && q in s'.procs && p != q && s'.procs[p].Inside() && s'.procs[q].Inside()
      ensures s'.procs[p].replica != s'.procs[q].replica || rules.slot(s'.procs[p].Id()) != rules.slot(s'.procs[q].Id())
    {
      if p == pid { assert q in s.procs; } else if q == pid { assert p in s.procs; }
    }
  }

  // Who is where has no part in what the log promises.
  lemma SameLog(s: State, s': State)
    ensures s'.store == s.store && s'.log == s.log && s'.next == s.next ==>
      (LogOk(s) ==> LogOk(s')) && (StoreOk(s) ==> StoreOk(s'))
  {
    hide Safe;
    if s'.store == s.store && s'.log == s.log && s'.next == s.next && LogOk(s) {
      forall i | 0 <= i < |s'.log| && s'.log[i].Granted? ensures Stands(s', i) {
        assert Stands(s, i);
      }
    }
  }

  lemma ReadIsOk(rules: Rules, s: State, id: string)
    requires StoreOk(s)
    ensures var held := ReadLock(s, id);
      held.Some? ==> held.value.lock.id == id && HeldOk(s, held.value) && Unmoved(rules, s, held.value)
  {
  }

  // What a process removes, it was entitled to.
  lemma RemovalIsEntitled(rules: Rules, s: State, held: Held, remover: Remover)
    requires HeldOk(s, held) && Unmoved(rules, s, held) && Removes(rules, s, held)
    requires match remover
      case Taker(maxAge, now) => StaleFor(held.lock, maxAge, now).Some?
      case Unlocker(actor, force, admin) => MayOpen(held.lock, actor, force, admin)
    ensures Entitled(Removed(held.lock.id, s.store[held.lock.id], held, remover))
  {
  }

  lemma Parts(rules: Rules, s: State, pid: nat)
    requires Inv(rules, s) && pid in s.procs
    ensures StoreOk(s) && LogOk(s) && ProcOk(rules, s, s.procs[pid])
    ensures TouchesOnly(s, s, s.procs[pid].Id())
  {
  }

  lemma Touch(rules: Rules, s: State, held: Held, remover: Remover, lock: Lock, answered: bool)
    ensures lock.id !in s.store ==> TouchesOnly(s, Put(s, lock, answered), lock.id)
    ensures held.lock.id in s.store ==> TouchesOnly(s, Remove(s, held, remover), held.lock.id)
  {
  }

  // A process goes on to p after its request took the store from s to t.
  lemma Proceed(rules: Rules, s: State, t: State, pid: nat, p: Proc)
    requires Inv(rules, s) && Ordered(rules) && pid in s.procs && t.procs == s.procs
    requires StoreOk(t) && LogOk(t) && TouchesOnly(s, t, s.procs[pid].Id())
    requires t.store != s.store ==> s.procs[pid].Inside()
    requires ProcOk(rules, t, p) && p.replica == s.procs[pid].replica && p.Id() == s.procs[pid].Id()
    requires p.Inside() ==> s.procs[pid].Inside() || !Shut(rules, s, s.procs[pid])
    ensures Inv(rules, Become(t, pid, p))
  {
    hide Safe, LogOk, StoreOk, TouchesOnly, Shut, Inv, StaleFor, MayOpen;
    var s' := Become(t, pid, p);
    SameLog(t, s');
    assert TouchesOnly(s, s', s.procs[pid].Id()) by { SameTouch(s, t, s', s.procs[pid].Id()); }
    Assemble(rules, s, s', pid);
  }

  lemma SameTouch(s: State, t: State, t': State, id: string)
    requires TouchesOnly(s, t, id) && t'.store == t.store && t'.next == t.next
    ensures TouchesOnly(s, t', id)
  {
  }

  lemma TakePreserves(rules: Rules, s: State, pid: nat, c: Choice)
    requires Inv(rules, s) && Ordered(rules) && pid in s.procs && s.procs[pid].Create?
    requires s.procs[pid].createAt.Take? || s.procs[pid].createAt.TakeAgain?
    ensures Inv(rules, CreateStep(rules, s, pid, s.procs[pid], c).value)
  {
    hide LogOk, StoreOk, Inv, TouchesOnly, Shut;
    var p := s.procs[pid];
    Parts(rules, s, pid);
    var s' := CreateStep(rules, s, pid, p, c).value;
    var p' := s'.procs[pid];
    if p.lock.id !in s.store && !(rules.backend.Bucket? && !rules.arbitrates) && (c.ok || c.landed) {
      PutKeepsLog(s, p.lock, c.ok);
      Touch(rules, s, Held(0, p.lock), Taker(None, 0), p.lock, c.ok);
      Proceed(rules, s, Put(s, p.lock, c.ok), pid, p');
    } else {
      Proceed(rules, s, s, pid, p');
    }
  }

  lemma CreatePreserves(rules: Rules, s: State, pid: nat, c: Choice)
    requires Inv(rules, s) && Ordered(rules) && pid in s.procs && s.procs[pid].Create?
    requires CreateStep(rules, s, pid, s.procs[pid], c).Some?
    ensures Inv(rules, CreateStep(rules, s, pid, s.procs[pid], c).value)
  {
    hide LogOk, StoreOk, StaleFor, ReadLock, Shut, TakeStep, Entitled, Inv, TouchesOnly, Removes;
    var p := s.procs[pid];
    Parts(rules, s, pid);
    var s' := CreateStep(rules, s, pid, p, c).value;
    ReadIsOk(rules, s, p.lock.id);
    match p.createAt {
      case Take => TakePreserves(rules, s, pid, c);
      case TakeAgain => TakePreserves(rules, s, pid, c);
      case Discard(held, now) =>
        var p' := p.(createAt := if c.ok then TakeAgain else Created(false));
        if Removes(rules, s, held) && (c.ok || c.landed) {
          RemovalPreserves(rules, s, pid, held, Taker(p.maxAge, now), p');
        } else {
          Proceed(rules, s, s, pid, p');
        }
      case Created(_) =>
      case Enter => Proceed(rules, s, s, pid, s'.procs[pid]);
      case Look => Proceed(rules, s, s, pid, s'.procs[pid]);
      case Count => Proceed(rules, s, s, pid, s'.procs[pid]);
      case ReadHolder => Proceed(rules, s, s, pid, s'.procs[pid]);
      case ReadWinner => Proceed(rules, s, s, pid, s'.procs[pid]);
    }
  }

  lemma RemovalPreserves(rules: Rules, s: State, pid: nat, held: Held, remover: Remover, p: Proc)
    requires Inv(rules, s) && Ordered(rules) && pid in s.procs && s.procs[pid].Inside()
    requires held.lock.id == s.procs[pid].Id() && p.replica == s.procs[pid].replica && p.Id() == s.procs[pid].Id()
    requires HeldOk(s, held) && Unmoved(rules, s, held) && Removes(rules, s, held)
    requires match remover
      case Taker(maxAge, now) => StaleFor(held.lock, maxAge, now).Some?
      case Unlocker(actor, force, admin) => MayOpen(held.lock, actor, force, admin)
    requires ProcOk(rules, Remove(s, held, remover), p)
    ensures Inv(rules, Become(Remove(s, held, remover), pid, p))
  {
    hide LogOk, StoreOk, StaleFor, MayOpen, ReadLock, Shut, Entitled, Inv, TouchesOnly, ProcOk;
    Parts(rules, s, pid);
    RemovalIsEntitled(rules, s, held, remover);
    RemoveKeepsLog(s, held, remover);
    Touch(rules, s, held, remover, held.lock, false);
    Proceed(rules, s, Remove(s, held, remover), pid, p);
  }

  lemma UnlockPreserves(rules: Rules, s: State, pid: nat, c: Choice)
    requires Inv(rules, s) && Ordered(rules) && pid in s.procs && s.procs[pid].Unlock?
    requires UnlockStep(rules, s, pid, s.procs[pid], c).Some?
    ensures Inv(rules, UnlockStep(rules, s, pid, s.procs[pid], c).value)
  {
    hide LogOk, StoreOk, MayOpen, ReadLock, Shut, Entitled, Inv, TouchesOnly;
    var p := s.procs[pid];
    Parts(rules, s, pid);
    var p' := UnlockStep(rules, s, pid, p, c).value.procs[pid];
    ReadIsOk(rules, s, p.id);
    match p.unlockAt {
      case Release(held) =>
        if Removes(rules, s, held) && (c.ok || c.landed) {
          RemovalPreserves(rules, s, pid, held, Unlocker(p.actor, p.force, p.admin), p');
        } else {
          Proceed(rules, s, s, pid, p');
        }
      case _ => Proceed(rules, s, s, pid, p');
    }
  }
}
