/**
 Taking and opening locks: creators and unlockers on any number of replicas over
 one store, interleaved one request at a time, each able to stop at any request.

 The store is a directory, where only a process's own gate orders the callers, or a
 bucket, where a write can be made only if nothing is there and a delete only if
 the version read is still the one stored.
 */
module LockProtocol {
  import opened Wrappers

  const MAX_PATH_BYTES: nat := 4096

  datatype Actor = Actor(login: string, id: string)

  datatype Owner = Owner(name: string, id: Option<string>)
  {
    // By id where the lock carries one; by name where it was taken before ids were.
    predicate Is(actor: Actor) {
      match id
      case Some(id) => id == actor.id
      case None => name == actor.login
    }
  }

  // `lockedAt` is the moment the stored date says, if it can be read.
  datatype Lock = Lock(id: string, path: string, lockedAt: Option<int>, owner: Owner)

  // How long a lock has gone untouched, once that is longer than it may.
  function StaleFor(lock: Lock, maxAge: Option<nat>, now: int): Option<nat> {
    match (maxAge, lock.lockedAt)
    case (Some(limit), Some(taken)) =>
      // A lock dated after now is nobody's to take.
      if now - taken >= 0 && now - taken > limit then Some(now - taken) else None
    case _ => None
  }

  datatype Backend = Local | Bucket

  // `alone`: one server process has the store to itself.  `arbitrates`: the bucket
  // refuses a conditional write, as was asked of it at startup.
  datatype Rules = Rules(backend: Backend, alone: bool, arbitrates: bool, capacity: nat, slot: string -> nat,
                         idOf: string -> string)

  // What lies under a lock's name: a version no other write had, and the lock, if
  // the body can be read.
  datatype Stored = Stored(version: nat, body: Option<Lock>)

  datatype Held = Held(version: nat, lock: Lock)

  // ----- Programs -----

  datatype CreateAt =
    | Enter
    | Look
    | Count
    | Take
    | ReadHolder
    | Discard(stale: Held, now: int)
    | TakeAgain
    | ReadWinner
    | Created(granted: bool)

  datatype UnlockAt = Knock | Read | Release(held: Held) | Opened(ok: bool)

  datatype Proc =
    | Create(replica: nat, maxAge: Option<nat>, lock: Lock, createAt: CreateAt)
    | Unlock(replica: nat, actor: Actor, force: bool, admin: bool, id: string, unlockAt: UnlockAt)
  {
    function Id(): string {
      if Create? then lock.id else id
    }

    // Behind the gate of the lock's slot, which is kept until the request is over.
    predicate Inside() {
      if Create? then createAt != Enter && !createAt.Created? else unlockAt != Knock && !unlockAt.Opened?
    }
  }

  // Who removed a lock, and on what grounds.
  datatype Remover = Taker(maxAge: Option<nat>, now: int) | Unlocker(actor: Actor, force: bool, admin: bool)

  datatype Event =
    | Granted(id: string, version: nat)
    | Removed(id: string, stored: Stored, seen: Held, remover: Remover)

  datatype State = State(store: map<string, Stored>, next: nat, procs: map<nat, Proc>, log: seq<Event>)

  // `ok`: the request was answered.  `landed`: one that was not took effect all the
  // same.  `now`: what the replica's clock says.
  datatype Choice = Choice(ok: bool, landed: bool, now: int)

  datatype Action = Start(pid: nat, proc: Proc) | Stop(pid: nat) | Advance(pid: nat, choice: Choice)

  function Become(s: State, pid: nat, p: Proc): State {
    s.(procs := s.procs[pid := p])
  }

  // ----- Requests -----

  // Only if nothing is there.
  function Put(s: State, lock: Lock, answered: bool): State
    requires lock.id !in s.store
  {
    State(s.store[lock.id := Stored(s.next, Some(lock))], s.next + 1, s.procs,
          if answered then s.log + [Granted(lock.id, s.next)] else s.log)
  }

  // A bucket removes the version that was read and no other; a directory removes
  // whatever is there.
  predicate Removes(rules: Rules, s: State, held: Held) {
    held.lock.id in s.store && (rules.backend.Bucket? ==> s.store[held.lock.id].version == held.version)
  }

  function Remove(s: State, held: Held, remover: Remover): State
    requires held.lock.id in s.store
  {
    s.(store := s.store - {held.lock.id}, log := s.log + [Removed(held.lock.id, s.store[held.lock.id], held, remover)])
  }

  function ReadLock(s: State, id: string): Option<Held> {
    if id in s.store && s.store[id].body.Some? then Some(Held(s.store[id].version, s.store[id].body.value)) else None
  }

  // Another request of this process is behind the same gate.
  predicate Shut(rules: Rules, s: State, p: Proc) {
    exists q | q in s.procs :: s.procs[q].Inside() && s.procs[q].replica == p.replica
      && rules.slot(s.procs[q].Id()) == rules.slot(p.Id())
  }

  // ----- LockStore::create -----

  function TakeStep(rules: Rules, s: State, pid: nat, p: Proc, c: Choice, next: CreateAt): State
    requires p.Create?
  {
    if rules.backend.Bucket? && !rules.arbitrates then Become(s, pid, p.(createAt := Created(false)))
    else if p.lock.id in s.store then Become(s, pid, p.(createAt := if c.ok then next else Created(false)))
    else if c.ok then Become(Put(s, p.lock, true), pid, p.(createAt := Created(true)))
    else Become(if c.landed then Put(s, p.lock, false) else s, pid, p.(createAt := Created(false)))
  }

  function CreateStep(rules: Rules, s: State, pid: nat, p: Proc, c: Choice): Option<State>
    requires p.Create?
  {
    match p.createAt
    case Enter => if Shut(rules, s, p) then None else Some(Become(s, pid, p.(createAt := Look)))
    case Look =>
      if !c.ok then Some(Become(s, pid, p.(createAt := Created(false))))
      else Some(Become(s, pid, p.(createAt := if ReadLock(s, p.lock.id).None? then Count else Take)))
    case Count =>
      // Reached only where no lock could be read.
      Some(Become(s, pid, p.(createAt := if c.ok && |s.store| < rules.capacity then Take else Created(false))))
    case Take => Some(TakeStep(rules, s, pid, p, c, ReadHolder))
    case ReadHolder =>
      (match ReadLock(s, p.lock.id)
       case Some(held) =>
         if c.ok && StaleFor(held.lock, p.maxAge, c.now).Some?
         then Some(Become(s, pid, p.(createAt := Discard(held, c.now))))
         else Some(Become(s, pid, p.(createAt := Created(false))))
       case None => Some(Become(s, pid, p.(createAt := Created(false)))))
    case Discard(held, now) =>
      var s' := if Removes(rules, s, held) && (c.ok || c.landed) then Remove(s, held, Taker(p.maxAge, now)) else s;
      // Gone already is as good as discarded.
      Some(Become(s', pid, p.(createAt := if c.ok then TakeAgain else Created(false))))
    case TakeAgain => Some(TakeStep(rules, s, pid, p, c, ReadWinner))
    case ReadWinner => Some(Become(s, pid, p.(createAt := Created(false))))
    case Created(_) => None
  }

  // ----- unlock -----

  predicate MayOpen(lock: Lock, actor: Actor, force: bool, admin: bool) {
    lock.owner.Is(actor) || (force && admin)
  }

  function UnlockStep(rules: Rules, s: State, pid: nat, p: Proc, c: Choice): Option<State>
    requires p.Unlock?
  {
    match p.unlockAt
    case Knock => if Shut(rules, s, p) then None else Some(Become(s, pid, p.(unlockAt := Read)))
    case Read =>
      (match ReadLock(s, p.id)
       case Some(held) =>
         if c.ok && MayOpen(held.lock, p.actor, p.force, p.admin)
         then Some(Become(s, pid, p.(unlockAt := Release(held))))
         else Some(Become(s, pid, p.(unlockAt := Opened(false))))
       case None => Some(Become(s, pid, p.(unlockAt := Opened(false)))))
    case Release(held) =>
      if Removes(rules, s, held) && (c.ok || c.landed)
      then Some(Become(Remove(s, held, Unlocker(p.actor, p.force, p.admin)), pid, p.(unlockAt := Opened(c.ok))))
      else Some(Become(s, pid, p.(unlockAt := Opened(false))))
    case Opened(_) => None
  }

  // ----- Interleaving -----

  // A request for no path, or for one that is a payload rather than a name, is
  // refused before any of this.
  predicate Fresh(rules: Rules, p: Proc) {
    && (rules.alone ==> p.replica == 0)
    && match p
       case Create(_, _, lock, at) =>
         at == Enter && 0 < |lock.path| <= MAX_PATH_BYTES && lock.id == rules.idOf(lock.path) && lock.owner.id.Some?
       case Unlock(_, _, _, _, _, at) => at == Knock
  }

  function Step(rules: Rules, s: State, a: Action): Option<State> {
    match a
    case Start(pid, p) => if pid !in s.procs && Fresh(rules, p) then Some(Become(s, pid, p)) else None
    case Stop(pid) => Some(s.(procs := s.procs - {pid}))
    case Advance(pid, c) =>
      if pid !in s.procs then None
      else if s.procs[pid].Create? then CreateStep(rules, s, pid, s.procs[pid], c)
      else UnlockStep(rules, s, pid, s.procs[pid], c)
  }

  // ----- What is promised -----

  predicate Removal(e: Event, id: string, version: nat) {
    e.Removed? && e.id == id && e.stored.version == version
  }

  ghost predicate RemovedBetween(log: seq<Event>, i: nat, j: nat, id: string, version: nat) {
    exists k | i < k < j && k < |log| :: Removal(log[k], id, version)
  }

  // Between two grants of one lock, the very version the first wrote was removed.
  ghost predicate OneHolder(log: seq<Event>) {
    forall i, j | 0 <= i < j < |log| && log[i].Granted? && log[j].Granted? && log[i].id == log[j].id ::
      RemovedBetween(log, i, j, log[i].id, log[i].version)
  }

  // What was removed is what had been read, and whoever removed it was entitled to:
  // it was stale, or theirs, or an admin forced it.
  predicate Entitled(e: Event)
    requires e.Removed?
  {
    && e.stored == Stored(e.seen.version, Some(e.seen.lock)) && e.id == e.seen.lock.id
    && match e.remover
       case Taker(maxAge, now) => StaleFor(e.seen.lock, maxAge, now).Some?
       case Unlocker(actor, force, admin) => MayOpen(e.seen.lock, actor, force, admin)
  }

  ghost predicate Safe(log: seq<Event>) {
    OneHolder(log) && forall i | 0 <= i < |log| && log[i].Removed? :: Entitled(log[i])
  }
}
