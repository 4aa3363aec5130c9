/**
 What a sweep has read before it does away with bytes, and what its listings owe it.
 */
module BucketReads {
  import opened Wrappers
  import opened Names
  import opened BucketKeys
  import opened BucketProtocol
  import opened BucketTheorems
  import opened BucketCounts

  // ----- Asked first, and asked again -----

  // A sweep that means to free these bytes.
  predicate Frees(p: Proc, o: Oid) {
    p.Sweep? &&
    match p.at
    case DropMarker(oid, frees) => oid == o && frees
    case DropRef(oid, frees) => oid == o && frees
    case DropSize(oid, frees) => oid == o && frees
    case Recheck(oid, frees) => oid == o && frees
    case Delete(oid) => oid == o
    case Erase(oid, _, _) => oid == o
    case _ => false
  }

  // An answered read of the index that named nobody else, at this point of a sweep.
  ghost predicate NoneNamed(states: seq<State>, actions: seq<Action>, i: nat, pid: nat, o: Oid, at: SweepAt)
    requires i < |actions| < |states|
  {
    && actions[i].Advance? && actions[i].pid == pid && actions[i].choice.ok
    && pid in states[i].procs && states[i].procs[pid].Sweep? && states[i].procs[pid].at == at
    && forall r | r != states[i].procs[pid].repo :: Ref(o, r) !in states[i].bucket
  }

  lemma NobodyElsesRef(b: Bucket, repo: Repo, o: Oid)
    requires !ClaimedByAnother(b, repo, o)
    ensures forall r | r != repo :: Ref(o, r) !in b
  {
    forall r | r != repo ensures Ref(o, r) !in b {
      assert Ref(o, r).Ref? && Ref(o, r).oid == o;
    }
  }

  // What a step of a sweep by the index takes it to where it means to free something.
  lemma ToFreeing(rules: Rules, s: State, pid: nat, c: Choice, s': State, o: Oid)
    requires Step(rules, s, Advance(pid, c)) == Some(s') && pid in s'.procs && Frees(s'.procs[pid], o)
    ensures pid in s.procs && s.procs[pid].Sweep? && s.procs[pid].repo == s'.procs[pid].repo
    ensures s'.procs[pid].plan == s.procs[pid].plan
    ensures s'.procs[pid].plan.indexed && !Frees(s.procs[pid], o) ==>
      s.procs[pid].at == Ask(o) && c.ok && !ClaimedByAnother(s.bucket, s.procs[pid].repo, o)
  {
    hide PushStep, SweepStep, Frees, ClaimedByAnother;
    OnlySweepsFree(s'.procs[pid], o);
    if s.procs[pid].Push? {
      PushesFreeNothing(rules, s, pid, c, o);
    } else {
      SweepToFreeing(rules, s, pid, c, s', o);
    }
  }

  lemma OnlySweepsFree(p: Proc, o: Oid)
    ensures Frees(p, o) ==> p.Sweep?
  {
  }

  lemma SweepToFreeing(rules: Rules, s: State, pid: nat, c: Choice, s': State, o: Oid)
    requires pid in s.procs && s.procs[pid].Sweep? && SweepStep(rules, s, pid, s.procs[pid], c) == Some(s')
    requires pid in s'.procs && Frees(s'.procs[pid], o)
    ensures s.procs[pid].repo == s'.procs[pid].repo && s'.procs[pid].plan == s.procs[pid].plan
    ensures s'.procs[pid].plan.indexed && !Frees(s.procs[pid], o) ==>
      s.procs[pid].at == Ask(o) && c.ok && !ClaimedByAnother(s.bucket, s.procs[pid].repo, o)
  {
    hide MayDrop, ClaimedByAnother, Listing, Droppable, Claims, Sizes, Put, Remove, Erased, Unclaimed;
  }

  lemma ToDeleting(rules: Rules, s: State, pid: nat, c: Choice, s': State, o: Oid)
    requires Step(rules, s, Advance(pid, c)) == Some(s') && pid in s'.procs && Deleting(s'.procs[pid], o)
    requires pid in s.procs && s.procs[pid].Sweep?
    ensures Deleting(s.procs[pid], o)
      || (s.procs[pid].at == Recheck(o, true) && c.ok && !ClaimedByAnother(s.bucket, s.procs[pid].repo, o))
  {
    hide PushStep, MayDrop, ClaimedByAnother, Listing, Droppable, Claims, Sizes, Forget, Put, Remove, Erased, Unclaimed;
  }

  lemma PushesFreeNothing(rules: Rules, s: State, pid: nat, c: Choice, o: Oid)
    requires pid in s.procs && s.procs[pid].Push? && PushStep(rules, s, pid, s.procs[pid], c).Some?
    ensures var s' := PushStep(rules, s, pid, s.procs[pid], c).value; pid in s'.procs && s'.procs[pid].Push?
  {
    hide MayClaim, Forget;
  }

  // In any run, whoever races whom: a sweep that goes by the index means to free bytes
  // only once an answered read of it has named nobody else.
  lemma {:induction false} AskedFirst(rules: Rules, states: seq<State>, actions: seq<Action>, i: nat, pid: nat, o: Oid)
    returns (k: nat)
    requires Run(rules, states, actions) && i < |states|
    requires pid in states[i].procs && Frees(states[i].procs[pid], o) && states[i].procs[pid].plan.indexed
    ensures k < i && NoneNamed(states, actions, k, pid, o, Ask(o))
  {
    hide Step, Frees, ClaimedByAnother;
    BeforeThat(rules, states, actions, i, pid, o);
    var a := actions[i - 1];
    assert Step(rules, states[i - 1], a) == Some(states[i - 1 + 1]);
    if a.Advance? && a.pid == pid {
      ToFreeing(rules, states[i - 1], pid, a.choice, states[i], o);
      if Frees(states[i - 1].procs[pid], o) {
        k := AskedFirst(rules, states, actions, i - 1, pid, o);
      } else {
        NobodyElsesRef(states[i - 1].bucket, states[i - 1].procs[pid].repo, o);
        k := i - 1;
      }
    } else {
      k := AskedFirst(rules, states, actions, i - 1, pid, o);
    }
  }

  // Nobody starts out freeing anything, and nobody is moved by somebody else's step.
  lemma BeforeThat(rules: Rules, states: seq<State>, actions: seq<Action>, i: nat, pid: nat, o: Oid)
    requires Run(rules, states, actions) && i < |states| && pid in states[i].procs && Frees(states[i].procs[pid], o)
    ensures i > 0 && pid in states[i - 1].procs
    ensures !(actions[i - 1].Advance? && actions[i - 1].pid == pid) ==> states[i - 1].procs[pid] == states[i].procs[pid]
  {
    hide PushStep, SweepStep;
    assert i > 0;
    var a := actions[i - 1];
    assert Step(rules, states[i - 1], a) == Some(states[i - 1 + 1]);
    if pid !in states[i - 1].procs {
      OnlyStartAdds(rules, states[i - 1], a, states[i], pid);
    } else if !(a.Advance? && a.pid == pid) && states[i - 1].procs[pid] != states[i].procs[pid] {
      OthersStandStill(rules, states[i - 1], a, states[i], pid);
    }
  }

  lemma OnlyStartAdds(rules: Rules, s: State, a: Action, s': State, pid: nat)
    requires Step(rules, s, a) == Some(s') && pid !in s.procs && pid in s'.procs
    ensures a == Start(pid, s'.procs[pid]) && Fresh(s'.procs[pid])
  {
    hide MayClaim, MayDrop, ClaimedByAnother, Unclaimed, Listing, Droppable, Claims, Sizes, Forget;
  }

  // And it deletes them only once another such read, after its own claim is gone, has
  // named nobody else again; so does one that went by a listing.
  lemma {:induction false} AskedAgain(rules: Rules, states: seq<State>, actions: seq<Action>, i: nat, pid: nat, o: Oid)
    returns (k: nat)
    requires Run(rules, states, actions) && i < |states|
    requires pid in states[i].procs && Deleting(states[i].procs[pid], o)
    ensures k < i && NoneNamed(states, actions, k, pid, o, Recheck(o, true))
  {
    hide Step, ClaimedByAnother;
    BeforeThat(rules, states, actions, i, pid, o);
    var a := actions[i - 1];
    assert Step(rules, states[i - 1], a) == Some(states[i - 1 + 1]);
    if a.Advance? && a.pid == pid {
      ToFreeing(rules, states[i - 1], pid, a.choice, states[i], o);
      ToDeleting(rules, states[i - 1], pid, a.choice, states[i], o);
      if Deleting(states[i - 1].procs[pid], o) {
        k := AskedAgain(rules, states, actions, i - 1, pid, o);
      } else {
        NobodyElsesRef(states[i - 1].bucket, states[i - 1].procs[pid].repo, o);
        k := i - 1;
      }
    } else {
      k := AskedAgain(rules, states, actions, i - 1, pid, o);
    }
  }

  // ----- Listings -----

  // A listing owes its sweep no key that is not there.
  ghost predicate OwesNoMore(b: Bucket, p: Proc) {
    p.Sweep? ==> (p.at.ListOwn? ==> p.at.own <= b.Keys) && (p.at.ListAll? ==> p.at.must <= b.Keys)
  }

  ghost predicate Owing(s: State) {
    forall q | q in s.procs :: OwesNoMore(s.bucket, s.procs[q])
  }

  lemma PutOwes(s: State, k: Key, n: nat)
    requires Owing(s)
    ensures Owing(Put(s, k, n))
  {
    assert forall q | q in s.procs :: OwesNoMore(s.bucket, s.procs[q]);
  }

  lemma RemoveOwes(s: State, k: Key)
    requires Owing(s)
    ensures Owing(Remove(s, k))
  {
    forall q | q in s.procs ensures OwesNoMore(s.bucket - {k}, Forget(s.procs[q], k)) {
      assert OwesNoMore(s.bucket, s.procs[q]);
    }
  }

  lemma BecomeOwes(s: State, pid: nat, p: Proc)
    requires Owing(s) && OwesNoMore(s.bucket, p)
    ensures Owing(Become(s, pid, p))
  {
    assert forall q | q in s.procs :: OwesNoMore(s.bucket, s.procs[q]);
  }

  lemma StepOwes(rules: Rules, s: State, a: Action)
    requires Owing(s) && Step(rules, s, a).Some?
    ensures Owing(Step(rules, s, a).value)
  {
    match a
    case Start(pid, p) => BecomeOwes(s, pid, p);
    case Abort(pid) => assert forall q | q in s.procs :: OwesNoMore(s.bucket, s.procs[q]);
    case ClientUpload(repo, oid) => PutOwes(s, Incoming(repo, oid), rules.length(oid));
    case Reclaim(repo, oid) => RemoveOwes(s, Incoming(repo, oid));
    case StrayRef(repo, oid) => PutOwes(s, Ref(oid, repo), 0);
    case Advance(pid, c) =>
      if s.procs[pid].Push? { PushOwes(rules, s, pid, c); } else { SweepOwes(rules, s, pid, c); }
  }

  lemma PushOwes(rules: Rules, s: State, pid: nat, c: Choice)
    requires Owing(s) && pid in s.procs && s.procs[pid].Push? && PushStep(rules, s, pid, s.procs[pid], c).Some?
    ensures Owing(PushStep(rules, s, pid, s.procs[pid], c).value)
  {
    hide Put, Remove, Become, Owing, MayClaim;
    forall k: Key, n: nat ensures Owing(Put(s, k, n)) { PutOwes(s, k, n); }
    forall k: Key ensures Owing(Remove(s, k)) { RemoveOwes(s, k); }
    forall t: State, p: Proc | Owing(t) && p.Push? ensures Owing(Become(t, pid, p)) { BecomeOwes(t, pid, p); }
  }

  lemma SweepOwes(rules: Rules, s: State, pid: nat, c: Choice)
    requires Owing(s) && pid in s.procs && s.procs[pid].Sweep? && SweepStep(rules, s, pid, s.procs[pid], c).Some?
    ensures Owing(SweepStep(rules, s, pid, s.procs[pid], c).value)
  {
    hide Put, Remove, Become, Owing, Erased, MayDrop, ClaimedByAnother, Unclaimed, Listing, Droppable, Claims, Sizes;
    forall k: Key, n: nat ensures Owing(Put(s, k, n)) { PutOwes(s, k, n); }
    forall k: Key ensures Owing(Remove(s, k)) { RemoveOwes(s, k); }
    forall o: Oid, mine: bool, n: nat ensures Owing(Erased(s, o, mine, n)) { ErasedOwes(s, o, mine, n); }
    forall t: State, p: Proc | Owing(t) && OwesNoMore(t.bucket, p) ensures Owing(Become(t, pid, p)) { BecomeOwes(t, pid, p); }
  }

  lemma ErasedOwes(s: State, o: Oid, mine: bool, n: nat)
    requires Owing(s)
    ensures Owing(Erased(s, o, mine, n))
  {
    RemoveOwes(s, Content(o));
    assert forall q | q in Remove(s, Content(o)).procs :: OwesNoMore(Remove(s, Content(o)).bucket, Remove(s, Content(o)).procs[q]);
  }

  // So at any moment of any run a listing may answer just what is there then: what is
  // deleted while it is under way it may miss, and what is written it may name.
  lemma {:induction false} ListingsOweNoMore(rules: Rules, states: seq<State>, actions: seq<Action>, i: nat)
    requires Run(rules, states, actions) && i < |states|
    ensures Owing(states[i])
  {
    hide Step, Owing;
    if i == 0 {
      assert Owing(states[0]) by { NobodyIsOwed(states[0]); }
    } else {
      ListingsOweNoMore(rules, states, actions, i - 1);
      assert Step(rules, states[i - 1], actions[i - 1]) == Some(states[i - 1 + 1]);
      StepOwes(rules, states[i - 1], actions[i - 1]);
    }
  }

  lemma NobodyIsOwed(s: State)
    requires s.procs == map[]
    ensures Owing(s)
  {
  }

  lemma ListingIsWhatIsThere(rules: Rules, states: seq<State>, actions: seq<Action>, i: nat, pid: nat, c: Choice)
    requires Run(rules, states, actions) && i < |states| && pid in states[i].procs && states[i].procs[pid].Sweep?
    requires states[i].procs[pid].at.ListOwn? || states[i].procs[pid].at.ListAll?
    requires c.listing == states[i].bucket
    ensures Step(rules, states[i], Advance(pid, c)).Some?
  {
    hide Droppable, Claims, Sizes;
    RunCounts(rules, states, actions, i);
    ListingsOweNoMore(rules, states, actions, i);
    assert OwesNoMore(states[i].bucket, states[i].procs[pid]);
  }

  // ----- What a listing is sure to name -----

  function Owed(p: Proc): set<Key> {
    if p.Sweep? && p.at.ListOwn? then p.at.own
    else if p.Sweep? && p.at.ListAll? then p.at.must
    else {}
  }

  ghost predicate Lists(p: Proc) {
    p.Sweep? && (p.at.ListOwn? || p.at.ListAll?)
  }

  // Its listing goes on, and owes it still whatever of that is there still.
  ghost predicate StillOwes(s: State, t: State, q: nat) {
    && q in s.procs && q in t.procs && Lists(s.procs[q]) && Lists(t.procs[q])
    && t.procs[q].repo == s.procs[q].repo && t.procs[q].retained == s.procs[q].retained
    && t.procs[q].at.ListOwn? == s.procs[q].at.ListOwn?
    && forall k | k in Owed(s.procs[q]) && k in t.bucket :: k in Owed(t.procs[q])
  }

  lemma RequestsStillOwe(s: State, q: nat)
    requires q in s.procs && Lists(s.procs[q])
    ensures StillOwes(s, s, q)
    ensures forall k: Key, n: nat :: StillOwes(s, Put(s, k, n), q)
    ensures forall k: Key :: StillOwes(s, Remove(s, k), q)
    ensures forall o: Oid, mine: bool, n: nat :: StillOwes(s, Erased(s, o, mine, n), q)
  {
  }

  lemma BecomingStillOwes(s: State, t: State, pid: nat, p: Proc, q: nat)
    requires StillOwes(s, t, q) && pid != q
    ensures StillOwes(s, Become(t, pid, p), q)
  {
  }

  lemma StepStillOwes(rules: Rules, s: State, a: Action, q: nat)
    requires Step(rules, s, a).Some? && q in s.procs && Lists(s.procs[q])
    requires !(a.Advance? && a.pid == q) && !(a.Abort? && a.pid == q)
    ensures StillOwes(s, Step(rules, s, a).value, q)
  {
    hide Put, Remove, Become, Erased, StillOwes, MayClaim, MayDrop, ClaimedByAnother, Unclaimed, Listing, Droppable, Claims, Sizes;
    RequestsStillOwe(s, q);
    forall t: State, pid: nat, p: Proc | StillOwes(s, t, q) && pid != q ensures StillOwes(s, Become(t, pid, p), q) {
      BecomingStillOwes(s, t, pid, p, q);
    }
    if a.Abort? { assert StillOwes(s, s.(procs := s.procs - {a.pid}), q) by { LeavingStillOwes(s, a.pid, q); } }
  }

  lemma LeavingStillOwes(s: State, pid: nat, q: nat)
    requires q in s.procs && Lists(s.procs[q]) && pid != q
    ensures StillOwes(s, s.(procs := s.procs - {pid}), q)
  {
  }

  // While its listing is under way, a sweep is owed whatever was there when it began
  // and has been there ever since.
  lemma {:induction false} OwedThroughout(rules: Rules, states: seq<State>, actions: seq<Action>, i: nat, j: nat, pid: nat, k: Key)
    requires Run(rules, states, actions) && i <= j < |states|
    requires forall n | i <= n <= j :: pid in states[n].procs && Lists(states[n].procs[pid]) && k in states[n].bucket
    requires forall n | i <= n < j :: actions[n] != Abort(pid) && !(actions[n].Advance? && actions[n].pid == pid)
    requires k in Owed(states[i].procs[pid])
    ensures k in Owed(states[j].procs[pid]) && states[j].procs[pid].repo == states[i].procs[pid].repo
    ensures states[j].procs[pid].retained == states[i].procs[pid].retained
  {
    hide Step, Genesis, Owed, Lists;
    if i < j {
      OwedThroughout(rules, states, actions, i, j - 1, pid, k);
      assert Step(rules, states[j - 1], actions[j - 1]) == Some(states[j - 1 + 1]);
      StepStillOwes(rules, states[j - 1], actions[j - 1], pid);
    }
  }

  // So a marker of its own that was there throughout, not retained and old enough, is
  // among what an answered listing gives it to drop, in any run.
  lemma NoneIsMissed(rules: Rules, states: seq<State>, actions: seq<Action>, i: nat, j: nat, pid: nat, o: Oid)
    requires Run(rules, states, actions) && 0 < i <= j < |actions|
    requires actions[i - 1].Advance? && actions[i - 1].pid == pid && pid in states[i - 1].procs
    requires states[i - 1].procs[pid].Sweep? && states[i - 1].procs[pid].at.Ready?
    requires forall n | i <= n < j :: actions[n] != Abort(pid) && !(actions[n].Advance? && actions[n].pid == pid)
    requires forall n | i <= n <= j :: pid in states[n].procs && Lists(states[n].procs[pid])
    requires forall n | i <= n <= j :: Marker(states[i].procs[pid].repo, o) in states[n].bucket
    requires actions[j].Advance? && actions[j].pid == pid && actions[j].choice.ok
    requires o !in states[i].procs[pid].retained && o in actions[j].choice.aged
    ensures states[j + 1].procs[pid].Sweep? && o in states[j + 1].procs[pid].todo
  {
    hide Step, Genesis, Lists, Owed;
    var k := Marker(states[i].procs[pid].repo, o);
    assert Step(rules, states[i - 1], actions[i - 1]) == Some(states[i - 1 + 1]);
    BeginsWithAll(rules, states[i - 1], pid, actions[i - 1].choice, states[i], k);
    OwedThroughout(rules, states, actions, i, j, pid, k);
    assert Step(rules, states[j], actions[j]) == Some(states[j + 1]);
    GivesWhatIsOwed(rules, states[j], pid, actions[j].choice, states[j + 1], o);
  }

  lemma BeginsWithAll(rules: Rules, s: State, pid: nat, c: Choice, s': State, k: Key)
    requires Step(rules, s, Advance(pid, c)) == Some(s') && pid in s.procs && s.procs[pid].Sweep? && s.procs[pid].at.Ready?
    requires k in s'.bucket
    ensures k in Owed(s'.procs[pid])
  {
  }

  lemma GivesWhatIsOwed(rules: Rules, s: State, pid: nat, c: Choice, s': State, o: Oid)
    requires Step(rules, s, Advance(pid, c)) == Some(s') && pid in s.procs && Lists(s.procs[pid]) && c.ok
    requires var p := s.procs[pid]; Marker(p.repo, o) in Owed(p) && o !in p.retained && o in c.aged
    ensures s'.procs[pid].Sweep? && o in s'.procs[pid].todo
  {
    hide Sizes, Unclaimed;
    var p := s.procs[pid];
    assert Marker(p.repo, o) in c.listing;
    assert (p.repo, o) in Claims(c.listing);
  }
}
