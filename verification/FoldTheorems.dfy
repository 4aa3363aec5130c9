/**
 What folding a bucket leaves, in whatever order the keys were moved and however
 often it was cut short and run again.
 */
module FoldTheorems {
  import opened Wrappers
  import opened Strings
  import opened KeyNames
  import opened CanonicalKeys
  import opened FoldProtocol

  ghost predicate Genesis(s: State) {
    DONE !in s.bucket && s.servers == map[] && s.ever == s.bucket.Keys
  }

  ghost predicate Run(states: seq<State>, actions: seq<Action>) {
    && |states| == |actions| + 1
    && Genesis(states[0])
    && forall i | 0 <= i < |actions| :: Step(states[i], actions[i]) == Some(states[i + 1])
  }

  lemma MovePreserves(init: Bucket, s: State, pid: nat, c: Choice)
    requires Inv(init, s) && pid in s.servers && s.servers[pid].Move? && c.key in s.servers[pid].flight
    ensures Inv(init, MoveStep(s, pid, s.servers[pid], c))
  {
    hide Canonical, Origin, BucketOk, DoneOk, Gentle;
    var v, from := s.servers[pid], c.key;
    var s' := MoveStep(s, pid, v, c);
    assert ServerOk(init, s, v) && FlightOk(init, s.bucket, from, v.flight[from]);
    match v.flight[from] {
      case Get =>
        if from in s.bucket { BodyHasOrigin(init, s, from); }
        NothingKeeps(init, s, s');
      case Put(body) =>
        PutKeeps(init, s, from, body);
        MovePutPreserves(init, s, pid, c);
      case Drop =>
        if c.ok || c.landed {
          DropKeeps(init, s, from);
          Carried(init, s, Delete(s, from), s', v);
        } else {
          NothingKeeps(init, s, s');
        }
    }
    if !v.flight[from].Put? { Assemble(init, s, s', pid); }
  }

  lemma BodyHasOrigin(init: Bucket, s: State, from: string)
    requires BucketOk(init, s) && from in s.bucket && Canonical(from) != from
    ensures Origin(init, from, s.bucket[from])
  {
    hide Canonical, Origin;
    DoneIsCanonical();
  }

  // Who is moving has no part in what the bucket promises.
  lemma Carried(init: Bucket, s: State, t: State, s': State, v: Server)
    requires BucketOk(init, t) && DoneOk(t.bucket) && Gentle(s, t) && s'.bucket == t.bucket && s'.ever == t.ever
    ensures BucketOk(init, s') && DoneOk(s'.bucket) && Gentle(s, s')
    ensures ServerOk(init, s, v) ==> ServerOk(init, s', v)
  {
    hide Canonical, Origin;
    if ServerOk(init, s, v) { OthersStayOk(init, s, s', v); }
  }

  lemma MovePutPreserves(init: Bucket, s: State, pid: nat, c: Choice)
    requires Inv(init, s) && pid in s.servers && s.servers[pid].Move? && c.key in s.servers[pid].flight
    requires s.servers[pid].flight[c.key].Put?
    ensures Inv(init, MoveStep(s, pid, s.servers[pid], c))
  {
    hide Canonical, Origin, BucketOk, DoneOk, Gentle;
    var v, from := s.servers[pid], c.key;
    var body := v.flight[from].body;
    var s' := MoveStep(s, pid, v, c);
    assert ServerOk(init, s, v) && FlightOk(init, s.bucket, from, v.flight[from]);
    if c.ok || c.landed {
      PutKeeps(init, s, from, body);
      Carried(init, s, PutIfAbsent(s, Canonical(from), body), s', v);
    } else {
      NothingKeeps(init, s, s');
    }
    Assemble(init, s, s', pid);
  }

  lemma MarkPreserves(init: Bucket, s: State, pid: nat, s': State)
    requires Inv(init, s) && pid in s.servers && s.servers[pid].Move?
    requires s.servers[pid].pending == {} && s.servers[pid].flight == map[]
    requires var t := s.(bucket := s.bucket[DONE := []], ever := s.ever + {DONE});
      s'.bucket == t.bucket && s'.ever == t.ever
    requires s'.servers == s.servers[pid := Ended] || s'.servers == s.servers - {pid}
    ensures Inv(init, s')
  {
    hide Canonical, Origin, BucketOk, DoneOk, Gentle;
    assert ServerOk(init, s, s.servers[pid]);
    MarkKeeps(init, s);
    Carried(init, s, s.(bucket := s.bucket[DONE := []], ever := s.ever + {DONE}), s', Ended);
    Assemble(init, s, s', pid);
  }

  lemma ServerPreserves(init: Bucket, s: State, pid: nat, c: Choice)
    requires Inv(init, s) && pid in s.servers && ServerStep(s, pid, s.servers[pid], c).Some?
    ensures Inv(init, ServerStep(s, pid, s.servers[pid], c).value)
  {
    hide Canonical, CanonicalKey, Origin, BucketOk, DoneOk, Gentle, MoveStep;
    var v := s.servers[pid];
    var s' := ServerStep(s, pid, v, c).value;
    assert ServerOk(init, s, v);
    match v {
      case Look => NothingKeeps(init, s, s'); Assemble(init, s, s', pid);
      case List =>
        forall k ensures CanonicalKey(k).Some? <==> Canonical(k) != k { CanonicalKeyIs(k); }
        NothingKeeps(init, s, s');
        Assemble(init, s, s', pid);
      case Move(pending, flight) =>
        if c.key in flight {
          MovePreserves(init, s, pid, c);
        } else if c.key in pending && |flight| < CONCURRENCY {
          NothingKeeps(init, s, s');
          Begins(init, s, c.key);
          Assemble(init, s, s', pid);
        } else if c.ok || c.landed {
          MarkPreserves(init, s, pid, s');
        } else {
          NothingKeeps(init, s, s');
          Assemble(init, s, s', pid);
        }
      case Ended =>
    }
  }

  lemma Begins(init: Bucket, s: State, key: string)
    requires BucketOk(init, s) && key in s.ever
    ensures There(s.bucket, key)
  {
    hide Canonical, Origin;
  }

  lemma {:induction false} RunInv(states: seq<State>, actions: seq<Action>, i: nat)
    requires Run(states, actions) && i < |states|
    ensures Inv(states[0].bucket, states[i])
  {
    hide Canonical, CanonicalKey, ServerStep, Gentle;
    var init := states[0].bucket;
    if i > 0 {
      RunInv(states, actions, i - 1);
      var s, a := states[i - 1], actions[i - 1];
      assert Step(states[i - 1], actions[i - 1]) == Some(states[i - 1 + 1]);
      match a {
        case Start(pid) => NothingKeeps(init, s, states[i]); Assemble(init, s, states[i], pid);
        case Stop(pid) => NothingKeeps(init, s, states[i]); Assemble(init, s, states[i], pid);
        case Advance(pid, c) => ServerPreserves(init, s, pid, c);
      }
    }
  }

  // ----- What is promised -----

  // A key that is where it belongs keeps its body throughout: of two spellings of
  // one lock, the canonical one stands.
  lemma CanonicalKeysStand(states: seq<State>, actions: seq<Action>, i: nat, key: string)
    requires Run(states, actions) && i < |states|
    requires key in states[0].bucket && Canonical(key) == key
    ensures key in states[i].bucket && states[i].bucket[key] == states[0].bucket[key]
  {
    hide Run, Canonical, Origin;
    RunInv(states, actions, i);
  }

  // At no moment is a key in neither of its places.
  lemma NothingIsLost(states: seq<State>, actions: seq<Action>, i: nat, key: string)
    requires Run(states, actions) && i < |states| && key in states[0].bucket
    ensures key in states[i].bucket || Canonical(key) in states[i].bucket
  {
    hide Run, Canonical, Origin;
    RunInv(states, actions, i);
    assert There(states[i].bucket, key);
  }

  ghost function Image(b: Bucket): set<string> {
    set k | k in b :: Canonical(k)
  }

  // Once the mark is there nothing is left to move: the keys are the canonical
  // spellings of the first ones, each with a body one of its spellings had.
  lemma DoneMeansFolded(states: seq<State>, actions: seq<Action>, i: nat)
    requires Run(states, actions) && i < |states| && DONE in states[i].bucket
    ensures states[i].bucket.Keys == Image(states[0].bucket) + {DONE}
    ensures forall k | k in states[i].bucket :: CanonicalKey(k) == None
    ensures forall k | k in states[i].bucket && k != DONE :: Origin(states[0].bucket, k, states[i].bucket[k])
  {
    hide Run, Canonical, CanonicalKey;
    RunInv(states, actions, i);
    var init, b := states[0].bucket, states[i].bucket;
    forall k | k in b ensures CanonicalKey(k) == None && k in Image(init) + {DONE} {
      CanonicalKeyIs(k);
      if k != DONE {
        var j :| j in init && Canonical(j) == Canonical(k) && init[j] == b[k];
      }
    }
    forall k | k in Image(init) + {DONE} ensures k in b {
      if k != DONE {
        var j :| j in init && Canonical(j) == k;
        assert There(b, j);
        CanonicalTwice(j);
      }
    }
  }

  // Once set, the mark stays.
  lemma MarkStays(init: Bucket, s: State, a: Action)
    requires Inv(init, s) && Step(s, a).Some? && DONE in s.bucket
    ensures DONE in Step(s, a).value.bucket
  {
    hide Canonical, CanonicalKey, Origin, BucketOk, DoneOk;
    DoneIsCanonical();
    if a.Advance? && s.servers[a.pid].Move? && a.choice.key in s.servers[a.pid].flight {
      assert ServerOk(init, s, s.servers[a.pid]);
      assert FlightOk(init, s.bucket, a.choice.key, s.servers[a.pid].flight[a.choice.key]);
    }
  }

  ghost predicate EndedAfterTheMark(s: State) {
    forall q | q in s.servers && s.servers[q].Ended? :: DONE in s.bucket
  }

  lemma EndsAfterTheMark(init: Bucket, s: State, a: Action)
    requires Inv(init, s) && Step(s, a).Some? && EndedAfterTheMark(s)
    ensures EndedAfterTheMark(Step(s, a).value)
  {
    hide Canonical, CanonicalKey, Origin, BucketOk, DoneOk, Inv;
    if DONE in s.bucket { MarkStays(init, s, a); }
  }

  // A server that has ended well, whatever the others did, leaves the mark set, and so
  // the bucket folded.
  lemma {:induction false} EndedMeansDone(states: seq<State>, actions: seq<Action>, i: nat, pid: nat)
    requires Run(states, actions) && i < |states| && pid in states[i].servers && states[i].servers[pid].Ended?
    ensures DONE in states[i].bucket
  {
    hide Step, Genesis;
    AllEndAfterTheMark(states, actions, i);
  }

  lemma {:induction false} AllEndAfterTheMark(states: seq<State>, actions: seq<Action>, i: nat)
    requires Run(states, actions) && i < |states|
    ensures EndedAfterTheMark(states[i])
  {
    hide Step;
    if i > 0 {
      AllEndAfterTheMark(states, actions, i - 1);
      RunInv(states, actions, i - 1);
      assert Step(states[i - 1], actions[i - 1]) == Some(states[i - 1 + 1]);
      EndsAfterTheMark(states[0].bucket, states[i - 1], actions[i - 1]);
    }
  }

  // A request that is not answered is the last its server makes, and a server that is
  // stopped is gone, whatever it had in flight.
  lemma FailureIsTheEnd(s: State, pid: nat, c: Choice)
    requires pid in s.servers && Step(s, Advance(pid, c)).Some? && !c.ok
    requires s.servers[pid].Move? && c.key in s.servers[pid].pending ==> c.key in s.servers[pid].flight
    ensures Step(s, Advance(pid, c)).value.servers == s.servers - {pid}
    ensures Step(s, Stop(pid)) == Some(State(s.bucket, s.servers - {pid}, s.ever)) && Step(s, Start(pid)) == None
  {
    hide Canonical, CanonicalKey;
  }

  // ----- With nobody beside it -----

  // Answered requests of one server.
  ghost predicate Goes(states: seq<State>, choices: seq<Choice>, pid: nat) {
    && |states| == |choices| + 1
    && forall i | 0 <= i < |choices| :: choices[i].ok && Step(states[i], Advance(pid, choices[i])) == Some(states[i + 1])
  }

  lemma GoOn(states: seq<State>, choices: seq<Choice>, pid: nat, key: string, s: State)
    returns (states': seq<State>, choices': seq<Choice>)
    requires Goes(states, choices, pid)
    requires Step(states[|choices|], Advance(pid, Choice(true, false, key, states[|choices|].bucket.Keys))) == Some(s)
    ensures Goes(states', choices', pid) && |states'| == |choices'| + 1
    ensures states'[0] == states[0] && states'[|choices'|] == s
  {
    hide Step;
    var c := Choice(true, false, key, states[|choices|].bucket.Keys);
    states', choices' := states + [s], choices + [c];
    forall i | 0 <= i < |choices'| ensures choices'[i].ok && Step(states'[i], Advance(pid, choices'[i])) == Some(states'[i + 1]) {
      if i < |choices| { assert Step(states[i], Advance(pid, choices[i])) == Some(states[i + 1]); }
    }
  }

  // One key is moved in four requests.
  lemma MovesOne(states: seq<State>, choices: seq<Choice>, pid: nat, pending: set<string>, key: string)
    returns (states': seq<State>, choices': seq<Choice>)
    requires Goes(states, choices, pid) && key in pending
    requires pid in states[|choices|].servers && states[|choices|].servers[pid] == Move(pending, map[])
    ensures Goes(states', choices', pid) && |states'| == |choices'| + 1 && states'[0] == states[0]
    ensures pid in states'[|choices'|].servers && states'[|choices'|].servers[pid] == Move(pending - {key}, map[])
  {
    assert |states| == |choices| + 1;
    hide Goes, Canonical;
    states', choices' := states, choices;
    for n := 0 to 4
      invariant Goes(states', choices', pid) && |states'| == |choices'| + 1 && states'[0] == states[0]
      invariant pid in states'[|choices'|].servers
      invariant var v := states'[|choices'|].servers[pid];
        && v.Move?
        && (n == 0 ==> v == Move(pending, map[]))
        && (n > 0 ==> v.pending == pending - {key} && v.flight.Keys == if n < 4 then {key} else {})
        && (n == 1 ==> v.flight[key].Get?) && (n == 2 ==> v.flight[key].Put?) && (n == 3 ==> v.flight[key].Drop?)
    {
      var s := states'[|choices'|];
      var s' := Step(s, Advance(pid, Choice(true, false, key, s.bucket.Keys))).value;
      states', choices' := GoOn(states', choices', pid, key, s');
    }
  }

  lemma {:induction false} MovesAll(states: seq<State>, choices: seq<Choice>, pid: nat, pending: set<string>)
    returns (states': seq<State>, choices': seq<Choice>)
    requires Goes(states, choices, pid)
    requires pid in states[|choices|].servers && states[|choices|].servers[pid] == Move(pending, map[])
    ensures Goes(states', choices', pid) && |states'| == |choices'| + 1 && states'[0] == states[0]
    ensures pid in states'[|choices'|].servers && states'[|choices'|].servers[pid] == Move({}, map[])
    decreases |pending|
  {
    states', choices' := states, choices;
    if key :| key in pending {
      hide Goes;
      states', choices' := MovesOne(states, choices, pid, pending, key);
      states', choices' := MovesAll(states', choices', pid, pending - {key});
    }
  }

  // A server can start at any time, and with its requests all answered it can get to
  // the end: nothing it finds in a bucket stops it.
  lemma LeftAloneItEnds(s: State, pid: nat) returns (states: seq<State>, choices: seq<Choice>)
    requires pid !in s.servers && s.bucket.Keys <= s.ever
    ensures Goes(states, choices, pid) && Step(s, Start(pid)) == Some(states[0])
    ensures pid in states[|choices|].servers && states[|choices|].servers[pid].Ended?
  {
    hide Goes, MoveStep;
    var s0 := Step(s, Start(pid)).value;
    states, choices := [s0], [];
    assert Goes(states, choices, pid) by { NothingYet(s0, pid); }
    var s1 := Step(s0, Advance(pid, Choice(true, false, "", s0.bucket.Keys))).value;
    states, choices := GoOn(states, choices, pid, "", s1);
    if s1.servers[pid] == List {
      var s2 := Step(s1, Advance(pid, Choice(true, false, "", s1.bucket.Keys))).value;
      states, choices := GoOn(states, choices, pid, "", s2);
      states, choices := MovesAll(states, choices, pid, s2.servers[pid].pending);
      var t := states[|choices|];
      states, choices := GoOn(states, choices, pid, "", Step(t, Advance(pid, Choice(true, false, "", t.bucket.Keys))).value);
    }
  }

  lemma NothingYet(s: State, pid: nat)
    ensures Goes([s], [], pid)
  {
  }

  // Outside the dot-directories, what looks like a marker has its ref.
  ghost predicate EveryMarkerHasItsRef(b: Bucket) {
    forall m | m in b && !StartsWith(m, ".") && IsMarker(m) :: FromMarker(m).value in b
  }

  // An index that missed no holder misses none once the bucket is folded.
  lemma RefsSurvive(states: seq<State>, actions: seq<Action>, i: nat)
    requires Run(states, actions) && i < |states| && DONE in states[i].bucket
    requires EveryMarkerHasItsRef(states[0].bucket)
    ensures EveryMarkerHasItsRef(states[i].bucket)
  {
    hide Run, Canonical, CanonicalKey, FromMarker, StartsWith, Split;
    DoneMeansFolded(states, actions, i);
    var init, b := states[0].bucket, states[i].bucket;
    forall m | m in b && !StartsWith(m, ".") && IsMarker(m) ensures FromMarker(m).value in b {
      assert m != DONE by { DoneIsADotKey(); }
      var j :| j in init && Canonical(j) == m;
      RefOfTheFold(j);
      assert Canonical(FromMarker(j).value) in Image(init);
    }
  }

  lemma DoneIsADotKey()
    ensures StartsWith(DONE, ".")
  {
  }

  lemma RefOfTheFold(key: string)
    requires !StartsWith(Canonical(key), ".") && IsMarker(Canonical(key))
    ensures !StartsWith(key, ".") && IsMarker(key)
    ensures FromMarker(Canonical(key)) == Some(Canonical(FromMarker(key).value))
  {
    hide Canonical, FromMarker, StartsWith, Split;
    DotsStay(key);
    FirstDot(key);
    MarkersFoldToMarkers(key);
    RefsFoldWithMarkers(key);
  }

  lemma DotsStay(key: string)
    ensures StartsWith(Canonical(key), ".") <==> StartsWith(key, ".")
  {
  }
}
