/**
 Folding a bucket to one spelling: any number of servers starting at once, each
 moving many keys at a time, interleaved one request at a time, each able to stop
 at any request and to be started again.
 */
module FoldProtocol {
  import opened Wrappers
  import opened Bytes
  import opened CanonicalKeys

  const CONCURRENCY: nat := 16

  type Bucket = map<string, Bytes>

  // One key's move: read, written where it belongs unless something is there, and
  // then deleted.
  datatype MoveAt = Get | Put(body: Bytes) | Drop

  datatype Server = Look | List | Move(pending: set<string>, flight: map<string, MoveAt>) | Ended

  // `ever`: every key there has been.
  datatype State = State(bucket: Bucket, servers: map<nat, Server>, ever: set<string>)

  // `ok`: the request was answered.  `landed`: one that was not took effect all the same.
  datatype Choice = Choice(ok: bool, landed: bool, key: string, listing: set<string>)

  datatype Action = Start(pid: nat) | Stop(pid: nat) | Advance(pid: nat, choice: Choice)

  function Become(s: State, pid: nat, v: Server): State {
    s.(servers := s.servers[pid := v])
  }

  function Quit(s: State, pid: nat): State {
    s.(servers := s.servers - {pid})
  }

  function PutIfAbsent(s: State, key: string, body: Bytes): State {
    if key in s.bucket then s else s.(bucket := s.bucket[key := body], ever := s.ever + {key})
  }

  function Delete(s: State, key: string): State {
    s.(bucket := s.bucket - {key})
  }

  // One request of one move; any failure ends the whole server.
  function MoveStep(s: State, pid: nat, v: Server, c: Choice): State
    requires v.Move? && c.key in v.flight
  {
    var from := c.key;
    match v.flight[from]
    case Get =>
      // A key that has gone is read as an empty one.
      var body := if from in s.bucket then s.bucket[from] else [];
      if c.ok then Become(s, pid, v.(flight := v.flight[from := Put(body)])) else Quit(s, pid)
    case Put(body) =>
      var s' := if c.ok || c.landed then PutIfAbsent(s, Canonical(from), body) else s;
      if c.ok then Become(s', pid, v.(flight := v.flight[from := Drop])) else Quit(s', pid)
    case Drop =>
      var s' := if c.ok || c.landed then Delete(s, from) else s;
      if c.ok then Become(s', pid, v.(flight := v.flight - {from})) else Quit(s', pid)
  }

  function ServerStep(s: State, pid: nat, v: Server, c: Choice): Option<State> {
    match v
    case Look =>
      if !c.ok then Some(Quit(s, pid)) else Some(Become(s, pid, if DONE in s.bucket then Ended else List))
    case List =>
      // Every key there is, and perhaps some that have gone since.
      if !c.ok then Some(Quit(s, pid))
      else if s.bucket.Keys <= c.listing <= s.ever
      then Some(Become(s, pid, Move(set k | k in c.listing && CanonicalKey(k).Some?, map[])))
      else None
    case Move(pending, flight) =>
      if c.key in flight then Some(MoveStep(s, pid, v, c))
      else if c.key in pending && |flight| < CONCURRENCY
      then Some(Become(s, pid, Move(pending - {c.key}, flight[c.key := Get])))
      else if pending == {} && flight == map[] then
        var s' := if c.ok || c.landed then s.(bucket := s.bucket[DONE := []], ever := s.ever + {DONE}) else s;
        Some(if c.ok then Become(s', pid, Ended) else Quit(s', pid))
      else None
    case Ended => None
  }

  function Step(s: State, a: Action): Option<State> {
    match a
    case Start(pid) => if pid !in s.servers then Some(Become(s, pid, Look)) else None
    case Stop(pid) => Some(Quit(s, pid))
    case Advance(pid, c) => if pid !in s.servers then None else ServerStep(s, pid, s.servers[pid], c)
  }

  // ----- The inductive invariant -----

  // A body some key of the same canonical spelling had in the first place.
  ghost predicate Origin(init: Bucket, key: string, body: Bytes) {
    exists k | k in init :: Canonical(k) == Canonical(key) && init[k] == body
  }

  ghost predicate There(b: Bucket, key: string) {
    key in b || Canonical(key) in b
  }

  ghost predicate FlightOk(init: Bucket, b: Bucket, from: string, at: MoveAt) {
    && Canonical(from) != from && There(b, from)
    && (at.Put? ==> Canonical(from) in b || Origin(init, from, at.body))
    && (at.Drop? ==> Canonical(from) in b)
  }

  ghost predicate ServerOk(init: Bucket, s: State, v: Server) {
    v.Move? ==>
      && (forall k | k in v.flight :: FlightOk(init, s.bucket, k, v.flight[k]))
      && (forall k | k in s.bucket && Canonical(k) != k :: k in v.pending || k in v.flight)
      && (forall k | k in v.pending :: Canonical(k) != k && k in s.ever)
  }

  ghost predicate BucketOk(init: Bucket, s: State) {
    && s.bucket.Keys <= s.ever && init.Keys <= s.ever
    && (forall k | k in s.ever :: There(s.bucket, k))
    && (forall k | k in s.bucket && k != DONE :: Origin(init, k, s.bucket[k]))
    && (forall k | k in init && Canonical(k) == k :: k in s.bucket && s.bucket[k] == init[k])
  }

  // Once the mark is there, nothing is left to move.
  ghost predicate DoneOk(b: Bucket) {
    DONE in b ==> forall k | k in b :: Canonical(k) == k
  }

  ghost predicate Inv(init: Bucket, s: State) {
    && DONE !in init
    && BucketOk(init, s)
    && DoneOk(s.bucket)
    && (forall q | q in s.servers :: ServerOk(init, s, s.servers[q]))
  }

  // ----- What each request keeps -----

  // What one server's request may do to what the others rely on.
  ghost predicate Gentle(s: State, s': State) {
    && s.ever <= s'.ever
    && (forall k | k in s.bucket && Canonical(k) == k :: k in s'.bucket)
    && (forall k | k in s'.bucket && Canonical(k) != k :: k in s.bucket)
    && (forall k | There(s.bucket, k) :: There(s'.bucket, k))
  }

  lemma OthersStayOk(init: Bucket, s: State, s': State, v: Server)
    requires ServerOk(init, s, v) && Gentle(s, s')
    ensures ServerOk(init, s', v)
  {
    hide Canonical, Origin;
    if v.Move? {
      forall k | k in v.flight ensures FlightOk(init, s'.bucket, k, v.flight[k]) {
        assert FlightOk(init, s.bucket, k, v.flight[k]);
        CanonicalTwice(k);
      }
    }
  }

  lemma Assemble(init: Bucket, s: State, s': State, pid: nat)
    requires Inv(init, s) && BucketOk(init, s') && DoneOk(s'.bucket) && Gentle(s, s')
    requires forall q | q in s'.servers && q != pid :: q in s.servers && s'.servers[q] == s.servers[q]
    requires pid in s'.servers ==> ServerOk(init, s', s'.servers[pid])
    ensures Inv(init, s')
  {
    hide ServerOk, BucketOk, Gentle, DoneOk;
    forall q | q in s'.servers ensures ServerOk(init, s', s'.servers[q]) {
      if q != pid { OthersStayOk(init, s, s', s.servers[q]); }
    }
  }

  lemma PutKeeps(init: Bucket, s: State, from: string, body: Bytes)
    requires BucketOk(init, s) && DoneOk(s.bucket) && DONE !in init
    requires FlightOk(init, s.bucket, from, Put(body))
    ensures var s' := PutIfAbsent(s, Canonical(from), body);
      BucketOk(init, s') && DoneOk(s'.bucket) && Gentle(s, s') && FlightOk(init, s'.bucket, from, Drop)
  {
    hide Canonical, CanonicalKey, Origin;
    CanonicalTwice(from);
    DoneIsCanonical();
    if Canonical(from) !in s.bucket {
      OriginMoves(init, from, body);
      assert Canonical(from) != DONE by { if Canonical(from) == DONE { OnlyDoneIsDone(from); } }
    }
  }

  lemma OriginMoves(init: Bucket, from: string, body: Bytes)
    requires Origin(init, from, body)
    ensures Origin(init, Canonical(from), body)
  {
    hide Canonical;
    CanonicalTwice(from);
  }

  lemma DropKeeps(init: Bucket, s: State, from: string)
    requires BucketOk(init, s) && DoneOk(s.bucket) && FlightOk(init, s.bucket, from, Drop)
    ensures var s' := Delete(s, from);
      BucketOk(init, s') && DoneOk(s'.bucket) && Gentle(s, s')
  {
    hide Canonical, Origin;
    CanonicalTwice(from);
    forall k | There(s.bucket, k) ensures There(Delete(s, from).bucket, k) {
      CanonicalTwice(k);
    }
  }

  lemma MarkKeeps(init: Bucket, s: State)
    requires BucketOk(init, s) && DONE !in init
    requires forall k | k in s.bucket :: Canonical(k) == k
    ensures var s' := s.(bucket := s.bucket[DONE := []], ever := s.ever + {DONE});
      BucketOk(init, s') && DoneOk(s'.bucket) && Gentle(s, s')
  {
    hide Canonical, Origin;
    DoneIsCanonical();
  }

  lemma NothingKeeps(init: Bucket, s: State, s': State)
    requires BucketOk(init, s) && DoneOk(s.bucket) && s'.bucket == s.bucket && s'.ever == s.ever
    ensures BucketOk(init, s') && DoneOk(s'.bucket) && Gentle(s, s')
  {
  }
}
