/**
 The bucket claim-index protocol: pushes, adoptions and sweeps of any number of
 repositories, interleaved one keyspace request at a time, each able to stop at
 any request.

 A repository's marker is its claim on the shared content, and a ref is the index
 entry of that claim.  The order of the writes is the whole design: ref before the
 content is looked at, content before the marker; marker deleted before its ref;
 `.refs/.complete` only after every marker listed has been given a ref.
 */
module BucketProtocol {
  import opened Wrappers
  import opened Names
  import opened BucketKeys

  type Bucket = map<Key, nat>
  type Claim = (Repo, Oid)

  // ----- Programs -----

  datatype PushAt = WriteRef | Look | Upload | WriteMarker | WriteSize | Clean | Pushed

  // What a sweep knows once it has listed.  `indexed` is the answer `.complete`
  // gave; `listed` and `sizes` are what a whole-bucket listing returned.
  datatype Plan = Plan(indexed: bool, complete: bool, listed: set<Claim>, sizes: map<Oid, nat>)

  datatype SweepAt =
    | Ready
    | ListOwn(own: set<Key>)
    | ListAll(must: set<Key>)
    | Fill(pending: set<Claim>)
    | Mark
    | Next
    | Ask(oid: Oid)
    | DropMarker(oid: Oid, frees: bool)
    | DropRef(oid: Oid, frees: bool)
    | DropSize(oid: Oid, frees: bool)
    | Recheck(oid: Oid, frees: bool)
    | Delete(oid: Oid)
    | Erase(oid: Oid, existed: bool, size: nat)
    | Swept

  datatype Proc =
    | Push(repo: Repo, oid: Oid, direct: bool, pushAt: PushAt)
    | Sweep(repo: Repo, retained: set<Oid>, dry: bool, plan: Plan, todo: set<Oid>, at: SweepAt)

  datatype State = State(bucket: Bucket, procs: map<nat, Proc>, removed: nat, reported: nat)

  // `quiet`: no repository writes a new claim on an object between a sweep's last
  // index read and the delete that follows it.  `noSelfRace`: a repository does
  // not push an object while its own sweep is dropping it.  `toRemover`: of several
  // deletes of one key only the one that removed it is told so; otherwise whether
  // the key was there is asked first, and the delete follows.  `length` is the one
  // stored size an object has.
  datatype Rules = Rules(quiet: bool, noSelfRace: bool, toRemover: bool, length: Oid -> nat)

  // How the environment resolves one request: whether it was answered, and where
  // the code leaves it open, what was answered or taken next.
  datatype Choice = Choice(ok: bool, oid: Oid, claim: Claim, listing: map<Key, nat>, aged: set<Oid>)

  datatype Action =
    | Start(pid: nat, proc: Proc)
    | Abort(pid: nat)
    | Advance(pid: nat, choice: Choice)
    | ClientUpload(repo: Repo, oid: Oid)
    | Reclaim(repo: Repo, oid: Oid)
    | StrayRef(repo: Repo, oid: Oid)

  // ----- Who is doing what -----

  // A push that has written its ref and not finished: it is claiming the object.
  predicate Claiming(p: Proc, repo: Repo, oid: Oid) {
    p.Push? && p.repo == repo && p.oid == oid && p.pushAt != WriteRef && p.pushAt != Pushed
  }

  // A sweep between asking for the marker's deletion and being done with the object.
  predicate Dropping(p: Proc, repo: Repo, oid: Oid) {
    p.Sweep? && p.repo == repo &&
    match p.at
    case DropMarker(o, _) => o == oid
    case DropRef(o, _) => o == oid
    case DropSize(o, _) => o == oid
    case Recheck(o, _) => o == oid
    case Delete(o) => o == oid
    case Erase(o, _, _) => o == oid
    case _ => false
  }

  predicate Deleting(p: Proc, oid: Oid) {
    p.Sweep? && (p.at.Delete? || p.at.Erase?) && p.at.oid == oid
  }

  predicate MayClaim(rules: Rules, s: State, repo: Repo, oid: Oid) {
    forall q | q in s.procs ::
      && (rules.noSelfRace ==> !Dropping(s.procs[q], repo, oid))
      && (rules.quiet && s.procs[q].repo != repo ==> !Deleting(s.procs[q], oid))
  }

  predicate MayDrop(rules: Rules, s: State, repo: Repo, oid: Oid) {
    rules.noSelfRace ==> forall q | q in s.procs :: !Claiming(s.procs[q], repo, oid)
  }

  predicate ClaimedByAnother(b: Bucket, repo: Repo, oid: Oid) {
    exists k | k in b :: k.Ref? && k.oid == oid && k.repo != repo
  }

  // ----- Requests -----

  function Put(s: State, k: Key, size: nat): State {
    s.(bucket := s.bucket[k := size])
  }

  // A key deleted while a listing is under way is one the listing may miss.
  function Forget(p: Proc, k: Key): Proc {
    if p.Sweep? && p.at.ListOwn? then p.(at := ListOwn(p.at.own - {k}))
    else if p.Sweep? && p.at.ListAll? then p.(at := ListAll(p.at.must - {k}))
    else p
  }

  function Remove(s: State, k: Key): State {
    s.(bucket := s.bucket - {k}, procs := map q | q in s.procs :: Forget(s.procs[q], k))
  }

  function Become(s: State, pid: nat, p: Proc): State {
    s.(procs := s.procs[pid := p])
  }

  // ----- S3Store::store and S3Store::adopt -----

  function PushStep(rules: Rules, s: State, pid: nat, p: Proc, c: Choice): Option<State>
    requires p.Push?
  {
    match p.pushAt
    case WriteRef =>
      if MayClaim(rules, s, p.repo, p.oid)
      then Some(Become(Put(s, Ref(p.oid, p.repo), 0), pid, p.(pushAt := Look)))
      else None
    case Look =>
      // Any failure to see the content is an absence.
      if c.ok && Content(p.oid) in s.bucket
      then Some(Become(s, pid, p.(pushAt := WriteMarker)))
      else Some(Become(s, pid, p.(pushAt := Upload)))
    case Upload =>
      // An adoption copies the client's own upload, which has to be there.
      if p.direct && Incoming(p.repo, p.oid) !in s.bucket
      then None
      else Some(Become(Put(s, Content(p.oid), rules.length(p.oid)), pid, p.(pushAt := WriteMarker)))
    case WriteMarker =>
      Some(Become(Put(s, Marker(p.repo, p.oid), 0), pid, p.(pushAt := WriteSize)))
    case WriteSize =>
      Some(Become(Put(s, Size(p.repo, p.oid, rules.length(p.oid)), 0), pid,
                  p.(pushAt := if p.direct then Clean else Pushed)))
    case Clean =>
      // A failure to clean up is not a failure of the push.
      Some(Become(if c.ok then Remove(s, Incoming(p.repo, p.oid)) else s, pid, p.(pushAt := Pushed)))
    case Pushed => None
  }

  // ----- S3Store::sweep -----

  // What a listing may answer: every key present throughout, and anything else;
  // each object has one size.
  predicate Listing(rules: Rules, must: set<Key>, listing: map<Key, nat>) {
    must <= listing.Keys &&
    forall k | k in listing :: k.Content? ==> listing[k] == rules.length(k.oid)
  }

  function Claims(listing: map<Key, nat>): (claims: set<Claim>)
    ensures forall r: Repo, o: Oid :: (r, o) in claims <==> Marker(r, o) in listing
  {
    set k | k in listing && k.Marker? :: (k.repo, k.oid)
  }

  function Sizes(listing: map<Key, nat>): (sizes: map<Oid, nat>)
    ensures forall o :: o in sizes <==> Content(o) in listing
    ensures forall o | o in sizes :: sizes[o] == listing[Content(o)]
  {
    var oids := set k | k in listing && k.Content? :: k.oid;
    map o | o in oids :: listing[Content(o)]
  }

  // This repository's markers that are neither retained nor young.
  function Droppable(claims: set<Claim>, repo: Repo, retained: set<Oid>, aged: set<Oid>): (r: set<Oid>)
    ensures forall o :: o in r <==> (repo, o) in claims && o !in retained && o in aged
  {
    set q | q in claims && q.0 == repo && q.1 !in retained && q.1 in aged :: q.1
  }

  function Unclaimed(plan: Plan, repo: Repo, oid: Oid): bool {
    plan.complete && forall q | q in plan.listed :: q.1 == oid ==> q.0 == repo
  }

  // The bytes go, and are counted by a sweep that takes itself for their remover.
  function Erased(s: State, oid: Oid, mine: bool, size: nat): State {
    var gone := if Content(oid) in s.bucket then s.bucket[Content(oid)] else 0;
    Remove(s, Content(oid)).(removed := s.removed + gone, reported := s.reported + if mine then size else 0)
  }

  function SweepStep(rules: Rules, s: State, pid: nat, p: Proc, c: Choice): Option<State>
    requires p.Sweep?
  {
    match p.at
    case Ready =>
      // A failure to see the mark is an absence.
      if c.ok && Complete in s.bucket
      then Some(Become(s, pid, p.(plan := Plan(true, false, {}, map[]), at := ListOwn(s.bucket.Keys))))
      else Some(Become(s, pid, p.(plan := Plan(false, false, {}, map[]), at := ListAll(s.bucket.Keys))))
    case ListOwn(own) =>
      if !c.ok then Some(Become(s, pid, p.(at := Next, todo := {})))
      else if Listing(rules, (set k | k in own && k.Marker? && k.repo == p.repo), c.listing)
      then Some(Become(s, pid, p.(at := Next, todo := Droppable(Claims(c.listing), p.repo, p.retained, c.aged))))
      else None
    case ListAll(must) =>
      if !c.ok then Some(Become(s, pid, p.(at := Next, todo := {})))
      else if Listing(rules, must, c.listing)
      then
        var claims := Claims(c.listing);
        var q := p.(plan := Plan(false, true, claims, Sizes(c.listing)),
                    todo := Droppable(claims, p.repo, p.retained, c.aged));
        Some(Become(s, pid, q.(at := if p.dry then Next else Fill(claims))))
      else None
    case Fill(pending) =>
      // The index is abandoned at the first failure; the sweep goes on without it.
      if !c.ok then Some(Become(s, pid, p.(at := Next)))
      else if pending == {} then Some(Become(s, pid, p.(at := Mark)))
      else if c.claim in pending
      then Some(Become(Put(s, Ref(c.claim.1, c.claim.0), 0), pid, p.(at := Fill(pending - {c.claim}))))
      else None
    case Mark =>
      Some(Become(if c.ok then Put(s, Complete, 0) else s, pid, p.(at := Next)))
    case Next =>
      if p.todo == {} then Some(Become(s, pid, p.(at := Swept)))
      else if c.oid !in p.todo then None
      else
        var q := p.(todo := p.todo - {c.oid});
        if p.plan.indexed then Some(Become(s, pid, q.(at := Ask(c.oid))))
        else if p.dry then Some(Become(s, pid, q))
        else if MayDrop(rules, s, p.repo, c.oid)
        then Some(Become(s, pid, q.(at := DropMarker(c.oid, Unclaimed(p.plan, p.repo, c.oid)))))
        else None
    case Ask(oid) =>
      // An index that cannot be read answers that the object is claimed.
      var frees := c.ok && !ClaimedByAnother(s.bucket, p.repo, oid);
      if p.dry then Some(Become(s, pid, p.(at := Next)))
      else if MayDrop(rules, s, p.repo, oid)
      then Some(Become(s, pid, p.(at := DropMarker(oid, frees))))
      else None
    case DropMarker(oid, frees) =>
      Some(Become(Remove(s, Marker(p.repo, oid)), pid, p.(at := DropRef(oid, frees))))
    case DropRef(oid, frees) =>
      Some(Become(if c.ok then Remove(s, Ref(oid, p.repo)) else s, pid, p.(at := DropSize(oid, frees))))
    case DropSize(oid, frees) =>
      Some(Become(if c.ok then Remove(s, Size(p.repo, oid, rules.length(oid))) else s, pid,
                  p.(at := Recheck(oid, frees))))
    case Recheck(oid, frees) =>
      if frees && c.ok && !ClaimedByAnother(s.bucket, p.repo, oid)
      then Some(Become(s, pid, p.(at := Delete(oid))))
      else Some(Become(s, pid, p.(at := Next)))
    case Delete(oid) =>
      var held := if Content(oid) in s.bucket then s.bucket[Content(oid)] else 0;
      var size :=
        if p.plan.indexed then (if c.ok then held else 0)
        else if oid in p.plan.sizes then p.plan.sizes[oid] else 0;
      if rules.toRemover
      then Some(Become(Erased(s, oid, Content(oid) in s.bucket, size), pid, p.(at := Next)))
      else Some(Become(s, pid, p.(at := Erase(oid, c.ok && Content(oid) in s.bucket, size))))
    case Erase(oid, existed, size) => Some(Become(Erased(s, oid, existed, size), pid, p.(at := Next)))
    case Swept => None
  }

  // ----- Interleaving -----

  predicate Fresh(p: Proc) {
    if p.Push? then p.pushAt == WriteRef else p.at == Ready
  }

  function Step(rules: Rules, s: State, a: Action): Option<State> {
    match a
    case Start(pid, p) =>
      if pid !in s.procs && Fresh(p) then Some(Become(s, pid, p)) else None
    case Abort(pid) =>
      Some(s.(procs := s.procs - {pid}))
    case Advance(pid, c) =>
      if pid !in s.procs then None
      else if s.procs[pid].Push? then PushStep(rules, s, pid, s.procs[pid], c)
      else SweepStep(rules, s, pid, s.procs[pid], c)
    case ClientUpload(repo, oid) => Some(Put(s, Incoming(repo, oid), rules.length(oid)))
    case Reclaim(repo, oid) => Some(Remove(s, Incoming(repo, oid)))
    // A ref from a backfill that was cut short, landing after its sweep moved on.
    case StrayRef(repo, oid) => Some(Put(s, Ref(oid, repo), 0))
  }

  // ----- What is promised -----

  // A marker in the bucket means the content is in the bucket.
  ghost predicate Held(b: Bucket) {
    forall r: Repo, o: Oid :: Marker(r, o) in b ==> Content(o) in b
  }

  ghost predicate RefLess(b: Bucket, r: Repo, o: Oid) {
    Marker(r, o) in b && Ref(o, r) !in b
  }

  // The index, once marked complete, misses no holder.
  ghost predicate Indexed(b: Bucket) {
    Complete in b ==> forall r: Repo, o: Oid :: !RefLess(b, r, o)
  }

  // ----- The inductive invariant -----

  ghost predicate Covered(b: Bucket, claims: set<Claim>) {
    forall r: Repo, o: Oid | RefLess(b, r, o) :: (r, o) in claims
  }

  ghost predicate PushOk(b: Bucket, p: Proc)
    requires p.Push?
  {
    && (p.pushAt != WriteRef && p.pushAt != Pushed ==> Ref(p.oid, p.repo) in b)
    && (p.pushAt in {WriteMarker, WriteSize, Clean} ==> Content(p.oid) in b)
    && (p.pushAt in {WriteSize, Clean} ==> Marker(p.repo, p.oid) in b)
  }

  ghost predicate PlanOk(b: Bucket, plan: Plan) {
    (plan.indexed ==> Complete in b) && (plan.complete ==> Covered(b, plan.listed))
  }

  ghost predicate FreesOk(p: Proc, oid: Oid, frees: bool)
    requires p.Sweep?
  {
    !p.dry && (frees && !p.plan.indexed ==> Unclaimed(p.plan, p.repo, oid))
  }

  ghost predicate SweepOk(s: State, p: Proc)
    requires p.Sweep?
  {
    var b := s.bucket;
    (p.at.Ready? || PlanOk(b, p.plan)) &&
    (p.at.Ready? || p.at.ListOwn? || p.at.ListAll? || p.todo !! p.retained) &&
    match p.at
    case ListAll(must) => !p.plan.indexed && forall r: Repo, o: Oid | RefLess(b, r, o) :: Marker(r, o) in must
    case Fill(pending) => !p.dry && Covered(b, pending)
    case Mark => !p.dry && Covered(b, {})
    case Ask(o) => p.plan.indexed && o !in p.retained
    case DropMarker(o, frees) => FreesOk(p, o, frees) && o !in p.retained
    case DropRef(o, frees) => FreesOk(p, o, frees) && Marker(p.repo, o) !in b
    case DropSize(o, frees) => FreesOk(p, o, frees) && Marker(p.repo, o) !in b
    case Recheck(o, frees) => FreesOk(p, o, frees) && Marker(p.repo, o) !in b
    case Delete(o) => !p.dry && Untouched(s, o)
    case Erase(o, _, _) => !p.dry && Untouched(s, o)
    case _ => true
  }

  // Nobody holds the object and nobody is in the middle of claiming it.
  ghost predicate Untouched(s: State, o: Oid) {
    && (forall r: Repo :: Marker(r, o) !in s.bucket)
    && (forall q, r: Repo | q in s.procs :: !Claiming(s.procs[q], r, o))
  }

  ghost predicate ProcOk(s: State, p: Proc) {
    if p.Push? then PushOk(s.bucket, p) else SweepOk(s, p)
  }

  // No repository is claiming and dropping one object at once.
  ghost predicate Apart(s: State) {
    forall p, q, r: Repo, o: Oid | p in s.procs && q in s.procs ::
      Claiming(s.procs[p], r, o) ==> !Dropping(s.procs[q], r, o)
  }

  ghost predicate Inv(s: State) {
    && Held(s.bucket)
    && Indexed(s.bucket)
    && Apart(s)
    && (forall q | q in s.procs :: ProcOk(s, s.procs[q]))
  }

  // ----- What holds of the counts, whoever races whom -----

  ghost predicate Sized(rules: Rules, b: Bucket) {
    forall k | k in b :: k.Content? ==> b[k] == rules.length(k.oid)
  }

  // A rehearsal never gets to where something is written.
  predicate Rehearses(at: SweepAt) {
    at.Ready? || at.ListOwn? || at.ListAll? || at.Next? || at.Ask? || at.Swept?
  }

  ghost predicate CountOk(rules: Rules, p: Proc) {
    p.Sweep? ==>
      && (p.dry ==> Rehearses(p.at))
      && (rules.toRemover ==> !p.at.Erase?)
      && (!p.at.Ready? ==> forall o | o in p.plan.sizes :: p.plan.sizes[o] == rules.length(o))
  }

  ghost predicate Counts(rules: Rules, s: State) {
    && Sized(rules, s.bucket)
    && (forall q | q in s.procs :: CountOk(rules, s.procs[q]))
    && (rules.toRemover ==> s.reported <= s.removed)
  }
}
