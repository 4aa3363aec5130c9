/**
 The local store at work: pushes, collections and the two migrations of any number
 of repositories over one filesystem, interleaved one filesystem call at a time,
 each able to stop at any call.
 */
module LocalProtocol {
  import opened Wrappers
  import opened Bytes
  import opened Names
  import opened Sealing
  import opened Framing
  import opened Reading
  import opened CodecTheorems
  import opened Serving
  import opened Files

  // What the store reads with, and the digest objects are named by.
  datatype World = World(t: Transforms, ring: Option<Keyring>, digest: Bytes -> Oid)
  {
    // No two payloads share a digest.
    ghost predicate Sound() {
      t.Lawful() && forall a, b | digest(a) == digest(b) :: a == b
    }

    // A configuration this store writes under and can read back.
    predicate Writes(c: Config, payload: Bytes) {
      c.Sound() && Holds(ring, c) && CeilDiv(|payload|, FRAME) < U32
    }
  }

  datatype PushAt = Look | Publish | Attach | Restore | Reattach | Discard | Pushed
  datatype CollectAt = Detach | Count | Sweep | Collected
  datatype AdoptAt = Check | Borrow | Replace | Adopted
  datatype PromoteAt = Vet | Away | Back | Undo | Promoted
  datatype CompressAt =
    | Sniff
    | Rewrite
    | Judge(source: Bytes)
    | Compare
    | SwapOwn
    | SwapShared
    | Relink
    | Settle
    | Compressed

  datatype Proc =
    | Push(repo: Repo, oid: Oid, config: Config, payload: Bytes, ticket: nat, pushAt: PushAt)
    | Collect(repo: Repo, oid: Oid, collectAt: CollectAt)
    | Adopt(repo: Repo, oid: Oid, ticket: nat, adoptAt: AdoptAt)
    | Promote(repo: Repo, oid: Oid, promoteAt: PromoteAt)
    | Compress(repo: Repo, oid: Oid, config: Config, ticket: nat, dry: bool, compressAt: CompressAt)
  {
    predicate HasTicket(n: nat) {
      (Push? || Adopt? || Compress?) && ticket == n
    }

    function Here(): Path { Object(repo, oid) }
    function There(): Path { Shared(oid) }
    function Staged(): Path
      requires Push? || Adopt? || Compress?
    {
      Staging(ticket, false)
    }
  }

  datatype State = State(fs: Fs, procs: map<nat, Proc>)

  // `ok` settles a question the filesystem leaves open; `inode` is the number a new
  // file is given.
  datatype Choice = Choice(ok: bool, inode: nat)

  datatype Action = Start(pid: nat, proc: Proc, inode: nat) | Abort(pid: nat) | Advance(pid: nat, choice: Choice)

  function Become(s: State, pid: nat, fs: Fs, p: Proc): State {
    State(fs, s.procs[pid := p])
  }

  function Quit(s: State, pid: nat, fs: Fs): State {
    State(fs, s.procs - {pid})
  }

  // ----- LocalStore::link_or_move -----

  function PushStep(s: State, pid: nat, p: Proc): State
    requires p.Push?
  {
    var fs := s.fs;
    match p.pushAt
    case Look => Become(s, pid, fs, p.(pushAt := if fs.Has(p.There()) then Attach else Publish))
    case Publish =>
      (match Link(fs, p.Staged(), p.There())
       case Linked(fs') => Become(s, pid, fs', p.(pushAt := Attach))
       case Exists => Become(s, pid, fs, p.(pushAt := Attach))
       case Missing => Quit(s, pid, fs))
    case Attach =>
      (match Link(fs, p.There(), p.Here())
       case Linked(fs') => Become(s, pid, fs', p.(pushAt := Discard))
       case Exists => Become(s, pid, fs, p.(pushAt := Discard))
       // Collected between finding it and linking to it.
       case Missing => Become(s, pid, fs, p.(pushAt := Restore)))
    case Restore =>
      (match Link(fs, p.Staged(), p.There())
       case Linked(fs') => Become(s, pid, fs', p.(pushAt := Reattach))
       case Exists => Become(s, pid, fs, p.(pushAt := Reattach))
       case Missing => Quit(s, pid, fs))
    case Reattach =>
      (match Link(fs, p.There(), p.Here())
       case Linked(fs') => Become(s, pid, fs', p.(pushAt := Discard))
       case Exists => Become(s, pid, fs, p.(pushAt := Discard))
       case Missing => Quit(s, pid, fs))
    case Discard => Become(s, pid, Unlink(fs, p.Staged()), p.(pushAt := Pushed))
    case Pushed => Quit(s, pid, fs)
  }

  // ----- LocalStore::collect, once an object is known to be droppable -----

  function CollectStep(s: State, pid: nat, p: Proc, c: Choice): State
    requires p.Collect?
  {
    var fs := s.fs;
    match p.collectAt
    case Detach => Become(s, pid, Unlink(fs, p.Here()), p.(collectAt := Count))
    case Count =>
      // The link count where there is a shared entry; else a probe of the other
      // repositories, whose answer may be out of date.
      var elsewhere := if fs.Has(p.There()) then fs.Links(fs.names[p.There()]) > 1 else c.ok;
      Become(s, pid, fs, p.(collectAt := if elsewhere then Collected else Sweep))
    case Sweep => Become(s, pid, Unlink(fs, p.There()), p.(collectAt := Collected))
    case Collected => Quit(s, pid, fs)
  }

  // ----- LocalStore::adopt -----

  function AdoptStep(w: World, s: State, pid: nat, p: Proc): State
    requires p.Adopt? && s.fs.Valid()
  {
    var fs := s.fs;
    match p.adoptAt
    case Check =>
      if fs.Has(p.There()) && w.digest(fs.Read(p.There())) == p.oid
      then Become(s, pid, fs, p.(adoptAt := Borrow))
      else Become(s, pid, fs, p.(adoptAt := Adopted))
    case Borrow =>
      (match Link(fs, p.There(), p.Staged())
       case Linked(fs') => Become(s, pid, fs', p.(adoptAt := Replace))
       case Exists => Become(s, pid, fs, p.(adoptAt := Replace))
       case Missing => Quit(s, pid, fs))
    case Replace =>
      (match Rename(fs, p.Staged(), p.Here())
       case None => Quit(s, pid, fs)
       case Some(fs') => Become(s, pid, fs', p.(adoptAt := Adopted)))
    case Adopted => Quit(s, pid, fs)
  }

  // ----- LocalStore::promote -----

  function PromoteStep(w: World, s: State, pid: nat, p: Proc): State
    requires p.Promote? && s.fs.Valid()
  {
    var fs := s.fs;
    match p.promoteAt
    case Vet =>
      if fs.Has(p.Here()) && w.digest(fs.Read(p.Here())) == p.oid
      then Become(s, pid, fs, p.(promoteAt := Away))
      else Become(s, pid, fs, p.(promoteAt := Promoted))
    case Away =>
      (match Rename(fs, p.Here(), p.There())
       case None => Quit(s, pid, fs)
       case Some(fs') => Become(s, pid, fs', p.(promoteAt := Back)))
    case Back =>
      (match Link(fs, p.There(), p.Here())
       case Linked(fs') => Become(s, pid, fs', p.(promoteAt := Promoted))
       case Exists => Become(s, pid, fs, p.(promoteAt := Promoted))
       case Missing => Become(s, pid, fs, p.(promoteAt := Undo)))
    case Undo =>
      (match Rename(fs, p.There(), p.Here())
       case None => Quit(s, pid, fs)
       case Some(fs') => Quit(s, pid, fs'))
    case Promoted => Quit(s, pid, fs)
  }

  // ----- LocalStore::compress_object and swap_in -----

  // Writing a staged copy is left undone when no inode is free for it, or when the
  // object has more frames than can be counted.
  function CompressStep(w: World, s: State, pid: nat, p: Proc, c: Choice): State
    requires p.Compress? && s.fs.Valid() && p.config.Sound()
  {
    var fs := s.fs;
    match p.compressAt
    case Sniff =>
      if fs.Has(p.Here()) && Opening(fs.Read(p.Here()), w.ring, p.oid).Raw?
      then Become(s, pid, fs, p.(compressAt := Rewrite))
      else Quit(s, pid, fs)
    case Rewrite =>
      if fs.Has(p.Here()) && c.inode !in fs.data && w.Writes(p.config, fs.Read(p.Here())) then
        var source := fs.Read(p.Here());
        Become(s, pid, Create(fs, p.Staged(), c.inode, Container(w.t, p.config, source)), p.(compressAt := Judge(source)))
      else Quit(s, pid, fs)
    case Judge(source) =>
      if w.digest(source) == p.oid && |Container(w.t, p.config, source)| < |source| && !p.dry
      then Become(s, pid, fs, p.(compressAt := Compare))
      else Become(s, pid, Unlink(fs, p.Staged()), p.(compressAt := Compressed))
    case Compare =>
      if fs.Has(p.Here()) && fs.Has(p.There()) && fs.names[p.Here()] == fs.names[p.There()]
      then Become(s, pid, fs, p.(compressAt := SwapShared))
      else Become(s, pid, fs, p.(compressAt := SwapOwn))
    case SwapOwn =>
      (match Rename(fs, p.Staged(), p.Here())
       case None => Quit(s, pid, fs)
       case Some(fs') => Become(s, pid, fs', p.(compressAt := Compressed)))
    case SwapShared =>
      (match Rename(fs, p.Staged(), p.There())
       case None => Quit(s, pid, fs)
       case Some(fs') => Become(s, pid, fs', p.(compressAt := Relink)))
    case Relink =>
      (match Link(fs, p.There(), Staging(p.ticket, true))
       case Linked(fs') => Become(s, pid, fs', p.(compressAt := Settle))
       case Exists => Become(s, pid, fs, p.(compressAt := Settle))
       case Missing => Quit(s, pid, fs))
    case Settle =>
      (match Rename(fs, Staging(p.ticket, true), p.Here())
       case None => Quit(s, pid, fs)
       case Some(fs') => Become(s, pid, fs', p.(compressAt := Compressed)))
    case Compressed => Quit(s, pid, fs)
  }

  // ----- Interleaving -----

  // A push that is not over, and whatever takes a name away from a repository.
  predicate Pushing(p: Proc, repo: Repo, oid: Oid) {
    p.Push? && p.pushAt != Pushed && p.repo == repo && p.oid == oid
  }

  predicate Taking(p: Proc, repo: Repo, oid: Oid) {
    p.repo == repo && p.oid == oid &&
    ((p.Collect? && p.collectAt == Detach) || (p.Promote? && p.promoteAt in {Vet, Away}))
  }

  predicate Fresh(w: World, p: Proc) {
    match p
    case Push(_, oid, config, payload, _, at) =>
      at == Look && config.oid == oid && w.digest(payload) == oid && w.Writes(config, payload)
    case Collect(_, _, at) => at == Detach
    case Adopt(_, _, _, at) => at == Check
    case Promote(_, _, at) => at == Vet
    case Compress(_, oid, config, _, _, at) => at == Sniff && config.oid == oid && config.Sound()
  }

  // A repository's own sweep and promotion keep off an object it is pushing, and
  // staging names are drawn once.
  predicate MayStart(s: State, p: Proc) {
    && (forall q | q in s.procs ::
         && (p.Push? ==> !Taking(s.procs[q], p.repo, p.oid))
         && (Taking(p, p.repo, p.oid) ==> !Pushing(s.procs[q], p.repo, p.oid))
         && (p.Push? || p.Adopt? || p.Compress? ==> !s.procs[q].HasTicket(p.ticket)))
    && (p.Push? || p.Adopt? || p.Compress? ==>
         !s.fs.Has(Staging(p.ticket, false)) && !s.fs.Has(Staging(p.ticket, true)))
  }

  function Step(w: World, s: State, a: Action): Option<State>
    requires s.fs.Valid() && forall q | q in s.procs && s.procs[q].Compress? :: s.procs[q].config.Sound()
  {
    match a
    case Start(pid, p, inode) =>
      if pid in s.procs || !Fresh(w, p) || !MayStart(s, p) || inode in s.fs.data then None
      // A push begins where its upload has been staged and checked.
      else if p.Push? then Some(Become(s, pid, Create(s.fs, p.Staged(), inode, Disk(w.t, p.config, p.payload)), p))
      else Some(Become(s, pid, s.fs, p))
    case Abort(pid) => Some(Quit(s, pid, s.fs))
    case Advance(pid, c) =>
      if pid !in s.procs then None
      else
        var p := s.procs[pid];
        match p
        case Push(_, _, _, _, _, _) => Some(PushStep(s, pid, p))
        case Collect(_, _, _) => Some(CollectStep(s, pid, p, c))
        case Adopt(_, _, _, _) => Some(AdoptStep(w, s, pid, p))
        case Promote(_, _, _) => Some(PromoteStep(w, s, pid, p))
        case Compress(_, _, _, _, _, _) => Some(CompressStep(w, s, pid, p, c))
  }
}
