/**
 The framed object: a header, the frames, and an index of their lengths.  The
 container is described here as a function of the payload; `Writer` builds it from
 chunks and `Framed` reads it back.
 */
module Framing {
  import opened Wrappers
  import opened Bytes
  import opened Names
  import opened Sealing

  const MAGIC: Bytes := [0x4C, 0x46, 0x5A, 0x31]
  const V_PLAIN: byte := 1
  const V_SEALED: byte := 2
  const HEADER: nat := 32
  const SEALED_HEADER: nat := 64
  const STORED: nat := 0x8000_0000
  const FRAME: nat := 4194304
  const FRAME_MIN: nat := 65536
  const FRAME_MAX: nat := 16777216

  function HeaderLen(version: byte): nat {
    if version == V_SEALED then SEALED_HEADER else HEADER
  }

  // How an object is written: at what level compressed, if at all, and under what
  // key sealed, if any.
  datatype Config = Config(level: Option<int>, key: Option<ObjectKey>, oid: Oid)
  {
    function Version(): byte {
      if key.Some? then V_SEALED else V_PLAIN
    }

    predicate Sound() {
      key.Some? ==> |key.value.id| == ID && |key.value.salt| == SALT
    }
  }

  // One frame as it lies in the file, and whether it was left uncompressed.
  datatype Frame = Frame(body: Bytes, stored: bool)

  // A frame that does not give up a twentieth of its size is stored as it arrived.
  function Squeeze(t: Transforms, level: Option<int>, plain: Bytes): Frame {
    match level
    case None => Frame(plain, true)
    case Some(l) =>
      var compressed := t.compress(plain, l);
      if |compressed| >= |plain| - |plain| / 20 then Frame(plain, true) else Frame(compressed, false)
  }

  function Encode(t: Transforms, c: Config, index: nat, last: bool, plain: Bytes): Frame {
    var f := Squeeze(t, c.level, plain);
    match c.key
    case None => f
    case Some(key) => f.(body := t.Seal(key, index % U32, last, c.oid, f.body))
  }

  // An index entry is a u32: the body's length, and a top bit for a stored frame.
  function Entry(f: Frame): (e: nat)
    ensures e < U32
  {
    var length := |f.body| % U32;
    if f.stored then length % STORED + STORED else length
  }

  function Entries(frames: seq<Frame>): (e: seq<nat>)
    ensures |e| == |frames|
    ensures forall i | 0 <= i < |e| :: e[i] == Entry(frames[i])
  {
    if frames == [] then [] else Entries(frames[..|frames| - 1]) + [Entry(frames[|frames| - 1])]
  }

  function Bodies(frames: seq<Frame>): (b: seq<Bytes>)
    ensures |b| == |frames|
    ensures forall i | 0 <= i < |b| :: b[i] == frames[i].body
  {
    seq(|frames|, i requires 0 <= i < |frames| => frames[i].body)
  }

  function IndexBytes(entries: seq<nat>): (b: Bytes)
    ensures |b| == 4 * |entries|
  {
    if entries == [] then [] else ToLe(entries[0], 4) + IndexBytes(entries[1..])
  }

  function Span(entries: seq<nat>): nat {
    if entries == [] then 0 else entries[0] % STORED + Span(entries[1..])
  }

  function Zeros(n: nat): (z: Bytes)
    ensures |z| == n
  {
    seq(n, _ => 0)
  }

  function Header(c: Config, plaintext: nat, frames: nat, index: nat): (h: Bytes)
    requires c.Sound()
    ensures |h| == HeaderLen(c.Version())
  {
    MAGIC + ([c.Version()] + Zeros(3) + (ToLe(plaintext, 8) + (ToLe(FRAME, 4) + (ToLe(frames, 4) + (ToLe(index, 8) + KeyFields(c))))))
  }

  // What a reader needs to find the key, in a sealed object.
  function KeyFields(c: Config): (b: Bytes)
    requires c.Sound()
    ensures |b| == HeaderLen(c.Version()) - HEADER
  {
    match c.key
    case None => []
    case Some(key) => key.id + (key.salt + Zeros(12))
  }

  // ----- The container of a payload -----

  // The first n frames of a payload that goes on after them.
  function Interior(t: Transforms, c: Config, payload: Bytes, n: nat): (frames: seq<Frame>)
    requires n * FRAME <= |payload|
    ensures |frames| == n
  {
    if n == 0 then [] else Interior(t, c, payload, n - 1) + [Encode(t, c, n - 1, false, Cut(payload, n - 1))]
  }

  // The i-th stretch of a frame's length, or what is left of it.
  function Cut(payload: Bytes, i: nat): (plain: Bytes)
    requires i * FRAME <= |payload|
    ensures |plain| <= FRAME
  {
    payload[i * FRAME..Min((i + 1) * FRAME, |payload|)]
  }

  // All frames of a payload.  A full frame is only interior if something follows
  // it, so the last one is never empty.
  function Frames(t: Transforms, c: Config, payload: Bytes): (frames: seq<Frame>)
    ensures |frames| == CeilDiv(|payload|, FRAME)
  {
    if payload == [] then []
    else
      var n := (|payload| - 1) / FRAME;
      Interior(t, c, payload, n) + [Encode(t, c, n, true, Cut(payload, n))]
  }

  function Assembled(c: Config, frames: seq<Frame>, plaintext: nat): Bytes
    requires c.Sound()
  {
    var entries := Entries(frames);
    Header(c, plaintext, |frames|, HeaderLen(c.Version()) + Span(entries)) + (Concat(Bodies(frames)) + IndexBytes(entries))
  }

  function Container(t: Transforms, c: Config, payload: Bytes): Bytes
    requires c.Sound()
  {
    Assembled(c, Frames(t, c, payload), |payload|)
  }

  // ----- Frames and what goes in -----

  lemma {:induction false} InteriorIsAPrefixMatter(t: Transforms, c: Config, payload: Bytes, longer: Bytes, n: nat)
    requires n * FRAME <= |payload| && payload <= longer
    ensures Interior(t, c, payload, n) == Interior(t, c, longer, n)
  {
    if n > 0 {
      InteriorIsAPrefixMatter(t, c, payload, longer, n - 1);
      assert Cut(payload, n - 1) == Cut(longer, n - 1);
    }
  }

  lemma AppendFrame(frames: seq<Frame>, f: Frame)
    ensures Entries(frames + [f]) == Entries(frames) + [Entry(f)]
    ensures Concat(Bodies(frames + [f])) == Concat(Bodies(frames)) + f.body
  {
    assert (frames + [f])[..|frames|] == frames;
    assert Bodies(frames + [f]) == Bodies(frames) + [f.body];
    ConcatAppends(Bodies(frames), [f.body]);
    assert Concat([f.body]) == f.body;
  }

  lemma {:induction false} InteriorAt(t: Transforms, c: Config, payload: Bytes, n: nat, i: nat)
    requires i < n && n * FRAME <= |payload|
    ensures Interior(t, c, payload, n)[i] == Encode(t, c, i, false, Cut(payload, i))
  {
    if i < n - 1 {
      InteriorAt(t, c, payload, n - 1, i);
    }
  }

  // Every frame is numbered by its place and only the final one is marked last.
  lemma FrameAt(t: Transforms, c: Config, payload: Bytes, i: nat)
    requires i < |Frames(t, c, payload)|
    ensures i * FRAME < |payload|
    ensures Frames(t, c, payload)[i] == Encode(t, c, i, i == |Frames(t, c, payload)| - 1, Cut(payload, i))
  {
    var n := (|payload| - 1) / FRAME;
    if i < n {
      InteriorAt(t, c, payload, n, i);
    }
  }

  // A frame is compressed exactly if that saves more than a twentieth of it, and never
  // grows by more than the tag it is sealed with.
  lemma CompressedExactlyWhen(t: Transforms, c: Config, payload: Bytes, i: nat)
    requires t.Lawful() && i < |Frames(t, c, payload)|
    ensures var f, plain := Frames(t, c, payload)[i], Cut(payload, i);
      && (!f.stored <==> c.level.Some? && 20 * (|plain| - |t.compress(plain, c.level.value)|) > |plain|)
      && |f.body| <= |plain| + if c.key.Some? then TAG else 0
  {
    hide Frames, Cut, Nonce, Associated;
    FrameAt(t, c, payload, i);
  }

  lemma BodyIsSmall(t: Transforms, c: Config, index: nat, last: bool, plain: Bytes)
    requires t.Lawful() && |plain| <= FRAME
    ensures |Encode(t, c, index, last, plain).body| <= FRAME + TAG
  {
  }
}
