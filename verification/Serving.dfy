/**
 How an object gets onto the disk when nothing is configured, and how it is served
 from whatever is there.
 */
module Serving {
  import opened Wrappers
  import opened Bytes
  import opened Names
  import opened Sealing
  import opened Framing
  import opened Reading
  import opened CodecTheorems
  import opened Ranges
  import Writing

  const SNIFF: nat := 4

  predicate Collides(head: Bytes) {
    MAGIC <= head
  }

  // Neither compressed nor sealed.
  function PlainConfig(oid: Oid): Config {
    Config(None, None, oid)
  }

  // What lies on the disk for a payload: the payload itself, unless it could be
  // taken for a framed object, in which case it is framed.
  function OnDisk(t: Transforms, oid: Oid, payload: Bytes): Bytes {
    if Collides(payload) then Container(t, PlainConfig(oid), payload) else payload
  }

  // How a store writes an object: framed if it compresses or seals, else only if
  // it must be.
  function Disk(t: Transforms, c: Config, payload: Bytes): Bytes
    requires c.Sound()
  {
    if c == PlainConfig(c.oid) then OnDisk(t, c.oid, payload) else Container(t, c, payload)
  }

  datatype Variant = Undecided | AsItIs | InFrames

  // A raw sink makes up its mind once it has seen enough bytes to tell.
  class Sink {
    const t: Transforms
    const config: Config
    var variant: Variant
    var held: Bytes
    var file: Bytes
    var writer: Writing.Writer?
    ghost var payload: Bytes

    ghost predicate Valid()
      reads this, writer
    {
      config.Sound() &&
      match variant
      case Undecided => Plain() && writer == null && file == [] && held == payload && |held| < SNIFF
      case AsItIs => Plain() && writer == null && file == payload && !Collides(payload) && |payload| >= SNIFF
      case InFrames =>
        && writer != null && writer.Valid() && writer.payload == payload && (Plain() ==> Collides(payload))
        && writer.t == t && writer.config == config
    }

    predicate Plain() {
      config == PlainConfig(config.oid)
    }

    constructor Raw(t: Transforms, oid: Oid)
      ensures Valid() && payload == []
      ensures this.t == t && config == PlainConfig(oid) && writer == null
    {
      this.t := t;
      config := PlainConfig(oid);
      variant, held, file, writer, payload := Undecided, [], [], null, [];
    }

    constructor Framed(t: Transforms, c: Config)
      requires c.Sound() && c != PlainConfig(c.oid)
      ensures Valid() && payload == []
      ensures this.t == t && config == c && writer != null && fresh(writer)
    {
      this.t := t;
      config := c;
      variant, held, file, payload := InFrames, [], [], [];
      writer := new Writing.Writer(t, c);
    }

    method Write(chunk: Bytes)
      requires Valid()
      modifies this, writer
      ensures Valid() && payload == old(payload) + chunk
      ensures writer == old(writer) || fresh(writer)
    {
      payload := payload + chunk;
      match variant {
        case Undecided =>
          held := held + chunk;
          if |held| >= SNIFF {
            Settle();
          }
        case AsItIs =>
          file := file + chunk;
        case InFrames =>
          writer.Push(chunk);
      }
    }

    // What was held decides, once: a framed object inside, or the bytes as they are.
    method Settle()
      requires Plain() && variant == Undecided && writer == null && file == [] && held == payload
      modifies this`variant, this`held, this`file, this`writer
      ensures variant == (if Collides(payload) then InFrames else AsItIs)
      ensures Collides(payload) ==> writer != null && fresh(writer) && writer.Valid()
      ensures Collides(payload) ==> writer.payload == payload && writer.t == t && writer.config == config
      ensures !Collides(payload) ==> writer == null && file == payload
    {
      if Collides(held) {
        writer := new Writing.Writer(t, config);
        writer.Push(held);
        variant := InFrames;
      } else {
        file := held;
        variant := AsItIs;
      }
      held := [];
    }

    method Finish() returns (disk: Bytes)
      requires Valid()
      modifies this, writer
      ensures disk == Disk(t, config, old(payload))
    {
      if variant == Undecided {
        Settle();
      }
      if variant == InFrames {
        writer.Finish();
        disk := writer.File();
      } else {
        disk := file;
      }
    }
  }

  // ----- LocalStore::open and the bytes it serves -----

  datatype Served = Bytes_(bytes: Bytes) | Unserved(error: Error)

  function Size(o: Opened, file: Bytes): nat
    requires !o.Failed?
  {
    if o.Sniffed? then o.framed.plaintext else |file|
  }

  // The bytes a range of a stored file is served as.
  function Serve(t: Transforms, file: Bytes, ring: Option<Keyring>, oid: Oid, start: nat, length: nat): Served {
    match Opening(file, ring, oid)
    case Failed(e) => Unserved(e)
    case Raw => Bytes_(if start <= |file| then file[start..Min(start + length, |file|)] else [])
    case Sniffed(f) =>
      AcceptedIsBounded(file, ring, oid);
      var chunks := Stream(t, f, start, length);
      match chunks.error
      case Some(e) => Unserved(e)
      case None => Bytes_(Concat(chunks.items))
  }

  // The whole object a stored file is read as, if it can be.
  function ReadBack(t: Transforms, file: Bytes, ring: Option<Keyring>, oid: Oid): Option<Bytes> {
    match Opening(file, ring, oid)
    case Failed(_) => None
    case _ =>
      match Serve(t, file, ring, oid, 0, Size(Opening(file, ring, oid), file))
      case Bytes_(b) => Some(b)
      case Unserved(_) => None
  }

  lemma RawIsItself(t: Transforms, file: Bytes, ring: Option<Keyring>, oid: Oid)
    requires Opening(file, ring, oid) == Raw
    ensures ReadBack(t, file, ring, oid) == Some(file)
  {
    assert file[0..|file|] == file;
  }

  lemma WithoutMagicIsRaw(file: Bytes, ring: Option<Keyring>, oid: Oid)
    requires !Collides(file)
    ensures Opening(file, ring, oid) == Raw
  {
  }

  // What was written under any configuration reads back whole.
  lemma ContainerReadsBack(t: Transforms, c: Config, payload: Bytes, ring: Option<Keyring>)
    requires t.Lawful() && c.Sound() && Holds(ring, c) && CeilDiv(|payload|, FRAME) < U32
    ensures ReadBack(t, Container(t, c, payload), ring, c.oid) == Some(payload)
  {
    hide Opening, Container, Stream;
    RoundTrip(t, c, payload, ring, 0, |payload|);
    assert payload[0..|payload|] == payload;
  }

  lemma {:induction false} PlainInterior(t: Transforms, oid: Oid, payload: Bytes, n: nat)
    requires n * FRAME <= |payload|
    ensures Concat(Bodies(Interior(t, PlainConfig(oid), payload, n))) == payload[..n * FRAME]
  {
    if n == 0 {
      assert Bodies(Interior(t, PlainConfig(oid), payload, 0)) == [];
    } else {
      PlainInterior(t, oid, payload, n - 1);
      AppendFrame(Interior(t, PlainConfig(oid), payload, n - 1), Encode(t, PlainConfig(oid), n - 1, false, Cut(payload, n - 1)));
    }
  }

  // With nothing configured the frames are the payload, so a container is longer.
  lemma PlainIsLonger(t: Transforms, oid: Oid, payload: Bytes)
    ensures |Container(t, PlainConfig(oid), payload)| > |payload|
  {
    hide Header;
    if payload != [] {
      var n := (|payload| - 1) / FRAME;
      PlainInterior(t, oid, payload, n);
      AppendFrame(Interior(t, PlainConfig(oid), payload, n), Encode(t, PlainConfig(oid), n, true, Cut(payload, n)));
    }
  }

  // A payload written with nothing configured comes back exactly, whatever it
  // looks like: too short to sniff, or itself a well-formed framed object.  The one
  // that does not is a colliding one of more frames than can be counted.
  lemma SinkReadsBack(t: Transforms, oid: Oid, payload: Bytes, ring: Option<Keyring>)
    requires t.Lawful() && |payload| < U64
    ensures ReadBack(t, OnDisk(t, oid, payload), ring, oid) == Some(payload)
      <==> !Collides(payload) || CeilDiv(|payload|, FRAME) < U32
  {
    hide ReadBack, Container, Opening;
    if !Collides(payload) {
      WithoutMagicIsRaw(payload, ring, oid);
      RawIsItself(t, payload, ring, oid);
    } else if CeilDiv(|payload|, FRAME) < U32 {
      ContainerReadsBack(t, PlainConfig(oid), payload, ring);
    } else {
      RecognisedExactlyWhen(t, PlainConfig(oid), payload, ring);
      RawIsItself(t, Container(t, PlainConfig(oid), payload), ring, oid);
      PlainIsLonger(t, oid, payload);
    }
  }

  lemma DiskReadsBack(t: Transforms, c: Config, payload: Bytes, ring: Option<Keyring>)
    requires t.Lawful() && c.Sound() && Holds(ring, c) && CeilDiv(|payload|, FRAME) < U32
    ensures ReadBack(t, Disk(t, c, payload), ring, c.oid) == Some(payload)
  {
    hide ReadBack, Container, OnDisk;
    if c == PlainConfig(c.oid) {
      SinkReadsBack(t, c.oid, payload, ring);
    } else {
      ContainerReadsBack(t, c, payload, ring);
    }
  }

  // A range header that asks for a slice of the object is served that slice, however
  // the object lies on the disk.
  lemma ServesWhatWasAsked(t: Transforms, c: Config, payload: Bytes, ring: Option<Keyring>, header: Option<string>)
    requires t.Lawful() && c.Sound() && Holds(ring, c) && CeilDiv(|payload|, FRAME) < U32
    requires Parse(header, |payload|).Slice?
    ensures var r := Parse(header, |payload|);
      Serve(t, Disk(t, c, payload), ring, c.oid, r.start, r.Length(|payload|)) == Bytes_(payload[r.start..r.end + 1])
  {
    hide Opening, Container, Stream, Parse, Collides;
    var r := Parse(header, |payload|);
    if c == PlainConfig(c.oid) && !Collides(payload) {
      WithoutMagicIsRaw(payload, ring, c.oid);
    } else {
      RoundTrip(t, c, payload, ring, r.start, r.Length(|payload|));
    }
  }

  // A sealed object never uses one nonce twice: its key is its own, and its frames
  // are numbered apart.
  lemma NoNonceRepeats(t: Transforms, c: Config, payload: Bytes, i: nat, j: nat)
    requires CeilDiv(|payload|, FRAME) < U32 && c.key.Some?
    requires i < j < |Frames(t, c, payload)|
    ensures var n := |Frames(t, c, payload)|;
      && Nonce(i) != Nonce(j)
      && Frames(t, c, payload)[i].body == t.Seal(c.key.value, i, false, c.oid, Squeeze(t, c.level, Cut(payload, i)).body)
      && Frames(t, c, payload)[j].body == t.Seal(c.key.value, j, j == n - 1, c.oid, Squeeze(t, c.level, Cut(payload, j)).body)
  {
    hide Frames, Squeeze, Nonce;
    FrameAt(t, c, payload, i);
    FrameAt(t, c, payload, j);
    if Nonce(i) == Nonce(j) {
      NoncesDiffer(i, j);
    }
  }
}
