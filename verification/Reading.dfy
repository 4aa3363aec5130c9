/**
 Reading a framed object back, from bytes anybody may have chosen: what is
 accepted as one, and what any range of it yields.
 */
module Reading {
  import opened Wrappers
  import opened Bytes
  import opened Names
  import opened Sealing
  import opened Framing

  datatype Error = NotDecryptable | UnknownKey | Tampered | Undecodable | ShortRead | ShortFrame

  datatype Framed = Framed(
    file: Bytes,
    plaintext: nat,
    frame: nat,
    frames: nat,
    offsets: seq<nat>,
    stored: seq<bool>,
    key: Option<ObjectKey>,
    oid: Oid)

  datatype Opened = Raw | Sniffed(framed: Framed) | Failed(error: Error)

  // Exactly the frames the plaintext needs, of a size this format uses.
  predicate Plausible(plaintext: nat, frame: nat, frames: nat) {
    FRAME_MIN <= frame <= FRAME_MAX && frames == CeilDiv(plaintext, frame)
  }

  function SaturatingAdd(a: nat, b: nat): nat {
    Min(a + b, U64 - 1)
  }

  function SealedKey(prefix: Bytes, ring: Option<Keyring>): Result<ObjectKey, Error>
    requires |prefix| >= SEALED_HEADER
  {
    match ring
    case None => Err(NotDecryptable)
    case Some(keys) =>
      match keys.Reading(prefix[32..32 + ID], prefix[36..36 + SALT])
      case None => Err(UnknownKey)
      case Some(key) => Ok(key)
  }

  function ParseIndex(index: Bytes): (entries: seq<nat>)
    ensures |entries| == |index| / 4
    ensures forall e | e in entries :: e < U32
    decreases |index|
  {
    if |index| < 4 then []
    else
      assert FromLe(index[..4]) < U32 by { LeBelow(index[..4]); }
      [FromLe(index[..4])] + ParseIndex(index[4..])
  }

  lemma {:induction false} FromLeBelow(b: Bytes)
    ensures FromLe(b) < Pow256(|b|)
  {
    if b != [] {
      FromLeBelow(b[1..]);
    }
  }

  lemma LeBelow(b: Bytes)
    requires |b| == 4
    ensures FromLe(b) < U32
  {
    Widths();
    FromLeBelow(b);
  }

  // Where each frame begins, and after the last, where it ends.
  function Offsets(at: nat, entries: seq<nat>): (offsets: seq<nat>)
    ensures |offsets| == |entries| + 1
    ensures offsets[0] == at
    ensures offsets[|entries|] == at + Span(entries)
    ensures forall i | 0 <= i < |entries| :: offsets[i + 1] == offsets[i] + entries[i] % STORED
    decreases |entries|
  {
    if entries == [] then [at] else [at] + Offsets(at + entries[0] % STORED, entries[1..])
  }

  function StoredBits(entries: seq<nat>): (bits: seq<bool>)
    ensures |bits| == |entries|
  {
    seq(|entries|, i requires 0 <= i < |entries| => entries[i] >= STORED)
  }

  // What the header says, read from the first bytes of a file.
  datatype Fields = Fields(version: byte, plaintext: nat, frame: nat, frames: nat, index: nat)

  function FieldsOf(prefix: Bytes): Fields
    requires |prefix| >= HEADER
  {
    Fields(prefix[4], FromLe(prefix[8..16]), FromLe(prefix[16..20]), FromLe(prefix[20..24]), FromLe(prefix[24..32]))
  }

  function Prefix(file: Bytes): Bytes {
    file[..Min(SEALED_HEADER, |file|)]
  }

  predicate LooksFramed(file: Bytes) {
    && |file| >= HEADER
    && Prefix(file)[..4] == MAGIC
    && Prefix(file)[4] in {V_PLAIN, V_SEALED}
    && var f := FieldsOf(Prefix(file));
       && Plausible(f.plaintext, f.frame, f.frames)
       && f.index >= HeaderLen(f.version)
       && SaturatingAdd(f.index, 4 * f.frames) == |file|
       && |Prefix(file)| >= HeaderLen(f.version)
  }

  function KeyFor(file: Bytes, ring: Option<Keyring>): Result<Option<ObjectKey>, Error>
    requires LooksFramed(file)
  {
    if FieldsOf(Prefix(file)).version == V_SEALED then
      match SealedKey(Prefix(file), ring)
      case Err(e) => Err(e)
      case Ok(key) => Ok(Some(key))
    else Ok(None)
  }

  // What sniffing a file answers.
  function Opening(file: Bytes, ring: Option<Keyring>, oid: Oid): Opened {
    if !LooksFramed(file) then Raw
    else
      var f := FieldsOf(Prefix(file));
      match KeyFor(file, ring)
      case Err(e) => Failed(e)
      case Ok(key) =>
        if f.index + 4 * f.frames > |file| then Failed(ShortRead)
        else
          var entries := ParseIndex(file[f.index..f.index + 4 * f.frames]);
          if HeaderLen(f.version) + Span(entries) != f.index then Raw
          else Sniffed(Framed(file, f.plaintext, f.frame, f.frames, Offsets(HeaderLen(f.version), entries),
                              StoredBits(entries), key, oid))
  }

  method Open(file: Bytes, ring: Option<Keyring>, oid: Oid) returns (r: Opened)
    ensures r == Opening(file, ring, oid)
  {
    hide ParseIndex, Offsets, StoredBits, Span, KeyFor, FieldsOf, Plausible;
    if !LooksFramed(file) {
      return Raw;
    }

    var f := FieldsOf(Prefix(file));
    var key := KeyFor(file, ring);
    if key.Err? {
      return Failed(key.error);
    }
    if f.index + 4 * f.frames > |file| {
      return Failed(ShortRead);
    }

    var offsets, stored, at := Walk(file[f.index..f.index + 4 * f.frames], HeaderLen(f.version));
    if at != f.index {
      return Raw;
    }
    return Sniffed(Framed(file, f.plaintext, f.frame, f.frames, offsets, stored, key.value, oid));
  }

  // The index, four bytes at a time.
  method Walk(lengths: Bytes, header: nat) returns (offsets: seq<nat>, stored: seq<bool>, at: nat)
    requires |lengths| % 4 == 0
    ensures offsets == Offsets(header, ParseIndex(lengths))
    ensures stored == StoredBits(ParseIndex(lengths))
    ensures at == header + Span(ParseIndex(lengths))
  {
    hide ParseIndex, FromLe, Span, Offsets;
    ghost var entries := ParseIndex(lengths);
    at := header;
    offsets, stored := [at], [];
    var i := 0;
    while i < |lengths| / 4
      invariant 0 <= i <= |lengths| / 4 == |entries|
      invariant ParseIndex(lengths[4 * i..]) == entries[i..]
      invariant |offsets| == i + 1 && offsets == Offsets(header, entries)[..i + 1]
      invariant at == offsets[i]
      invariant |stored| == i && stored == StoredBits(entries)[..i]
    {
      IndexStep(lengths, i);
      var entry := FromLe(lengths[4 * i..4 * i + 4]);
      at := at + entry % STORED;
      stored := stored + [entry >= STORED];
      offsets := offsets + [at];
      i := i + 1;
    }
  }

  lemma IndexStep(lengths: Bytes, i: nat)
    requires 4 * i + 4 <= |lengths|
    ensures var rest := ParseIndex(lengths[4 * i..]);
      rest != [] && rest[0] == FromLe(lengths[4 * i..4 * i + 4]) && rest[1..] == ParseIndex(lengths[4 * (i + 1)..])
  {
    assert lengths[4 * i..][..4] == lengths[4 * i..4 * i + 4];
    assert lengths[4 * i..][4..] == lengths[4 * (i + 1)..];
  }

  // ----- Serving a range -----

  // Frame i lies between the header and the index, and does not end before it begins.
  ghost predicate Inside(f: Framed, i: nat)
    requires |f.offsets| == f.frames + 1 && i < f.frames
  {
    f.offsets[0] <= f.offsets[i] <= f.offsets[i + 1] <= f.offsets[f.frames]
  }

  // The frames lie in order between the header and the index.
  ghost predicate Ordered(f: Framed) {
    && f.frame > 0
    && |f.offsets| == f.frames + 1 && |f.stored| == f.frames
    && f.offsets[f.frames] <= |f.file|
    && (forall i | 0 <= i < f.frames :: Inside(f, i))
  }

  // What an accepted object is sure of, whoever wrote it.
  ghost predicate Bounded(f: Framed) {
    && Ordered(f)
    && FRAME_MIN <= f.frame <= FRAME_MAX
    && f.frames == CeilDiv(f.plaintext, f.frame) && f.frames < U32
    && f.offsets[0] == (if f.key.Some? then SEALED_HEADER else HEADER)
    && f.offsets[f.frames] + 4 * f.frames == |f.file|
  }

  function Body(f: Framed, i: nat): Bytes
    requires Ordered(f) && i < f.frames
  {
    assert Inside(f, i);
    f.file[f.offsets[i]..f.offsets[i + 1]]
  }

  datatype Chunks = Chunks(items: seq<Bytes>, fetched: seq<(nat, nat)>, error: Option<Error>)

  function Decode(t: Transforms, f: Framed, index: nat, body: Bytes): Result<Bytes, Error>
    requires index < |f.stored| && f.frame > 0
  {
    var unsealed :=
      match f.key
      case None => Some(body)
      case Some(key) => t.Open(key, index % U32, (index + 1) % U32 == f.frames, f.oid, body);
    match unsealed
    case None => Err(Tampered)
    case Some(plain) =>
      if f.stored[index] then Ok(plain)
      else match t.decompress(plain, f.frame)
        case None => Err(Undecodable)
        case Some(out) => Ok(out)
  }

  datatype Item = Over | Broken(span: (nat, nat), error: Error) | Yield(span: (nat, nat), bytes: Bytes)

  // What lies at a position: the rest of its frame, as far as it is wanted.
  function Take(t: Transforms, f: Framed, at: nat, wanted: nat): (item: Item)
    requires Ordered(f) && wanted > 0
    ensures item.Yield? ==> 0 < |item.bytes| <= wanted
    ensures !item.Over? ==> f.offsets[0] <= item.span.0 <= item.span.1 <= f.offsets[f.frames]
  {
    var index := at / f.frame;
    if index + 2 > |f.offsets| then Over
    else
      var lo, hi := f.offsets[index], f.offsets[index + 1];
      assert Inside(f, index);
      match Decode(t, f, index, f.file[lo..hi])
      case Err(e) => Broken((lo, hi), e)
      case Ok(plain) =>
        var from := at % f.frame;
        var take := Min(wanted, if |plain| >= from then |plain| - from else 0);
        if take == 0 then Broken((lo, hi), ShortFrame) else Yield((lo, hi), plain[from..from + take])
  }

  // One frame at a time from position `at`, until `wanted` bytes have been given.
  function Stream(t: Transforms, f: Framed, at: nat, wanted: nat): (c: Chunks)
    requires Ordered(f)
    decreases wanted
  {
    if wanted == 0 then Chunks([], [], None)
    else match Take(t, f, at, wanted)
      case Over => Chunks([], [], None)
      case Broken(span, e) => Chunks([], [span], Some(e))
      case Yield(span, bytes) =>
        var rest := Stream(t, f, at + |bytes|, wanted - |bytes|);
        Chunks([bytes] + rest.items, [span] + rest.fetched, rest.error)
  }

  // ----- What holds of every file, however it was made -----

  // A file accepted as framed accounts for every byte: header, frames in order up
  // to exactly the index, and the index up to exactly the end.
  lemma AcceptedIsBounded(file: Bytes, ring: Option<Keyring>, oid: Oid)
    requires Opening(file, ring, oid).Sniffed?
    ensures Bounded(Opening(file, ring, oid).framed)
    ensures Opening(file, ring, oid).framed.file == file
  {
    hide FieldsOf, Prefix, ParseIndex, Offsets, StoredBits, Span, Ordered;
    var f := Opening(file, ring, oid).framed;
    var fields := FieldsOf(Prefix(file));
    CountIsAU32(Prefix(file));
    var entries := ParseIndex(file[fields.index..fields.index + 4 * fields.frames]);
    assert f.offsets == Offsets(HeaderLen(fields.version), entries);
    AcceptedKey(file, ring);
    OffsetsAreOrdered(f, HeaderLen(fields.version), entries);
  }

  lemma CountIsAU32(prefix: Bytes)
    requires |prefix| >= HEADER
    ensures FieldsOf(prefix).frames < U32
  {
    LeBelow(prefix[20..24]);
  }

  lemma AcceptedKey(file: Bytes, ring: Option<Keyring>)
    requires LooksFramed(file) && KeyFor(file, ring).Ok?
    ensures KeyFor(file, ring).value.Some? <==> FieldsOf(Prefix(file)).version == V_SEALED
    ensures FieldsOf(Prefix(file)).version == V_SEALED || FieldsOf(Prefix(file)).version == V_PLAIN
  {
    hide FromLe, SealedKey;
  }

  lemma OffsetsAreOrdered(f: Framed, at: nat, entries: seq<nat>)
    requires f.offsets == Offsets(at, entries) && f.frames == |entries| == |f.stored| && f.frame > 0
    requires at + Span(entries) <= |f.file|
    ensures Ordered(f) && f.offsets[0] == at && f.offsets[f.frames] == at + Span(entries)
  {
    hide Offsets, Span;
    forall i | 0 <= i < f.frames ensures Inside(f, i) {
      Ascend(at, entries, 0, i);
      Ascend(at, entries, i, i + 1);
      Ascend(at, entries, i + 1, f.frames);
    }
  }

  lemma {:induction false} Ascend(at: nat, entries: seq<nat>, i: nat, j: nat)
    requires i <= j <= |entries|
    ensures Offsets(at, entries)[i] <= Offsets(at, entries)[j]
  {
    if i < j {
      Ascend(at, entries, i, j - 1);
    }
  }

  function TotalLength(items: seq<Bytes>): nat {
    if items == [] then 0 else |items[0]| + TotalLength(items[1..])
  }

  // Whatever is stored, a stream reads frames only, gives no empty item and never
  // more than was asked for; nor less without saying so, unless the frames are over.
  lemma {:induction false} StreamStaysInside(t: Transforms, f: Framed, at: nat, wanted: nat)
    requires Ordered(f)
    ensures var c := Stream(t, f, at, wanted);
      && TotalLength(c.items) <= wanted
      && (c.error.None? ==> TotalLength(c.items) == wanted || at + TotalLength(c.items) >= f.frames * f.frame)
      && (forall i | 0 <= i < |c.items| :: c.items[i] != [])
      && (forall i | 0 <= i < |c.fetched| :: f.offsets[0] <= c.fetched[i].0 <= c.fetched[i].1 <= f.offsets[f.frames])
    decreases wanted
  {
    hide Take, Ordered;
    if wanted > 0 {
      match Take(t, f, at, wanted)
      case Over => OverAtTheEnd(t, f, at, wanted);
      case Broken(_, _) =>
      case Yield(span, bytes) =>
        StreamStaysInside(t, f, at + |bytes|, wanted - |bytes|);
        var rest := Stream(t, f, at + |bytes|, wanted - |bytes|);
        assert ([bytes] + rest.items)[1..] == rest.items;
    }
  }

  lemma OverAtTheEnd(t: Transforms, f: Framed, at: nat, wanted: nat)
    requires Ordered(f) && wanted > 0 && Take(t, f, at, wanted).Over?
    ensures at >= f.frames * f.frame
  {
    hide Decode;
    FramesBelow(f.frame, at, f.frames);
  }

  lemma Multiples(a: nat, b: nat, c: nat)
    requires a <= b
    ensures a * c <= b * c
  {
  }

  // ----- What cannot be made sense of -----

  // What the cipher gives for a frame's body, opened as what it ought to be: this
  // frame of this object, and the last of it or not.
  function Deciphered(t: Transforms, f: Framed, i: nat): Option<Bytes>
    requires Ordered(f) && i < f.frames
  {
    if f.key.None? then Some(Body(f, i))
    else t.decrypt(f.key.value, Nonce(i), Associated(i, i + 1 == f.frames, f.oid), Body(f, i))
  }

  // A frame the cipher refuses is refused, and so is one that does not decompress:
  // the stream fails there, and gives out nothing of it.
  lemma BadFrameIsRefused(t: Transforms, f: Framed, at: nat, wanted: nat)
    requires Ordered(f) && f.frames < U32 && wanted > 0 && at / f.frame < f.frames
    ensures var i, c := at / f.frame, Stream(t, f, at, wanted);
      && (Deciphered(t, f, i).None? ==> c.items == [] && c.error == Some(Tampered))
      && (Deciphered(t, f, i).Some? && !f.stored[i] && t.decompress(Deciphered(t, f, i).value, f.frame).None? ==>
            c.items == [] && c.error == Some(Undecodable))
  {
    hide Decode, Deciphered, Inside;
    FrameComesTo(t, f, at / f.frame);
  }

  // A frame comes to its plaintext, if the cipher gives it and it decompresses.
  lemma FrameComesTo(t: Transforms, f: Framed, i: nat)
    requires Ordered(f) && f.frames < U32 && i < f.frames
    ensures var plain := Deciphered(t, f, i);
      Decode(t, f, i, Body(f, i)) ==
        if plain.None? then Err(Tampered)
        else if f.stored[i] then Ok(plain.value)
        else
          var out := t.decompress(plain.value, f.frame);
          if out.None? then Err(Undecodable) else Ok(out.value)
  {
    hide Nonce, Associated, Body;
  }

  // Frames that take up no more than they are said to, by what the library promises
  // of a buffer's size and of a tag.
  ghost predicate Fits(t: Transforms, f: Framed)
    requires Ordered(f)
  {
    && t.Measured()
    && forall i | 0 <= i < f.frames && f.stored[i] :: |Body(f, i)| <= f.frame + if f.key.Some? then TAG else 0
  }

  lemma NoFrameRunsOver(t: Transforms, f: Framed, at: nat, wanted: nat)
    requires Ordered(f) && Fits(t, f) && wanted > 0 && Take(t, f, at, wanted).Yield?
    ensures at % f.frame + |Take(t, f, at, wanted).bytes| <= f.frame
  {
    hide Decode;
    assert Decode(t, f, at / f.frame, Body(f, at / f.frame)).Ok?;
    NoFrameIsOverlong(t, f, at / f.frame);
  }

  lemma NoFrameIsOverlong(t: Transforms, f: Framed, i: nat)
    requires Ordered(f) && Fits(t, f) && i < f.frames && Decode(t, f, i, Body(f, i)).Ok?
    ensures |Decode(t, f, i, Body(f, i)).value| <= f.frame
  {
    hide Nonce, Associated, Body;
    assert f.stored[i] ==> |Body(f, i)| <= f.frame + if f.key.Some? then TAG else 0;
  }

  lemma FailsIfTheRestDoes(t: Transforms, f: Framed, at: nat, wanted: nat)
    requires Ordered(f) && wanted > 0
    ensures var item := Take(t, f, at, wanted);
      && (item.Broken? ==> Stream(t, f, at, wanted).error.Some?)
      && (item.Yield? ==> Stream(t, f, at, wanted).error == Stream(t, f, at + |item.bytes|, wanted - |item.bytes|).error)
  {
    hide Take, Ordered;
  }

  // A range that reaches such a frame fails, wherever it starts.  `from`: where the
  // frame begins.
  lemma {:induction false} RangeFailsAt(t: Transforms, f: Framed, at: nat, wanted: nat, bad: nat, from: nat)
    requires Ordered(f) && f.frames < U32 && Fits(t, f) && bad < f.frames && Deciphered(t, f, bad).None?
    requires wanted > 0 && at / f.frame <= bad && from == bad * f.frame && from < at + wanted
    ensures Stream(t, f, at, wanted).error.Some?
    decreases wanted
  {
    hide Take, Stream, Fits, Deciphered;
    if at / f.frame == bad {
      BadFrameIsRefused(t, f, at, wanted);
    } else {
      FailsIfTheRestDoes(t, f, at, wanted);
      match Take(t, f, at, wanted)
      case Over =>
        OverAtTheEnd(t, f, at, wanted);
        FramesBelow(f.frame, at, f.frames);
      case Broken(_, _) =>
      case Yield(_, bytes) =>
        NoFrameRunsOver(t, f, at, wanted);
        StillBefore(f.frame, at, |bytes|, bad);
        RangeFailsAt(t, f, at + |bytes|, wanted - |bytes|, bad, from);
    }
  }

  lemma FramesBelow(frame: nat, at: nat, n: nat)
    requires frame > 0
    ensures at >= n * frame <==> at / frame >= n
  {
    assert at == at / frame * frame + at % frame;
    if at / frame >= n { Multiples(n, at / frame, frame); } else { Multiples(at / frame + 1, n, frame); }
  }

  lemma StillBefore(frame: nat, at: nat, n: nat, bad: nat)
    requires frame > 0 && at / frame < bad && at % frame + n <= frame
    ensures at + n <= bad * frame && (at + n) / frame <= bad
  {
    assert at == at / frame * frame + at % frame;
    Multiples(at / frame + 1, bad, frame);
    if (at + n) / frame > bad { FramesBelow(frame, at + n, bad + 1); }
  }
}
