/**
 A sealed object somebody has been at: what is served of it, and what is not.
 */
module Tampering {
  import opened Wrappers
  import opened Bytes
  import opened Names
  import opened Sealing
  import opened Framing
  import opened Reading
  import opened CodecTheorems
  import opened Serving

  // ----- Any file that is taken for a sealed object -----

  // One frame the cipher refuses, as this frame of this object, and no range that
  // reaches it is served, nor the whole object read.
  lemma RefusedIsUnserved(t: Transforms, file: Bytes, ring: Option<Keyring>, oid: Oid, bad: nat, start: nat, length: nat)
    requires Opening(file, ring, oid).Sniffed?
    requires var f := Opening(file, ring, oid).framed;
      && f.key.Some? && Bounded(f) && Fits(t, f) && bad < f.frames
      && t.decrypt(f.key.value, Nonce(bad), Associated(bad, bad + 1 == f.frames, oid), Body(f, bad)).None?
    ensures var f := Opening(file, ring, oid).framed;
      length > 0 && start / f.frame <= bad && bad * f.frame < start + length ==>
        Serve(t, file, ring, oid, start, length).Unserved?
    ensures ReadBack(t, file, ring, oid) == None
  {
    hide Nonce, Associated, Fits, Ordered, Stream, Opening;
    AcceptedIsBounded(file, ring, oid);
    var f := Opening(file, ring, oid).framed;
    assert f.oid == oid by { OpenedAs(file, ring, oid); }
    assert Deciphered(t, f, bad).None?;
    if length > 0 && start / f.frame <= bad && bad * f.frame < start + length {
      RangeFailsAt(t, f, start, length, bad, bad * f.frame);
    }
    LiesInside(f.plaintext, f.frame, bad);
    RangeFailsAt(t, f, 0, f.plaintext, bad, bad * f.frame);
  }

  lemma OpenedAs(file: Bytes, ring: Option<Keyring>, oid: Oid)
    requires Opening(file, ring, oid).Sniffed?
    ensures Opening(file, ring, oid).framed.oid == oid
  {
  }

  lemma LiesInside(length: nat, frame: nat, i: nat)
    requires frame > 0 && i < CeilDiv(length, frame)
    ensures i * frame < length
  {
    var count := CeilDiv(length, frame);
    assert count * frame + (length + frame - 1) % frame == length + frame - 1;
    Multiples(i, count - 1, frame);
    assert (count - 1) * frame == count * frame - frame;
  }

  // ----- A written object, its frames altered in place -----

  // Header and index are as they were written.
  ghost predicate Altered(t: Transforms, c: Config, payload: Bytes, file: Bytes)
    requires c.Sound()
  {
    var was, index := Container(t, c, payload), IndexAt(t, c, payload);
    && |file| == |was| && HeaderLen(c.Version()) <= index <= |was|
    && file[..HeaderLen(c.Version())] == was[..HeaderLen(c.Version())]
    && file[index..] == was[index..]
  }

  // Frame i as it lies there now.
  function Lying(t: Transforms, c: Config, payload: Bytes, file: Bytes, i: nat): Bytes
    requires c.Sound() && i < |Frames(t, c, payload)|
  {
    var from := HeaderLen(c.Version()) + |Concat(Bodies(Frames(t, c, payload))[..i])|;
    var to := from + |Frames(t, c, payload)[i].body|;
    if to <= |file| then file[from..to] else []
  }

  ghost predicate Intact(t: Transforms, c: Config, payload: Bytes, file: Bytes, i: nat)
    requires c.Sound() && i < |Frames(t, c, payload)|
  {
    Lying(t, c, payload, file, i) == Frames(t, c, payload)[i].body
  }

  // What the cipher is for: a frame that is not the one sealed there is refused.
  ghost predicate Guarded(t: Transforms, c: Config, payload: Bytes, file: Bytes)
    requires c.Sound() && c.key.Some?
  {
    forall i | 0 <= i < |Frames(t, c, payload)| ::
      || Intact(t, c, payload, file, i)
      || t.decrypt(c.key.value, Nonce(i), Associated(i, i == |Frames(t, c, payload)| - 1, c.oid),
                   Lying(t, c, payload, file, i)).None?
  }

  // A stretch touches a frame.
  predicate Touches(start: nat, length: nat, i: nat) {
    length > 0 && start / FRAME <= i && i * FRAME < start + length
  }

  // The object as a reader sees it now.
  function Seen(t: Transforms, c: Config, payload: Bytes, file: Bytes): Framed
    requires c.Sound()
  {
    Genuine(t, c, payload).(file := file)
  }

  lemma OpensAsSeen(t: Transforms, c: Config, payload: Bytes, file: Bytes, ring: Option<Keyring>)
    requires t.Lawful() && c.Sound() && Holds(ring, c) && c.key.Some? && CeilDiv(|payload|, FRAME) < U32
    requires Altered(t, c, payload, file)
    ensures Opening(file, ring, c.oid) == Sniffed(Seen(t, c, payload, file))
  {
    hide Container, Genuine, Span, ParseIndex, Offsets, StoredBits, FieldsOf, Plausible, SealedKey, Frames, Concat, Bodies;
    var was, index := Container(t, c, payload), IndexAt(t, c, payload);
    OpensAsGenuine(t, c, payload, ring);
    ContainerFields(t, c, payload);
    ContainerIndex(t, c, payload);
    assert Prefix(file) == file[..SEALED_HEADER] == was[..SEALED_HEADER] == Prefix(was);
    SameTail(file, was, index);
  }

  lemma SameTail(a: Bytes, b: Bytes, from: nat)
    requires |a| == |b| && from <= |a| && a[from..] == b[from..]
    ensures forall to | from <= to <= |a| :: a[from..to] == b[from..to]
  {
    forall to | from <= to <= |a| ensures a[from..to] == b[from..to] {
      assert a[from..to] == a[from..][..to - from];
      assert b[from..to] == b[from..][..to - from];
    }
  }

  // A frame gives its stretch of the payload if it is intact, and nothing if not.
  lemma SeenFrame(t: Transforms, c: Config, payload: Bytes, file: Bytes, i: nat)
    requires t.Lawful() && c.Sound() && CeilDiv(|payload|, FRAME) < U32 && i < |Frames(t, c, payload)|
    requires Altered(t, c, payload, file) && c.key.Some? && Guarded(t, c, payload, file)
    requires Ordered(Seen(t, c, payload, file)) && Ordered(Genuine(t, c, payload))
    ensures var f := Seen(t, c, payload, file);
      && f.frames == |Frames(t, c, payload)| && Body(f, i) == Lying(t, c, payload, file, i)
      && Decode(t, f, i, Body(f, i)) == if Intact(t, c, payload, file, i) then Ok(Cut(payload, i)) else Err(Tampered)
  {
    hide Frames, Container, Offsets, StoredBits, Entries, Decode, Nonce, Associated, Concat, Bodies;
    var g, f := Genuine(t, c, payload), Seen(t, c, payload, file);
    FrameLies(t, c, payload, i);
    FrameDecodes(t, c, payload, i);
    Whereabouts(t, c, payload, i);
    FrameComesTo(t, f, i);
    SameDecode(t, g, f, i, Frames(t, c, payload)[i].body);
    assert Intact(t, c, payload, file, i)
      || t.decrypt(c.key.value, Nonce(i), Associated(i, i == |Frames(t, c, payload)| - 1, c.oid),
                   Lying(t, c, payload, file, i)).None?;
  }

  // Decoding looks at a body, and not at where it came from.
  lemma SameDecode(t: Transforms, f: Framed, g: Framed, i: nat, body: Bytes)
    requires i < |f.stored| && f.frame > 0 && g.(file := f.file) == f
    ensures Decode(t, f, i, body) == Decode(t, g, i, body)
  {
    hide Nonce, Associated;
  }

  lemma Whereabouts(t: Transforms, c: Config, payload: Bytes, i: nat)
    requires t.Lawful() && c.Sound() && CeilDiv(|payload|, FRAME) < U32 && i < |Frames(t, c, payload)|
    ensures var g, from := Genuine(t, c, payload), HeaderLen(c.Version()) + |Concat(Bodies(Frames(t, c, payload))[..i])|;
      && |g.offsets| == g.frames + 1 == |Frames(t, c, payload)| + 1
      && g.offsets[i] == from && g.offsets[i + 1] == from + |Frames(t, c, payload)[i].body|
  {
    hide Frames, Container, Offsets, StoredBits, Entries, Concat, IndexBytes, Header, Transforms.Lawful;
    ContainerShape(t, c, payload);
    var frames := Frames(t, c, payload);
    OffsetsFollow(HeaderLen(c.Version()), frames, i);
    OffsetsFollow(HeaderLen(c.Version()), frames, i + 1);
    ConcatSlice(Bodies(frames), i);
  }

  lemma SeenTake(t: Transforms, c: Config, payload: Bytes, file: Bytes, at: nat, wanted: nat)
    requires t.Lawful() && c.Sound() && CeilDiv(|payload|, FRAME) < U32
    requires Altered(t, c, payload, file) && c.key.Some? && Guarded(t, c, payload, file)
    requires Ordered(Seen(t, c, payload, file)) && Ordered(Genuine(t, c, payload))
    requires wanted > 0 && at + wanted <= |payload|
    ensures var item := Take(t, Seen(t, c, payload, file), at, wanted);
      && at / FRAME < |Frames(t, c, payload)|
      && (Intact(t, c, payload, file, at / FRAME) ==>
           && item.Yield? && at % FRAME + |item.bytes| <= FRAME
           && at + |item.bytes| <= |payload| && item.bytes == payload[at..at + |item.bytes|])
      && (!Intact(t, c, payload, file, at / FRAME) ==> item.Broken? && item.error == Tampered)
  {
    hide Frames, Cut, Decode, Container, Offsets, Entries, StoredBits, Ordered, Altered, Guarded, Intact;
    CutAt(payload, at, wanted);
    SeenFrame(t, c, payload, file, at / FRAME);
    assert Seen(t, c, payload, file).frame == FRAME;
  }

  lemma TouchesOneByOne(at: nat, wanted: nat, n: nat, i: nat)
    requires 0 < n <= wanted && at % FRAME + n <= FRAME
    ensures Touches(at, wanted, i) <==> i == at / FRAME || Touches(at + n, wanted - n, i)
  {
  }

  // What a stream gives out before it ends or fails.
  function Gives(t: Transforms, f: Framed, at: nat, wanted: nat): Bytes
    requires Ordered(f)
  {
    Concat(Stream(t, f, at, wanted).items)
  }

  lemma StreamsOn(t: Transforms, f: Framed, at: nat, wanted: nat)
    requires Ordered(f) && wanted > 0 && Take(t, f, at, wanted).Yield?
    ensures var bytes := Take(t, f, at, wanted).bytes;
      && Gives(t, f, at, wanted) == bytes + Gives(t, f, at + |bytes|, wanted - |bytes|)
      && Stream(t, f, at, wanted).error == Stream(t, f, at + |bytes|, wanted - |bytes|).error
  {
    hide Take, Ordered;
    var bytes := Take(t, f, at, wanted).bytes;
    var rest := Stream(t, f, at + |bytes|, wanted - |bytes|);
    assert ([bytes] + rest.items)[1..] == rest.items;
  }

  lemma StreamsNoFurther(t: Transforms, f: Framed, at: nat, wanted: nat)
    requires Ordered(f) && wanted > 0 && Take(t, f, at, wanted).Broken?
    ensures Gives(t, f, at, wanted) == [] && Stream(t, f, at, wanted).error == Some(Take(t, f, at, wanted).error)
  {
    hide Take, Ordered;
  }

  // One frame of a stream: n bytes of it are given, or it is refused.
  lemma SeenStep(t: Transforms, c: Config, payload: Bytes, file: Bytes, at: nat, wanted: nat) returns (n: nat)
    requires t.Lawful() && c.Sound() && CeilDiv(|payload|, FRAME) < U32
    requires Altered(t, c, payload, file) && c.key.Some? && Guarded(t, c, payload, file)
    requires Ordered(Seen(t, c, payload, file)) && Ordered(Genuine(t, c, payload))
    requires wanted > 0 && at + wanted <= |payload|
    ensures at / FRAME < |Frames(t, c, payload)| && n <= wanted && at % FRAME + n <= FRAME
    ensures n > 0 <==> Intact(t, c, payload, file, at / FRAME)
    ensures var f := Seen(t, c, payload, file);
      && (n == 0 ==> Gives(t, f, at, wanted) == [] && Stream(t, f, at, wanted).error == Some(Tampered))
      && (n > 0 ==> Gives(t, f, at, wanted) == payload[at..at + n] + Gives(t, f, at + n, wanted - n))
      && (n > 0 ==> Stream(t, f, at, wanted).error == Stream(t, f, at + n, wanted - n).error)
  {
    hide Seen, Take, Stream, Gives, Ordered, Altered, Guarded, Intact, Frames, Container, Transforms.Lawful;
    var f := Seen(t, c, payload, file);
    SeenTake(t, c, payload, file, at, wanted);
    n := 0;
    if Intact(t, c, payload, file, at / FRAME) {
      n := |Take(t, f, at, wanted).bytes|;
      StreamsOn(t, f, at, wanted);
    } else {
      StreamsNoFurther(t, f, at, wanted);
    }
  }

  lemma {:induction false} SeenStreams(t: Transforms, c: Config, payload: Bytes, file: Bytes, at: nat, wanted: nat)
    requires t.Lawful() && c.Sound() && CeilDiv(|payload|, FRAME) < U32
    requires Altered(t, c, payload, file) && c.key.Some? && Guarded(t, c, payload, file)
    requires Ordered(Seen(t, c, payload, file)) && Ordered(Genuine(t, c, payload))
    requires at + wanted <= |payload|
    ensures var f := Seen(t, c, payload, file);
      && |Gives(t, f, at, wanted)| <= wanted && Gives(t, f, at, wanted) == payload[at..at + |Gives(t, f, at, wanted)|]
      && (Stream(t, f, at, wanted).error.None? ==> |Gives(t, f, at, wanted)| == wanted)
      && (Stream(t, f, at, wanted).error == if AllIntact(t, c, payload, file, at, wanted) then None else Some(Tampered))
    decreases wanted
  {
    hide *;
    var f := Seen(t, c, payload, file);
    InsideItsFrame(at);
    if wanted == 0 {
      AllIntactStep(t, c, payload, file, at, wanted, 0);
      NothingStreamed(t, f, at);
    } else {
      var n := SeenStep(t, c, payload, file, at, wanted);
      AllIntactStep(t, c, payload, file, at, wanted, if n > 0 then n else 1);
      if n > 0 {
        SeenStreams(t, c, payload, file, at + n, wanted - n);
        Joined(payload, at, n, |Gives(t, f, at + n, wanted - n)|);
      }
    }
  }

  lemma InsideItsFrame(at: nat)
    ensures at % FRAME < FRAME
  {
  }

  lemma Joined(b: Bytes, at: nat, n: nat, m: nat)
    requires at + n + m <= |b|
    ensures b[at..at + n] + b[at + n..at + n + m] == b[at..at + n + m]
  {
  }

  lemma NothingStreamed(t: Transforms, f: Framed, at: nat)
    requires Ordered(f)
    ensures Stream(t, f, at, 0).error == None && Gives(t, f, at, 0) == []
  {
  }

  ghost predicate AllIntact(t: Transforms, c: Config, payload: Bytes, file: Bytes, start: nat, length: nat)
    requires c.Sound()
  {
    forall i | 0 <= i < |Frames(t, c, payload)| && Touches(start, length, i) :: Intact(t, c, payload, file, i)
  }

  // After `n` bytes of a frame the rest of the stretch is left to be touched.
  lemma AllIntactStep(t: Transforms, c: Config, payload: Bytes, file: Bytes, at: nat, wanted: nat, n: nat)
    requires c.Sound() && n <= wanted && at % FRAME + n <= FRAME && (n == 0 ==> wanted == 0)
    requires wanted > 0 ==> at / FRAME < |Frames(t, c, payload)|
    ensures AllIntact(t, c, payload, file, at, wanted) <==>
      wanted == 0 || (Intact(t, c, payload, file, at / FRAME) && AllIntact(t, c, payload, file, at + n, wanted - n))
  {
    hide Intact, Frames, Touches;
    forall i ensures n > 0 ==> (Touches(at, wanted, i) <==> i == at / FRAME || Touches(at + n, wanted - n, i)) {
      if n > 0 { TouchesOneByOne(at, wanted, n, i); }
    }
    forall i ensures !Touches(at, 0, i) {
      NothingTouched(at, i);
    }
  }

  lemma NothingTouched(at: nat, i: nat)
    ensures !Touches(at, 0, i)
  {
  }

  // A range is served if no frame it touches was altered, and then with what was
  // written; if one was, it is refused, and nothing altered is given out before.
  lemma ServedExactlyWhenIntact(t: Transforms, c: Config, payload: Bytes, file: Bytes, ring: Option<Keyring>, start: nat, length: nat)
    requires t.Lawful() && c.Sound() && Holds(ring, c) && CeilDiv(|payload|, FRAME) < U32
    requires Altered(t, c, payload, file) && c.key.Some? && Guarded(t, c, payload, file) && start + length <= |payload|
    ensures Serve(t, file, ring, c.oid, start, length) ==
      if AllIntact(t, c, payload, file, start, length) then Bytes_(payload[start..start + length]) else Unserved(Tampered)
    ensures Opening(file, ring, c.oid).Sniffed? && Ordered(Opening(file, ring, c.oid).framed)
    ensures var given := Gives(t, Opening(file, ring, c.oid).framed, start, length);
      |given| <= length && given == payload[start..start + |given|]
  {
    hide Altered, Guarded, Intact, AllIntact, Ordered, Opening, Container, Genuine, Stream;
    OpensAsSeen(t, c, payload, file, ring);
    AcceptedIsBounded(file, ring, c.oid);
    GenuineIsBounded(t, c, payload, ring);
    SeenStreams(t, c, payload, file, start, length);
  }

  // The object is read whole if and only if no frame of it was altered.
  lemma ReadExactlyWhenIntact(t: Transforms, c: Config, payload: Bytes, file: Bytes, ring: Option<Keyring>)
    requires t.Lawful() && c.Sound() && Holds(ring, c) && CeilDiv(|payload|, FRAME) < U32
    requires Altered(t, c, payload, file) && c.key.Some? && Guarded(t, c, payload, file)
    ensures ReadBack(t, file, ring, c.oid) ==
      if forall i | 0 <= i < |Frames(t, c, payload)| :: Intact(t, c, payload, file, i) then Some(payload) else None
  {
    hide Altered, Guarded, Intact, Opening, Container, Genuine, Serve, Frames;
    OpensAsSeen(t, c, payload, file, ring);
    assert Size(Opening(file, ring, c.oid), file) == |payload| by { SeenIsAsLong(t, c, payload, file); }
    ServedExactlyWhenIntact(t, c, payload, file, ring, 0, |payload|);
    assert payload[0..|payload|] == payload;
    forall i | 0 <= i < |Frames(t, c, payload)| ensures Touches(0, |payload|, i) {
      LiesInside(|payload|, FRAME, i);
    }
  }

  lemma SeenIsAsLong(t: Transforms, c: Config, payload: Bytes, file: Bytes)
    requires c.Sound()
    ensures Seen(t, c, payload, file).plaintext == |payload|
  {
  }
}
