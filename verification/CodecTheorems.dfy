/**
 The codec's promise: what was written is what is read, whole or in part, and
 exactly when.
 */
module CodecTheorems {
  import opened Wrappers
  import opened Bytes
  import opened Names
  import opened Sealing
  import opened Framing
  import opened Reading

  // ----- The header reads back -----

  lemma HeaderParts(c: Config, plaintext: nat, frames: nat, index: nat)
    requires c.Sound()
    ensures var h := Header(c, plaintext, frames, index);
      && h[0..4] == MAGIC && h[4] == c.Version()
      && h[8..16] == ToLe(plaintext, 8) && h[16..20] == ToLe(FRAME, 4)
      && h[20..24] == ToLe(frames, 4) && h[24..32] == ToLe(index, 8)
      && h[32..] == KeyFields(c)
  {
    hide ToLe, KeyFields;
    var i := ToLe(index, 8) + KeyFields(c);
    var n := ToLe(frames, 4) + i;
    var f := ToLe(FRAME, 4) + n;
    var p := ToLe(plaintext, 8) + f;
    var v := [c.Version()] + Zeros(3);
    var h := MAGIC + (v + p);
    assert h == Header(c, plaintext, frames, index);
    SliceWithin(MAGIC, v + p, 0, 4);
    assert h[4] == c.Version();
    forall lo: nat, hi: nat | 8 <= lo <= hi <= |h| ensures h[lo..hi] == p[lo - 8..hi - 8] {
      SliceAfter(MAGIC, v + p, lo, hi);
      SliceAfter(v, p, lo - 4, hi - 4);
    }
    assert h[8..16] == p[0..8] == ToLe(plaintext, 8);
    assert h[16..20] == p[8..12] == f[0..4] == ToLe(FRAME, 4);
    assert h[20..24] == p[12..16] == f[4..8] == n[0..4] == ToLe(frames, 4);
    assert h[24..32] == p[16..24] == f[8..16] == n[4..12] == i[0..8] == ToLe(index, 8);
    assert h[32..|h|] == p[24..|p|] == f[16..|f|] == n[12..|n|] == i[8..|i|] == KeyFields(c);
  }

  lemma PrefixStarts(h: Bytes, rest: Bytes, lo: nat, hi: nat)
    requires lo <= hi <= 32 <= |h|
    ensures hi <= |Prefix(h + rest)| && Prefix(h + rest)[lo..hi] == h[lo..hi]
  {
    var file := h + rest;
    var n := Min(SEALED_HEADER, |file|);
    SliceOfSlice(file, 0, n, lo, hi);
    SliceWithin(h, rest, lo, hi);
    assert file[0..n] == Prefix(file);
  }

  lemma FieldsReadBack(c: Config, plaintext: nat, frames: nat, index: nat, rest: Bytes)
    requires c.Sound()
    ensures var file := Header(c, plaintext, frames, index) + rest;
      && |Prefix(file)| >= HeaderLen(c.Version()) && Prefix(file)[..4] == MAGIC && Prefix(file)[4] == c.Version()
      && FieldsOf(Prefix(file)) == Fields(c.Version(), plaintext % U64, FRAME, frames % U32, index % U64)
  {
    hide Header, ToLe, FromLe;
    var h := Header(c, plaintext, frames, index);
    var file := h + rest;
    HeaderParts(c, plaintext, frames, index);
    PrefixStarts(h, rest, 0, 4);
    PrefixStarts(h, rest, 8, 16);
    PrefixStarts(h, rest, 16, 20);
    PrefixStarts(h, rest, 20, 24);
    PrefixStarts(h, rest, 24, 32);
    assert Prefix(file)[4] == h[4];
    assert Prefix(file)[..4] == Prefix(file)[0..4];
    Widths();
    LeRoundTrip(plaintext, 8);
    LeRoundTrip(FRAME, 4);
    LeRoundTrip(frames, 4);
    LeRoundTrip(index, 8);
  }

  lemma SliceOfTail(b: Bytes, lo: nat, i: nat, j: nat)
    requires lo + j <= |b| && i <= j
    ensures b[lo..][i..j] == b[lo + i..lo + j]
  {
  }

  lemma KeyReadsBack(c: Config, plaintext: nat, frames: nat, index: nat, rest: Bytes)
    requires c.Sound() && c.key.Some?
    ensures var prefix := Prefix(Header(c, plaintext, frames, index) + rest);
      |prefix| == 64 && prefix[32..36] == c.key.value.id && prefix[36..52] == c.key.value.salt
  {
    hide Header;
    var h := Header(c, plaintext, frames, index);
    HeaderParts(c, plaintext, frames, index);
    var key := c.key.value;
    assert KeyFields(c)[0..4] == key.id && KeyFields(c)[4..20] == key.salt;
    SliceOfTail(h, 32, 0, 4);
    SliceOfTail(h, 32, 4, 20);
    SliceWithin(h, rest, 32, 36);
    SliceWithin(h, rest, 36, 52);
  }

  // ----- The index reads back -----

  lemma {:induction false} IndexReadsBack(entries: seq<nat>)
    requires forall i | 0 <= i < |entries| :: entries[i] < U32
    ensures ParseIndex(IndexBytes(entries)) == entries
  {
    if entries != [] {
      var b := IndexBytes(entries);
      assert b[..4] == ToLe(entries[0], 4) && b[4..] == IndexBytes(entries[1..]);
      U32RoundTrip(entries[0]);
      IndexReadsBack(entries[1..]);
    }
  }

  ghost predicate Small(frames: seq<Frame>) {
    forall i | 0 <= i < |frames| :: |frames[i].body| <= FRAME + TAG
  }

  // An entry says how long its frame is and whether it was stored.
  lemma EntrySays(f: Frame)
    requires |f.body| <= FRAME + TAG
    ensures Entry(f) % STORED == |f.body| && (Entry(f) >= STORED <==> f.stored)
  {
  }

  lemma {:induction false} SpanIsTotal(frames: seq<Frame>)
    requires Small(frames)
    ensures Span(Entries(frames)) == |Concat(Bodies(frames))| <= |frames| * (FRAME + TAG)
  {
    if frames != [] {
      var tail := frames[1..];
      SpanIsTotal(tail);
      EntrySays(frames[0]);
      assert Entries(frames)[1..] == Entries(tail);
      assert Bodies(frames)[1..] == Bodies(tail);
    }
  }

  lemma {:induction false} OffsetsFollow(at: nat, frames: seq<Frame>, i: nat)
    requires Small(frames) && i <= |frames|
    ensures Offsets(at, Entries(frames))[i] == at + |Concat(Bodies(frames)[..i])|
  {
    if i > 0 {
      OffsetsFollow(at, frames, i - 1);
      EntrySays(frames[i - 1]);
      ConcatSlice(Bodies(frames), i - 1);
    }
  }

  // ----- What opening a container answers -----

  // The reader holds the key the object was sealed under.
  predicate Holds(ring: Option<Keyring>, c: Config) {
    c.key.Some? ==> ring.Some? && ring.value.Reading(c.key.value.id, c.key.value.salt) == c.key
  }

  // The object as a reader sees it.
  function Genuine(t: Transforms, c: Config, payload: Bytes): Framed
    requires c.Sound()
  {
    var entries := Entries(Frames(t, c, payload));
    Framed(Container(t, c, payload), |payload|, FRAME, |entries|, Offsets(HeaderLen(c.Version()), entries),
           StoredBits(entries), c.key, c.oid)
  }

  lemma ContainerShape(t: Transforms, c: Config, payload: Bytes)
    requires t.Lawful() && c.Sound() && CeilDiv(|payload|, FRAME) < U32
    ensures var frames := Frames(t, c, payload);
      var entries, bodies := Entries(frames), Concat(Bodies(frames));
      var index := HeaderLen(c.Version()) + |bodies|;
      && Small(frames)
      && Container(t, c, payload) == Header(c, |payload|, |frames|, index) + (bodies + IndexBytes(entries))
      && Span(entries) == |bodies|
      && |payload| < U64 && index + 4 * |frames| < U64 - 1
  {
    hide Header, Frames, Encode, Cut, Concat, Bodies, IndexBytes, Span, Transforms.Lawful;
    var frames := Frames(t, c, payload);
    forall i | 0 <= i < |frames| ensures |frames[i].body| <= FRAME + TAG {
      FrameAt(t, c, payload, i);
      BodyIsSmall(t, c, i, i == |frames| - 1, Cut(payload, i));
    }
    SpanIsTotal(frames);
  }

  // Where the index of a container lies.
  function IndexAt(t: Transforms, c: Config, payload: Bytes): nat {
    HeaderLen(c.Version()) + |Concat(Bodies(Frames(t, c, payload)))|
  }

  lemma ContainerFields(t: Transforms, c: Config, payload: Bytes)
    requires t.Lawful() && c.Sound() && CeilDiv(|payload|, FRAME) < U32
    ensures var prefix := Prefix(Container(t, c, payload));
      && |prefix| >= HeaderLen(c.Version()) && prefix[..4] == MAGIC && prefix[4] == c.Version()
      && FieldsOf(prefix) == Fields(c.Version(), |payload|, FRAME, |Frames(t, c, payload)|, IndexAt(t, c, payload))
  {
    hide Header, Container, Frames, FieldsOf, Prefix, Concat, Bodies, Entries, IndexBytes, Small;
    ContainerShape(t, c, payload);
    var frames := Frames(t, c, payload);
    FieldsReadBack(c, |payload|, |frames|, IndexAt(t, c, payload), Concat(Bodies(frames)) + IndexBytes(Entries(frames)));
  }

  lemma ContainerIndex(t: Transforms, c: Config, payload: Bytes)
    requires t.Lawful() && c.Sound() && CeilDiv(|payload|, FRAME) < U32
    ensures var file, index, n := Container(t, c, payload), IndexAt(t, c, payload), |Frames(t, c, payload)|;
      index + 4 * n == |file| < U64 - 1 && file[index..index + 4 * n] == IndexBytes(Entries(Frames(t, c, payload)))
  {
    hide Header, Container, Frames, Concat, Bodies, Entries, IndexBytes, Small;
    ContainerShape(t, c, payload);
    var frames := Frames(t, c, payload);
    var bodies, last := Concat(Bodies(frames)), IndexBytes(Entries(frames));
    var header := Header(c, |payload|, |frames|, IndexAt(t, c, payload));
    assert Container(t, c, payload) == header + (bodies + last);
    SliceAfter(header, bodies + last, |header + bodies|, |header + bodies| + |last|);
    SliceAfter(bodies, last, |bodies|, |bodies| + |last|);
  }

  lemma ContainerLooksFramed(t: Transforms, c: Config, payload: Bytes)
    requires t.Lawful() && c.Sound() && CeilDiv(|payload|, FRAME) < U32
    ensures LooksFramed(Container(t, c, payload))
  {
    hide Container, Frames, FieldsOf, Concat, Bodies;
    ContainerFields(t, c, payload);
    ContainerIndex(t, c, payload);
  }

  lemma OpensAsGenuine(t: Transforms, c: Config, payload: Bytes, ring: Option<Keyring>)
    requires t.Lawful() && c.Sound() && Holds(ring, c)
    requires CeilDiv(|payload|, FRAME) < U32
    ensures Opening(Container(t, c, payload), ring, c.oid) == Sniffed(Genuine(t, c, payload))
  {
    hide Header, Frames, FieldsOf, LooksFramed, Container, Prefix, Concat, Bodies, Entries, IndexBytes, Small,
         ParseIndex, Offsets, KeyFor, Span, StoredBits;
    ContainerLooksFramed(t, c, payload);
    ContainerFields(t, c, payload);
    ContainerIndex(t, c, payload);
    ContainerShape(t, c, payload);
    ContainerKey(t, c, payload, ring);
    var entries := Entries(Frames(t, c, payload));
    IndexReadsBack(entries);
  }

  lemma ContainerKey(t: Transforms, c: Config, payload: Bytes, ring: Option<Keyring>)
    requires t.Lawful() && c.Sound() && Holds(ring, c)
    requires CeilDiv(|payload|, FRAME) < U32 && LooksFramed(Container(t, c, payload))
    ensures KeyFor(Container(t, c, payload), ring) == Ok(c.key)
  {
    hide Header, Frames, FieldsOf, LooksFramed, Container, Prefix, Concat, Bodies, Entries, IndexBytes, Small;
    ContainerFields(t, c, payload);
    if c.key.Some? {
      ContainerShape(t, c, payload);
      var frames := Frames(t, c, payload);
      KeyReadsBack(c, |payload|, |frames|, IndexAt(t, c, payload), Concat(Bodies(frames)) + IndexBytes(Entries(frames)));
    }
  }

  // ----- Each frame decodes to its stretch of the payload -----

  lemma DecodeUndoesEncode(t: Transforms, c: Config, f: Framed, index: nat, last: bool, plain: Bytes)
    requires t.Lawful() && |plain| <= FRAME && index < |f.stored|
    requires f.key == c.key && f.oid == c.oid && f.frame == FRAME
    requires f.stored[index] == Encode(t, c, index, last, plain).stored
    requires last <==> (index + 1) % U32 == f.frames
    ensures Decode(t, f, index, Encode(t, c, index, last, plain).body) == Ok(plain)
  {
    hide Nonce, Associated;
  }

  lemma StoredAsWritten(t: Transforms, c: Config, payload: Bytes, i: nat)
    requires t.Lawful() && c.Sound() && i < |Frames(t, c, payload)|
    ensures var g, n := Genuine(t, c, payload), |Frames(t, c, payload)|;
      && |g.stored| == g.frames == n && g.stored[i] == Frames(t, c, payload)[i].stored
      && g.key == c.key && g.oid == c.oid && g.frame == FRAME
  {
    hide Container, Frames, Cut, Offsets, Encode, Transforms.Lawful;
    var frames := Frames(t, c, payload);
    FrameAt(t, c, payload, i);
    BodyIsSmall(t, c, i, i == |frames| - 1, Cut(payload, i));
    EntrySays(frames[i]);
  }

  lemma FrameDecodes(t: Transforms, c: Config, payload: Bytes, i: nat)
    requires t.Lawful() && c.Sound() && CeilDiv(|payload|, FRAME) < U32
    requires i < |Frames(t, c, payload)|
    ensures |Genuine(t, c, payload).stored| == |Frames(t, c, payload)| && Genuine(t, c, payload).frame > 0
    ensures Decode(t, Genuine(t, c, payload), i, Frames(t, c, payload)[i].body) == Ok(Cut(payload, i))
  {
    hide Genuine, Frames, Cut, Encode, Decode, Transforms.Lawful;
    FrameAt(t, c, payload, i);
    StoredAsWritten(t, c, payload, i);
    DecodeUndoesEncode(t, c, Genuine(t, c, payload), i, i == |Frames(t, c, payload)| - 1, Cut(payload, i));
  }

  lemma FrameLies(t: Transforms, c: Config, payload: Bytes, i: nat)
    requires t.Lawful() && c.Sound() && CeilDiv(|payload|, FRAME) < U32
    requires i < |Frames(t, c, payload)|
    ensures var g := Genuine(t, c, payload);
      g.offsets[i] <= g.offsets[i + 1] <= |g.file| && g.file[g.offsets[i]..g.offsets[i + 1]] == Frames(t, c, payload)[i].body
  {
    hide Header, Frames, Entries, Entry, Container, Offsets, StoredBits, Concat, IndexBytes, Span, Transforms.Lawful;
    ContainerShape(t, c, payload);
    var frames := Frames(t, c, payload);
    var h := HeaderLen(c.Version());
    var header := Header(c, |payload|, |frames|, h + |Concat(Bodies(frames))|);
    var bodies, last := Concat(Bodies(frames)), IndexBytes(Entries(frames));
    OffsetsFollow(h, frames, i);
    OffsetsFollow(h, frames, i + 1);
    ConcatSlice(Bodies(frames), i);
    var lo, hi := |Concat(Bodies(frames)[..i])|, |Concat(Bodies(frames)[..i + 1])|;
    SliceAfter(header, bodies + last, h + lo, h + hi);
    SliceWithin(bodies, last, lo, hi);
  }

  // ----- Any range -----

  lemma GenuineIsBounded(t: Transforms, c: Config, payload: Bytes, ring: Option<Keyring>)
    requires t.Lawful() && c.Sound() && Holds(ring, c)
    requires CeilDiv(|payload|, FRAME) < U32
    ensures Bounded(Genuine(t, c, payload))
  {
    hide Opening, Genuine, Bounded;
    OpensAsGenuine(t, c, payload, ring);
    AcceptedIsBounded(Container(t, c, payload), ring, c.oid);
  }

  lemma CutAt(payload: Bytes, at: nat, wanted: nat)
    requires wanted > 0 && at + wanted <= |payload|
    ensures var i, from := at / FRAME, at % FRAME;
      && i < CeilDiv(|payload|, FRAME) && i * FRAME + from == at
      && from < |Cut(payload, i)|
      && var take := Min(wanted, |Cut(payload, i)| - from);
         0 < take <= wanted && Cut(payload, i)[from..from + take] == payload[at..at + take]
  {
    var i, from := at / FRAME, at % FRAME;
    assert i * FRAME + from == at;
    assert (i + 1) * FRAME == i * FRAME + FRAME;
    FrameCount(|payload|, i);
    var cut := Cut(payload, i);
    var take := Min(wanted, |cut| - from);
    SliceOfSlice(payload, i * FRAME, i * FRAME + |cut|, from, from + take);
  }

  lemma SliceOfSlice(b: Bytes, lo: nat, hi: nat, i: nat, j: nat)
    requires lo <= hi <= |b| && i <= j <= hi - lo
    ensures b[lo..hi][i..j] == b[lo + i..lo + j]
  {
    var x, y := b[lo..hi][i..j], b[lo + i..lo + j];
    assert |x| == |y| == j - i;
    assert forall k | 0 <= k < j - i :: x[k] == b[lo..hi][i + k] == b[lo + (i + k)] == y[k];
  }

  lemma FrameCount(length: nat, i: nat)
    requires i * FRAME < length
    ensures i < CeilDiv(length, FRAME)
  {
  }

  lemma GenuineTake(t: Transforms, c: Config, payload: Bytes, at: nat, wanted: nat)
    requires t.Lawful() && c.Sound() && CeilDiv(|payload|, FRAME) < U32
    requires Ordered(Genuine(t, c, payload))
    requires wanted > 0 && at + wanted <= |payload|
    ensures var item := Take(t, Genuine(t, c, payload), at, wanted);
      item.Yield? && at + |item.bytes| <= |payload| && item.bytes == payload[at..at + |item.bytes|]
  {
    hide Frames, Cut, Decode, Container, Offsets, Entries, StoredBits, Ordered;
    CutAt(payload, at, wanted);
    FrameLies(t, c, payload, at / FRAME);
    FrameDecodes(t, c, payload, at / FRAME);
  }

  lemma {:induction false} GenuineStreams(t: Transforms, c: Config, payload: Bytes, at: nat, wanted: nat)
    requires t.Lawful() && c.Sound() && CeilDiv(|payload|, FRAME) < U32
    requires Ordered(Genuine(t, c, payload))
    requires at + wanted <= |payload|
    ensures var chunks := Stream(t, Genuine(t, c, payload), at, wanted);
      chunks.error.None? && Concat(chunks.items) == payload[at..at + wanted]
    decreases wanted
  {
    hide Genuine, Take, Ordered;
    if wanted > 0 {
      GenuineTake(t, c, payload, at, wanted);
      var bytes := Take(t, Genuine(t, c, payload), at, wanted).bytes;
      GenuineStreams(t, c, payload, at + |bytes|, wanted - |bytes|);
      var rest := Stream(t, Genuine(t, c, payload), at + |bytes|, wanted - |bytes|);
      assert ([bytes] + rest.items)[1..] == rest.items;
      assert payload[at..at + wanted] == payload[at..at + |bytes|] + payload[at + |bytes|..at + wanted];
    }
  }

  // ----- The promise -----

  // Opening what was written answers the object, its length is the payload's, and
  // any range inside it streams to exactly those bytes.
  lemma RoundTrip(t: Transforms, c: Config, payload: Bytes, ring: Option<Keyring>, start: nat, length: nat)
    requires t.Lawful() && c.Sound() && Holds(ring, c)
    requires CeilDiv(|payload|, FRAME) < U32
    requires start + length <= |payload|
    ensures var r := Opening(Container(t, c, payload), ring, c.oid);
      && r.Sniffed? && Bounded(r.framed) && r.framed.plaintext == |payload|
      && var chunks := Stream(t, r.framed, start, length);
         chunks.error.None? && Concat(chunks.items) == payload[start..start + length]
  {
    hide Opening, Stream, Ordered;
    OpensAsGenuine(t, c, payload, ring);
    GenuineIsBounded(t, c, payload, ring);
    GenuineStreams(t, c, payload, start, length);
  }

  // The frame count is a u32.  A payload that needs more frames than one holds is
  // written, but what is written is not recognised again.
  lemma RecognisedExactlyWhen(t: Transforms, c: Config, payload: Bytes, ring: Option<Keyring>)
    requires t.Lawful() && c.Sound() && Holds(ring, c) && |payload| < U64
    ensures Opening(Container(t, c, payload), ring, c.oid) == Raw <==> CeilDiv(|payload|, FRAME) >= U32
  {
    hide Opening, Genuine, Header, Container, Frames, FieldsOf, LooksFramed;
    if CeilDiv(|payload|, FRAME) < U32 {
      OpensAsGenuine(t, c, payload, ring);
    } else {
      TooManyFrames(t, c, payload);
      NotFramedIsRaw(Container(t, c, payload), ring, c.oid);
    }
  }

  lemma NotFramedIsRaw(file: Bytes, ring: Option<Keyring>, oid: Oid)
    requires !LooksFramed(file)
    ensures Opening(file, ring, oid) == Raw
  {
  }

  lemma TooManyFrames(t: Transforms, c: Config, payload: Bytes)
    requires c.Sound() && |payload| < U64 && CeilDiv(|payload|, FRAME) >= U32
    ensures !LooksFramed(Container(t, c, payload))
  {
    hide Header, Frames, FieldsOf, Prefix;
    var frames := Frames(t, c, payload);
    var entries := Entries(frames);
    FieldsReadBack(c, |payload|, |frames|, HeaderLen(c.Version()) + Span(entries),
                   Concat(Bodies(frames)) + IndexBytes(entries));
  }
}
