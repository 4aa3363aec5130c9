/** Cutting a stream of chunks into a framed object. */
module Writing {
  import opened Bytes
  import opened Sealing
  import opened Framing

  // The first frames of a payload are written and their lengths are noted.
  ghost predicate Laid(t: Transforms, c: Config, payload: Bytes, lengths: seq<nat>, tail: Bytes) {
    && |lengths| * FRAME <= |payload|
    && lengths == Entries(Interior(t, c, payload, |lengths|))
    && tail == Concat(Bodies(Interior(t, c, payload, |lengths|)))
  }

  // What is written does not depend on what comes after it.
  lemma MoreToCome(t: Transforms, c: Config, payload: Bytes, longer: Bytes, lengths: seq<nat>, tail: Bytes)
    requires Laid(t, c, payload, lengths, tail) && payload <= longer
    ensures Laid(t, c, longer, lengths, tail)
  {
    InteriorIsAPrefixMatter(t, c, payload, longer, |lengths|);
  }

  lemma NextFrame(t: Transforms, c: Config, payload: Bytes, lengths: seq<nat>, tail: Bytes)
    requires Laid(t, c, payload, lengths, tail)
    requires (|lengths| + 1) * FRAME <= |payload|
    ensures var m, pending := |lengths|, payload[|lengths| * FRAME..];
      var f := Encode(t, c, m, false, pending[..FRAME]);
      && pending[FRAME..] == payload[(m + 1) * FRAME..]
      && Laid(t, c, payload, lengths + [Entry(f)], tail + f.body)
  {
    hide Encode, Entry, Interior, Concat, Entries, Bodies, Cut;
    var m := |lengths|;
    InteriorGrows(t, c, payload, m);
    AppendFrame(Interior(t, c, payload, m), Encode(t, c, m, false, Cut(payload, m)));
  }

  lemma InteriorGrows(t: Transforms, c: Config, payload: Bytes, m: nat)
    requires (m + 1) * FRAME <= |payload|
    ensures m * FRAME + FRAME <= |payload|
    ensures Interior(t, c, payload, m + 1) == Interior(t, c, payload, m) + [Encode(t, c, m, false, Cut(payload, m))]
    ensures payload[m * FRAME..][..FRAME] == Cut(payload, m)
    ensures payload[m * FRAME..][FRAME..] == payload[(m + 1) * FRAME..]
  {
  }

  lemma LastFrame(t: Transforms, c: Config, payload: Bytes, lengths: seq<nat>, tail: Bytes)
    requires Laid(t, c, payload, lengths, tail)
    requires |payload| <= (|lengths| + 1) * FRAME
    requires |lengths| > 0 ==> |lengths| * FRAME < |payload|
    ensures var m, pending := |lengths|, payload[|lengths| * FRAME..];
      var f := Encode(t, c, m, true, pending);
      && (if pending == [] then lengths else lengths + [Entry(f)]) == Entries(Frames(t, c, payload))
      && (if pending == [] then tail else tail + f.body) == Concat(Bodies(Frames(t, c, payload)))
  {
    var m := |lengths|;
    if m * FRAME < |payload| {
      assert m == (|payload| - 1) / FRAME;
      assert Cut(payload, m) == payload[m * FRAME..];
      AppendFrame(Interior(t, c, payload, m), Encode(t, c, m, true, Cut(payload, m)));
    }
  }

  // The file is kept as the stretch the header goes over and all that follows it.
  class Writer {
    const t: Transforms
    const config: Config
    var head: Bytes
    var tail: Bytes
    var lengths: seq<nat>
    var plaintext: nat
    var pending: Bytes
    ghost var payload: Bytes

    function File(): Bytes
      reads this
    {
      head + tail
    }

    // Everything but the end of what was pushed is in the file, in frames.
    ghost predicate Flushed()
      reads this
    {
      && config.Sound()
      && head == Zeros(HeaderLen(config.Version()))
      && plaintext == |payload|
      && |lengths| * FRAME + |pending| == |payload|
      && pending == payload[|lengths| * FRAME..]
      && Laid(t, config, payload, lengths, tail)
    }

    // A full frame waits until something follows it.
    ghost predicate Valid()
      reads this
    {
      Flushed() && |pending| <= FRAME && (lengths != [] ==> pending != [])
    }

    constructor (t: Transforms, config: Config)
      requires config.Sound()
      ensures Valid() && payload == []
      ensures this.t == t && this.config == config
    {
      this.t := t;
      this.config := config;
      this.head := Zeros(HeaderLen(config.Version()));
      this.tail := [];
      this.lengths := [];
      this.plaintext := 0;
      this.pending := [];
      this.payload := [];
      new;
      assert Bodies(Interior(t, config, [], 0)) == [];
    }

    method Flush(frame: Bytes, last: bool)
      modifies this`tail, this`lengths
      ensures tail == old(tail) + Encode(t, config, old(|lengths|), last, frame).body
      ensures lengths == old(lengths) + [Entry(Encode(t, config, old(|lengths|), last, frame))]
    {
      var encoded := Encode(t, config, |lengths|, last, frame);
      tail := tail + encoded.body;
      lengths := lengths + [Entry(encoded)];
    }

    method Push(chunk: Bytes)
      requires Valid()
      modifies this
      ensures Valid() && payload == old(payload) + chunk
    {
      hide Encode, Entry, Laid;
      MoreToCome(t, config, payload, payload + chunk, lengths, tail);
      plaintext := plaintext + |chunk|;
      pending := pending + chunk;
      payload := payload + chunk;

      while |pending| > FRAME
        invariant Flushed() && payload == old(payload) + chunk
        invariant lengths != [] ==> pending != []
        decreases |pending|
      {
        var frame := pending[..FRAME];
        NextFrame(t, config, payload, lengths, tail);
        pending := pending[FRAME..];
        Flush(frame, false);
      }
    }

    // What is left goes out as the last frame, unless nothing is.
    method Drain()
      requires Valid()
      modifies this`tail, this`lengths, this`pending
      ensures lengths == Entries(Frames(t, config, payload))
      ensures tail == Concat(Bodies(Frames(t, config, payload)))
    {
      hide Encode, Entry, Frames, Entries, Bodies, Concat;
      var frame := pending;
      LastFrame(t, config, payload, lengths, tail);
      pending := [];
      if frame != [] {
        Flush(frame, true);
      }
    }

    // Whatever the chunks were, the file is the container of their concatenation.
    method Finish()
      requires Valid()
      modifies this
      ensures File() == Container(t, config, old(payload))
    {
      hide Header, Frames, Entries, Bodies, Concat, IndexBytes, Span;
      Drain();
      WriteIndex();

      var header := HeaderLen(config.Version());
      var span := Total(lengths);
      head := Header(config, plaintext, |lengths|, header + span);
    }

    method WriteIndex()
      modifies this`tail
      ensures tail == old(tail) + IndexBytes(lengths)
    {
      var i := 0;
      while i < |lengths|
        invariant 0 <= i <= |lengths|
        invariant tail + IndexBytes(lengths[i..]) == old(tail) + IndexBytes(lengths)
      {
        assert lengths[i..][1..] == lengths[i + 1..];
        tail := tail + ToLe(lengths[i], 4);
        i := i + 1;
      }
      assert IndexBytes(lengths[i..]) == [];
    }
  }

  // The sum of the index entries with their flags cleared.
  method Total(entries: seq<nat>) returns (sum: nat)
    ensures sum == Span(entries)
  {
    sum := 0;
    for i := 0 to |entries|
      invariant sum + Span(entries[i..]) == Span(entries)
    {
      assert entries[i..][1..] == entries[i + 1..];
      sum := sum + entries[i] % STORED;
    }
  }
}
