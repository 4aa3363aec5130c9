/** Reading the keys a store encrypts under, and changing them. */
module Keyrings {
  import opened Wrappers
  import opened Bytes
  import opened Names
  import opened Text
  import opened Sealing
  import opened Framing
  import opened Reading
  import opened CodecTheorems
  import opened Serving

  datatype Misconfigured = NotAKey | SameIdTwice | NoKeys

  // ----- One line -----

  function Nibble(c: char): Option<nat> {
    if '0' <= c <= '9' then Some(c as nat - '0' as nat)
    else if 'a' <= c <= 'f' then Some(c as nat - 'a' as nat + 10)
    else if 'A' <= c <= 'F' then Some(c as nat - 'A' as nat + 10)
    else None
  }

  function DecodeHex(s: string): (b: Option<Bytes>)
    ensures b.Some? ==> |s| == 2 * |b.value|
  {
    if s == "" then Some([])
    else if |s| == 1 then None
    else
      match (Nibble(s[0]), Nibble(s[1]), DecodeHex(s[2..]))
      case (Some(high), Some(low), Some(rest)) => Some([(16 * high + low) as byte] + rest)
      case _ => None
  }

  const DIGITS := "0123456789abcdef"
  const CAPITALS := "0123456789ABCDEF"

  function Hex(b: Bytes, digits: string): string
    requires |digits| == 16
  {
    if b == [] then "" else [digits[b[0] as nat / 16], digits[b[0] as nat % 16]] + Hex(b[1..], digits)
  }

  // Hex reads back, in small letters or in capitals.
  lemma {:induction false} HexReads(b: Bytes, digits: string)
    requires digits == DIGITS || digits == CAPITALS
    ensures DecodeHex(Hex(b, digits)) == Some(b)
  {
    hide DecodeHex, Nibble;
    if b == [] {
      assert DecodeHex("") == Some([]) by { NothingDecodes(); }
    } else {
      var high, low := b[0] as nat / 16, b[0] as nat % 16;
      HexReads(b[1..], digits);
      NibbleReads(high, digits);
      NibbleReads(low, digits);
      TwoDigits(digits[high], digits[low], Hex(b[1..], digits), high, low, b[1..]);
      assert [b[0]] + b[1..] == b;
    }
  }

  lemma NothingDecodes()
    ensures DecodeHex("") == Some([])
  {
  }

  lemma TwoDigits(c: char, d: char, rest: string, high: nat, low: nat, b: Bytes)
    requires high < 16 && low < 16 && Nibble(c) == Some(high) && Nibble(d) == Some(low) && DecodeHex(rest) == Some(b)
    ensures DecodeHex([c, d] + rest) == Some([(16 * high + low) as byte] + b)
  {
    hide Nibble;
    assert ([c, d] + rest)[2..] == rest;
  }

  lemma NibbleReads(n: nat, digits: string)
    requires n < 16 && (digits == DIGITS || digits == CAPITALS)
    ensures Nibble(digits[n]) == Some(n)
  {
  }

  predicate IsHexDigit(c: char) {
    c in DIGITS || c in CAPITALS
  }

  // And nothing else is hex.
  lemma {:induction false} HexExactlyWhen(s: string)
    ensures DecodeHex(s).Some? <==> |s| % 2 == 0 && forall i | 0 <= i < |s| :: IsHexDigit(s[i])
  {
    hide Nibble, IsHexDigit;
    if |s| >= 2 {
      HexExactlyWhen(s[2..]);
      NibbleExactlyWhen(s[0]);
      NibbleExactlyWhen(s[1]);
      assert forall i | 0 <= i < |s[2..]| :: s[2..][i] == s[i + 2];
      assert forall i | 2 <= i < |s| :: s[i] == s[2..][i - 2];
    }
  }

  lemma NibbleExactlyWhen(c: char)
    ensures Nibble(c).Some? <==> IsHexDigit(c)
  {
    if '0' <= c <= '9' { assert c == DIGITS[c as nat - '0' as nat]; }
    if 'a' <= c <= 'f' { assert c == DIGITS[c as nat - 'a' as nat + 10]; }
    if 'A' <= c <= 'F' { assert c == CAPITALS[c as nat - 'A' as nat + 10]; }
  }

  // A key's line is sixty-four digits of hex between spaces, and says the key.
  lemma KeyLine(line: string, key: Bytes, digits: string)
    requires |key| == 32 && (digits == DIGITS || digits == CAPITALS) && Trim(line) == Hex(key, digits)
    ensures Says(line) && KeyOf(line) == Some(key)
  {
    HexReads(key, digits);
    HexIsTwice(key, digits);
    HexExactlyWhen(Hex(key, digits));
  }

  lemma {:induction false} HexIsTwice(b: Bytes, digits: string)
    requires |digits| == 16
    ensures |Hex(b, digits)| == 2 * |b|
  {
    if b != [] { HexIsTwice(b[1..], digits); }
  }

  lemma NoKeyInIt(line: string)
    requires |Trim(line)| != 64 || exists i | 0 <= i < |Trim(line)| :: !IsHexDigit(Trim(line)[i])
    ensures KeyOf(line) == None
  {
    HexExactlyWhen(Trim(line));
  }

  // Blank lines and comments say nothing.
  predicate Says(line: string) {
    Trim(line) != "" && Trim(line)[0] != '#'
  }

  function KeyOf(line: string): Option<Bytes> {
    match DecodeHex(Trim(line))
    case Some(raw) => if |raw| == KEY then Some(raw) else None
    case None => None
  }

  // ----- Keyring::parse -----

  // What the lines spell, as far as they can be read.
  function Spelled(lines: seq<string>, identify: Bytes -> Bytes): (keys: seq<(Bytes, Bytes)>) {
    if lines == [] then []
    else
      var earlier, line := Spelled(lines[..|lines| - 1], identify), lines[|lines| - 1];
      match KeyOf(line)
      case Some(key) => if Says(line) then earlier + [(key, identify(key))] else earlier
      case None => earlier
  }

  predicate Readable(lines: seq<string>) {
    forall i | 0 <= i < |lines| :: Says(lines[i]) ==> KeyOf(lines[i]).Some?
  }

  predicate IdsDiffer(keys: seq<(Bytes, Bytes)>) {
    forall i, j | 0 <= i < j < |keys| :: keys[i].1 != keys[j].1
  }

  lemma {:induction false} SpelledGrows(lines: seq<string>, identify: Bytes -> Bytes, n: nat)
    requires n <= |lines|
    ensures Spelled(lines[..n], identify) <= Spelled(lines, identify)
    decreases |lines|
  {
    if n < |lines| {
      assert lines[..|lines| - 1][..n] == lines[..n];
      SpelledGrows(lines[..|lines| - 1], identify, n);
    } else {
      assert lines[..n] == lines;
    }
  }

  lemma NextLine(lines: seq<string>, identify: Bytes -> Bytes, n: nat)
    requires n < |lines|
    ensures var so, line := Spelled(lines[..n], identify), lines[n];
      && Spelled(lines[..n + 1], identify)
           == (if Says(line) && KeyOf(line).Some? then so + [(KeyOf(line).value, identify(KeyOf(line).value))] else so)
      && (Readable(lines[..n + 1]) <==> Readable(lines[..n]) && (Says(line) ==> KeyOf(line).Some?))
    ensures Readable(lines) ==> Says(lines[n]) ==> KeyOf(lines[n]).Some?
  {
    hide Says, KeyOf;
    var next := lines[..n + 1];
    assert next[..n] == lines[..n] && next[n] == lines[n];
    assert forall i | 0 <= i < n :: lines[..n][i] == next[i];
  }

  lemma NoLine(lines: seq<string>, identify: Bytes -> Bytes)
    ensures Spelled(lines[..0], identify) == [] && Readable(lines[..0]) && IdsDiffer([])
    ensures lines[..|lines|] == lines
  {
  }

  method Parse(lines: seq<string>, identify: Bytes -> Bytes) returns (r: Result<Keyring, Misconfigured>)
    requires forall key :: |identify(key)| == ID
    ensures r.Ok? <==> Readable(lines) && IdsDiffer(Spelled(lines, identify)) && Spelled(lines, identify) != []
    ensures r.Ok? ==> r.value == Keyring(Spelled(lines, identify)) && r.value.Valid()
    ensures r == Err(NoKeys) ==> forall i | 0 <= i < |lines| :: !Says(lines[i])
    ensures r == Err(NotAKey) ==> !Readable(lines)
    ensures r == Err(SameIdTwice) ==> !IdsDiffer(Spelled(lines, identify))
  {
    hide Says, KeyOf, IdsDiffer, Readable, Spelled;
    NoLine(lines, identify);
    var keys: seq<(Bytes, Bytes)> := [];
    for n := 0 to |lines|
      invariant keys == Spelled(lines[..n], identify) && Readable(lines[..n]) && IdsDiffer(keys)
      invariant forall i | 0 <= i < |keys| :: |keys[i].0| == KEY && |keys[i].1| == ID
      invariant keys == [] ==> forall i | 0 <= i < n :: !Says(lines[i])
    {
      NextLine(lines, identify, n);
      var line := lines[n];
      if !Says(line) {
        continue;
      }
      var raw := KeyOf(line);
      if raw.None? {
        return Err(NotAKey);
      }
      KeyIsLongEnough(line);
      var id := identify(raw.value);
      var known := IsKnown(keys, id);
      if known {
        SpelledGrows(lines, identify, n + 1);
        TwiceMeansNotApart(keys, raw.value, id, Spelled(lines, identify));
        return Err(SameIdTwice);
      }
      NewIdStaysApart(keys, raw.value, id);
      keys := keys + [(raw.value, id)];
    }
    if keys == [] {
      return Err(NoKeys);
    }
    AllApart(keys);
    return Ok(Keyring(keys));
  }

  method IsKnown(keys: seq<(Bytes, Bytes)>, id: Bytes) returns (known: bool)
    ensures known <==> exists i | 0 <= i < |keys| :: keys[i].1 == id
  {
    known := false;
    for i := 0 to |keys|
      invariant known <==> exists j | 0 <= j < i :: keys[j].1 == id
    {
      known := known || keys[i].1 == id;
    }
  }

  lemma AllApart(keys: seq<(Bytes, Bytes)>)
    requires IdsDiffer(keys)
    ensures forall i, j | 0 <= i < j < |keys| :: keys[i].1 != keys[j].1
  {
  }

  lemma NewIdStaysApart(keys: seq<(Bytes, Bytes)>, key: Bytes, id: Bytes)
    requires IdsDiffer(keys) && forall i | 0 <= i < |keys| :: keys[i].1 != id
    ensures IdsDiffer(keys + [(key, id)])
  {
  }

  lemma TwiceMeansNotApart(keys: seq<(Bytes, Bytes)>, key: Bytes, id: Bytes, all: seq<(Bytes, Bytes)>)
    requires keys + [(key, id)] <= all && exists i | 0 <= i < |keys| :: keys[i].1 == id
    ensures !IdsDiffer(all)
  {
    var i :| 0 <= i < |keys| && keys[i].1 == id;
    assert all[i] == (keys + [(key, id)])[i] && all[|keys|] == (keys + [(key, id)])[|keys|];
  }

  lemma KeyIsLongEnough(line: string)
    ensures KeyOf(line).Some? ==> |KeyOf(line).value| == KEY
  {
  }

  // ----- Rotation -----

  // A key is found exactly if its id is on the ring, and it is the one that has it.
  lemma {:induction false} ReadingFinds(ring: Keyring, id: Bytes, salt: Bytes)
    ensures ring.Reading(id, salt).Some? <==> exists i | 0 <= i < |ring.keys| :: ring.keys[i].1 == id
    ensures forall i | 0 <= i < |ring.keys| && ring.keys[i].1 == id && IdsDiffer(ring.keys) ::
      ring.Reading(id, salt) == Some(ObjectKey(ring.keys[i].0, id, salt))
    decreases |ring.keys|
  {
    if ring.keys != [] && ring.keys[0].1 != id {
      var rest := Keyring(ring.keys[1..]);
      ReadingFinds(rest, id, salt);
      forall i | 0 <= i < |ring.keys| && ring.keys[i].1 == id ensures i > 0 && rest.keys[i - 1].1 == id {
      }
    }
  }

  // With a new key put first, what was written under the old ones still reads back,
  // and what is written from now on is under the new one.
  lemma RotationKeepsReading(t: Transforms, ring: Keyring, key: (Bytes, Bytes), c: Config, payload: Bytes)
    requires t.Lawful() && Keyring([key] + ring.keys).Valid()
    requires c.Sound() && Holds(Some(ring), c) && CeilDiv(|payload|, FRAME) < U32
    ensures var rotated := Keyring([key] + ring.keys);
      && ReadBack(t, Disk(t, c, payload), Some(rotated), c.oid) == Some(payload)
      && (forall salt :: rotated.Writing(salt) == ObjectKey(key.0, key.1, salt))
      && (forall salt :: rotated.Reading(key.1, salt) == Some(rotated.Writing(salt)))
  {
    hide Disk, ReadBack;
    var rotated := Keyring([key] + ring.keys);
    if c.key.Some? {
      var id, salt := c.key.value.id, c.key.value.salt;
      ReadingFinds(ring, id, salt);
      var i :| 0 <= i < |ring.keys| && ring.keys[i].1 == id;
      assert rotated.keys[0].1 != rotated.keys[i + 1].1;
      assert rotated.keys[1..] == ring.keys;
    }
    DiskReadsBack(t, c, payload, Some(rotated));
  }

  // An object sealed under a key that is not on the ring, or where there is no ring, is
  // refused, whatever is asked of it, and not misread.
  lemma WithoutItsKey(t: Transforms, c: Config, payload: Bytes, ring: Option<Keyring>, start: nat, length: nat)
    requires t.Lawful() && c.Sound() && c.key.Some? && CeilDiv(|payload|, FRAME) < U32
    requires ring.Some? ==> forall i | 0 <= i < |ring.value.keys| :: ring.value.keys[i].1 != c.key.value.id
    ensures ReadBack(t, Container(t, c, payload), ring, c.oid) == None
    ensures Serve(t, Container(t, c, payload), ring, c.oid, start, length)
      == Unserved(if ring.None? then NotDecryptable else UnknownKey)
  {
    hide Container, LooksFramed, Stream;
    ContainerLooksFramed(t, c, payload);
    NoKeyFor(t, c, payload, ring);
    FailsToOpen(Container(t, c, payload), ring, c.oid);
  }

  lemma FailsToOpen(file: Bytes, ring: Option<Keyring>, oid: Oid)
    requires LooksFramed(file) && KeyFor(file, ring).Err?
    ensures Opening(file, ring, oid) == Failed(KeyFor(file, ring).error)
  {
    hide FieldsOf, Prefix, KeyFor;
  }

  lemma NoKeyFor(t: Transforms, c: Config, payload: Bytes, ring: Option<Keyring>)
    requires t.Lawful() && c.Sound() && c.key.Some? && CeilDiv(|payload|, FRAME) < U32
    requires LooksFramed(Container(t, c, payload))
    requires ring.Some? ==> forall i | 0 <= i < |ring.value.keys| :: ring.value.keys[i].1 != c.key.value.id
    ensures KeyFor(Container(t, c, payload), ring) == Err(if ring.None? then NotDecryptable else UnknownKey)
  {
    hide Header, Frames, FieldsOf, LooksFramed, Container, Prefix, Concat, Bodies, Entries, IndexBytes, Small;
    if ring.Some? { ReadingFinds(ring.value, c.key.value.id, c.key.value.salt); }
    ContainerFields(t, c, payload);
    ContainerShape(t, c, payload);
    var frames := Frames(t, c, payload);
    KeyReadsBack(c, |payload|, |frames|, IndexAt(t, c, payload), Concat(Bodies(frames)) + IndexBytes(Entries(frames)));
  }
}
