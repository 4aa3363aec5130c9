/** The transforms a frame goes through, and the keys it is sealed under. */
module Sealing {
  import opened Wrappers
  import opened Bytes
  import opened Names

  const KEY: nat := 32
  const SALT: nat := 16
  const ID: nat := 4
  const TAG: nat := 16

  // One key per object: the master key, the id that names it and the object's salt.
  datatype ObjectKey = ObjectKey(master: Bytes, id: Bytes, salt: Bytes)

  // Compression and the authenticated cipher are library code, known here by what
  // they promise.
  datatype Transforms = Transforms(
    compress: (Bytes, int) -> Bytes,
    decompress: (Bytes, nat) -> Option<Bytes>,
    encrypt: (ObjectKey, Bytes, Bytes, Bytes) -> Bytes,
    decrypt: (ObjectKey, Bytes, Bytes, Bytes) -> Option<Bytes>)
  {
    // Decompressing into a buffer that is large enough gives back what was
    // compressed; decrypting under the key, nonce and associated data a text was
    // encrypted under gives back the text, and a ciphertext is a tag longer.
    ghost predicate Lawful() {
      && (forall b, level, cap | |b| <= cap :: decompress(compress(b, level), cap) == Some(b))
      && (forall k, nonce, aad, b :: |encrypt(k, nonce, aad, b)| == |b| + TAG)
      && (forall k, nonce, aad, b :: decrypt(k, nonce, aad, encrypt(k, nonce, aad, b)) == Some(b))
    }

    // A buffer is not overrun, and decrypting takes the tag off.
    ghost predicate Measured() {
      && (forall b, cap, p | decompress(b, cap) == Some(p) :: |p| <= cap)
      && (forall k, nonce, aad, b, p | decrypt(k, nonce, aad, b) == Some(p) :: |p| + TAG == |b|)
    }

    function Seal(key: ObjectKey, frame: nat, last: bool, oid: Oid, plain: Bytes): Bytes {
      encrypt(key, Nonce(frame), Associated(frame, last, oid), plain)
    }

    function Open(key: ObjectKey, frame: nat, last: bool, oid: Oid, sealed: Bytes): Option<Bytes> {
      decrypt(key, Nonce(frame), Associated(frame, last, oid), sealed)
    }
  }

  function Tag(): (tag: Bytes)
    ensures |tag| == TAG
  {
    seq(TAG, _ => 0)
  }

  // The laws ask for nothing that cannot be had.
  lemma LawsCanBeMet() returns (t: Transforms)
    ensures t.Lawful() && t.Measured()
  {
    t := Transforms(
      (b: Bytes, level: int) => b,
      (b: Bytes, cap: nat) => if |b| <= cap then Some(b) else None,
      (k: ObjectKey, nonce: Bytes, aad: Bytes, b: Bytes) => b + Tag(),
      (k: ObjectKey, nonce: Bytes, aad: Bytes, b: Bytes) => if |b| >= TAG then Some(b[..|b| - TAG]) else None);
    forall k, nonce, aad, b: Bytes ensures t.decrypt(k, nonce, aad, t.encrypt(k, nonce, aad, b)) == Some(b) {
      assert (b + Tag())[..|b|] == b;
    }
  }

  function Reverse(b: Bytes): (r: Bytes)
    ensures |r| == |b|
    ensures forall i | 0 <= i < |b| :: r[i] == b[|b| - 1 - i]
  {
    if b == [] then [] else Reverse(b[1..]) + [b[0]]
  }

  // Twelve bytes, the last four the frame counter, most significant first.
  function Nonce(frame: nat): (n: Bytes)
    ensures |n| == 12
  {
    seq(8, _ => 0) + Reverse(ToLe(frame, 4))
  }

  function OidBytes(oid: Oid): (b: Bytes)
    ensures |b| == |oid.hex|
  {
    seq(|oid.hex|, i requires 0 <= i < |oid.hex| => (oid.hex[i] as int % 256) as byte)
  }

  // What each frame is bound to: the object, the frame's place, and whether it ends it.
  function Associated(frame: nat, last: bool, oid: Oid): Bytes {
    OidBytes(oid) + ToLe(frame, 4) + [if last then 1 else 0]
  }

  // Two frames of one object never share a nonce, as far as a u32 can count.
  lemma NoncesDiffer(i: nat, j: nat)
    requires i < U32 && j < U32 && Nonce(i) == Nonce(j)
    ensures i == j
  {
    hide Nonce, ToLe, FromLe, Reverse;
    LastFour(i);
    LastFour(j);
    U32RoundTrip(i);
    U32RoundTrip(j);
  }

  lemma LastFour(i: nat)
    ensures Reverse(Nonce(i)[8..]) == ToLe(i, 4)
  {
  }

  // Associated data says exactly which frame of which object it is, and whether
  // it is the last: nothing else has the same.
  lemma BoundToItsPlace(i: nat, last: bool, oid: Oid, j: nat, last': bool, oid': Oid)
    requires i < U32 && j < U32 && IsDigest(oid.hex) && IsDigest(oid'.hex)
    requires Associated(i, last, oid) == Associated(j, last', oid')
    ensures i == j && last == last' && oid == oid'
  {
    var a, b := Associated(i, last, oid), Associated(j, last', oid');
    assert a[..64] == OidBytes(oid) && b[..64] == OidBytes(oid');
    assert a[64..68] == ToLe(i, 4) && b[64..68] == ToLe(j, 4);
    assert a[68] == b[68];
    forall k | 0 <= k < 64 ensures oid.hex[k] == oid'.hex[k] {
      assert OidBytes(oid)[k] == OidBytes(oid')[k];
      assert IsHex(oid.hex[k]) && IsHex(oid'.hex[k]);
    }
    U32RoundTrip(i);
    U32RoundTrip(j);
  }

  // Every key is accepted for reads; the first is the one writes use.
  datatype Keyring = Keyring(keys: seq<(Bytes, Bytes)>)
  {
    predicate Valid() {
      && keys != []
      && (forall i | 0 <= i < |keys| :: |keys[i].0| == KEY && |keys[i].1| == ID)
      && (forall i, j | 0 <= i < j < |keys| :: keys[i].1 != keys[j].1)
    }

    function Writing(salt: Bytes): ObjectKey
      requires keys != []
    {
      ObjectKey(keys[0].0, keys[0].1, salt)
    }

    function Reading(id: Bytes, salt: Bytes): (key: Option<ObjectKey>)
      decreases |keys|
    {
      if keys == [] then None
      else if keys[0].1 == id then Some(ObjectKey(keys[0].0, id, salt))
      else Keyring(keys[1..]).Reading(id, salt)
    }
  }
}
