/** How the bucket's keys are spelled, and that no two are spelled alike. */
module KeyNames {
  import opened Wrappers
  import opened Bytes
  import opened Strings
  import opened Text
  import opened Names
  import opened BucketKeys
  import opened Namespaces

  predicate IsLockId(id: string) {
    |id| == 32 && forall i | 0 <= i < |id| :: IsDigit(id[i]) || 'a' <= id[i] <= 'f' || 'A' <= id[i] <= 'F'
  }

  // A key some server writes: of a namespace that was let in, for a digest.
  predicate Proper(k: Key) {
    match k
    case Content(oid) => IsDigest(oid.hex)
    case Marker(repo, oid) => Fileable(repo) && IsDigest(oid.hex)
    case Ref(oid, repo) => Fileable(repo) && IsDigest(oid.hex)
    case Size(repo, oid, bytes) => Fileable(repo) && IsDigest(oid.hex) && bytes < U64
    case Incoming(repo, oid) => Fileable(repo) && IsDigest(oid.hex)
    case Lock(repo, id) => Fileable(repo) && IsLockId(id)
    case Complete => true
  }

  function OwnPrefix(repo: Repo): string {
    repo.org + "/" + repo.name + "/"
  }

  function Fanned(hex: string): string
    requires IsDigest(hex)
  {
    hex[..2] + "/" + hex[2..4] + "/" + hex
  }

  function Spell(k: Key): string
    requires Proper(k)
  {
    match k
    case Content(oid) => ".content/" + Fanned(oid.hex)
    case Marker(repo, oid) => OwnPrefix(repo) + Fanned(oid.hex)
    case Ref(oid, repo) => ".refs/" + oid.hex + "/" + repo.org + "/" + repo.name
    case Size(repo, oid, bytes) => OwnPrefix(repo) + ".sizes/" + oid.hex + "." + Decimal(bytes)
    case Incoming(repo, oid) => ".incoming/" + OwnPrefix(repo) + Fanned(oid.hex)
    case Lock(repo, id) => ".locks/" + OwnPrefix(repo) + id + ".json"
    case Complete => ".refs/.complete"
  }

  function Segments(k: Key): (parts: seq<string>)
    requires Proper(k)
    ensures parts != []
  {
    match k
    case Content(oid) => [".content", oid.hex[..2], oid.hex[2..4], oid.hex]
    case Marker(repo, oid) => [repo.org, repo.name, oid.hex[..2], oid.hex[2..4], oid.hex]
    case Ref(oid, repo) => [".refs", oid.hex, repo.org, repo.name]
    case Size(repo, oid, bytes) => [repo.org, repo.name, ".sizes", oid.hex + "." + Decimal(bytes)]
    case Incoming(repo, oid) => [".incoming", repo.org, repo.name, oid.hex[..2], oid.hex[2..4], oid.hex]
    case Lock(repo, id) => [".locks", repo.org, repo.name, id + ".json"]
    case Complete => [".refs", ".complete"]
  }

  lemma DigestsArePlain(hex: string)
    requires IsDigest(hex)
    ensures Plain(hex) && Plain(hex[..2]) && Plain(hex[2..4])
  {
  }

  lemma SegmentsArePlain(k: Key)
    requires Proper(k)
    ensures AllPlain(Segments(k))
  {
    hide IsDigest, Decimal;
    match k {
      case Lock(_, _) =>
      case Complete =>
      case _ => DigestsArePlain(k.oid.hex);
    }
  }

  lemma Join2(a: string, b: string)
    ensures Join([a, b]) == a + "/" + b
  {
  }

  lemma Joined(a: string, parts: seq<string>)
    requires parts != []
    ensures Join([a] + parts) == a + "/" + Join(parts)
  {
  }

  lemma FannedIsJoined(hex: string)
    requires IsDigest(hex)
    ensures Join([hex[..2], hex[2..4], hex]) == Fanned(hex)
  {
    Join2(hex[2..4], hex);
    assert [hex[..2], hex[2..4], hex] == [hex[..2]] + [hex[2..4], hex];
    Joined(hex[..2], [hex[2..4], hex]);
  }

  lemma OwnIsJoined(repo: Repo, parts: seq<string>)
    requires parts != []
    ensures Join([repo.org, repo.name] + parts) == OwnPrefix(repo) + Join(parts)
  {
  }

  lemma SpelledInSegments(k: Key)
    requires Proper(k)
    ensures Spell(k) == Join(Segments(k))
  {
    match k
    case Content(oid) => ContentInSegments(oid);
    case Marker(repo, oid) =>
      FannedIsJoined(oid.hex);
      OwnIsJoined(repo, [oid.hex[..2], oid.hex[2..4], oid.hex]);
      assert Segments(k) == [repo.org, repo.name] + [oid.hex[..2], oid.hex[2..4], oid.hex];
    case Ref(oid, repo) => RefInSegments(oid, repo);
    case Size(repo, oid, bytes) => SizeInSegments(repo, oid, bytes);
    case Incoming(repo, oid) => IncomingInSegments(repo, oid);
    case Lock(repo, id) => LockInSegments(repo, id);
    case Complete => Join2(".refs", ".complete");
  }

  lemma ContentInSegments(oid: Oid)
    requires IsDigest(oid.hex)
    ensures Spell(Content(oid)) == Join(Segments(Content(oid)))
  {
    hide Fanned, Join;
    var fan := [oid.hex[..2], oid.hex[2..4], oid.hex];
    FannedIsJoined(oid.hex);
    Joined(".content", fan);
    assert Segments(Content(oid)) == [".content"] + fan;
    assert ".content/" + Fanned(oid.hex) == ".content" + "/" + Fanned(oid.hex);
  }

  lemma RefInSegments(oid: Oid, repo: Repo)
    requires Proper(Ref(oid, repo))
    ensures Spell(Ref(oid, repo)) == Join(Segments(Ref(oid, repo)))
  {
    hide IsDigest, Join, IsFiled;
    var rest := repo.org + "/" + repo.name;
    Join2(repo.org, repo.name);
    Joined(oid.hex, [repo.org, repo.name]);
    Joined(".refs", [oid.hex] + [repo.org, repo.name]);
    assert Segments(Ref(oid, repo)) == [".refs"] + ([oid.hex] + [repo.org, repo.name]);
    assert Spell(Ref(oid, repo)) == ".refs" + "/" + (oid.hex + "/" + rest);
  }

  lemma SizeInSegments(repo: Repo, oid: Oid, bytes: nat)
    requires Proper(Size(repo, oid, bytes))
    ensures Spell(Size(repo, oid, bytes)) == Join(Segments(Size(repo, oid, bytes)))
  {
    hide IsDigest, Join, IsFiled, Decimal, OwnPrefix;
    var last := oid.hex + "." + Decimal(bytes);
    Join2(".sizes", last);
    OwnIsJoined(repo, [".sizes", last]);
    assert Segments(Size(repo, oid, bytes)) == [repo.org, repo.name] + [".sizes", last];
    assert Spell(Size(repo, oid, bytes)) == OwnPrefix(repo) + (".sizes" + "/" + last);
  }

  lemma IncomingInSegments(repo: Repo, oid: Oid)
    requires Proper(Incoming(repo, oid))
    ensures Spell(Incoming(repo, oid)) == Join(Segments(Incoming(repo, oid)))
  {
    hide Fanned, Join, IsFiled, OwnPrefix;
    var fan := [oid.hex[..2], oid.hex[2..4], oid.hex];
    FannedIsJoined(oid.hex);
    OwnIsJoined(repo, fan);
    Joined(".incoming", [repo.org, repo.name] + fan);
    assert Segments(Incoming(repo, oid)) == [".incoming"] + ([repo.org, repo.name] + fan);
    assert Spell(Incoming(repo, oid)) == ".incoming" + "/" + (OwnPrefix(repo) + Fanned(oid.hex));
  }

  lemma LockInSegments(repo: Repo, id: string)
    requires Proper(Lock(repo, id))
    ensures Spell(Lock(repo, id)) == Join(Segments(Lock(repo, id)))
  {
    hide Join, IsFiled, OwnPrefix, IsLockId;
    var last := [id + ".json"];
    assert Join(last) == id + ".json" by { JoinOne(id + ".json"); }
    OwnIsJoined(repo, last);
    Joined(".locks", [repo.org, repo.name] + last);
    assert Segments(Lock(repo, id)) == [".locks"] + ([repo.org, repo.name] + last);
    assert Spell(Lock(repo, id)) == ".locks" + "/" + (OwnPrefix(repo) + (id + ".json"));
  }

  lemma JoinOne(a: string)
    ensures Join([a]) == a
  {
  }

  lemma SplitSpelled(k: Key)
    requires Proper(k)
    ensures Split(Spell(k)) == Segments(k)
  {
    hide Spell, Segments, Join, Split;
    SpelledInSegments(k);
    SegmentsArePlain(k);
    SplitJoin(Segments(k));
  }

  // Which kind of key it is shows in the number of segments and the first of them.
  lemma SegmentsDiffer(a: Key, b: Key)
    requires Proper(a) && Proper(b) && Segments(a) == Segments(b)
    ensures a == b
  {
    match (a, b)
    case (Size(r, o, m), Size(r', o', n)) =>
      var last := Segments(a)[3];
      assert last == Segments(b)[3];
      assert o.hex == last[..64] == o'.hex;
      assert Decimal(m) == last[65..] == Decimal(n);
      DecimalIsItsValue(m);
      DecimalIsItsValue(n);
    case (Lock(r, i), Lock(r', j)) =>
      assert i == Segments(a)[3][..32] && j == Segments(b)[3][..32];
    case _ =>
      assert |Segments(a)| == |Segments(b)| && Segments(a)[0] == Segments(b)[0];
  }

  // Nothing is spelled like anything else: not two keys of one kind, not two kinds.
  lemma SpelledApart(a: Key, b: Key)
    requires Proper(a) && Proper(b) && Spell(a) == Spell(b)
    ensures a == b
  {
    hide Spell, Segments, Split;
    SplitSpelled(a);
    SplitSpelled(b);
    SegmentsDiffer(a, b);
  }

  // The marker of a namespace that was let in.
  function MarkerKey(ns: Namespace, oid: Oid): string
    requires Admitted(ns) && IsDigest(oid.hex)
  {
    StoredIsFileable(ns);
    Spell(Marker(ns.Stored(), oid))
  }

  // So one namespace's markers are no other's: a shared key means one object, and the
  // same forge, organisation and repository up to case.
  lemma MarkersApart(a: Namespace, b: Namespace, o: Oid, o': Oid)
    requires Admitted(a) && Admitted(b) && IsDigest(o.hex) && IsDigest(o'.hex)
    requires MarkerKey(a, o) == MarkerKey(b, o')
    ensures o == o' && a.forge == b.forge && Lower(a.org) == Lower(b.org) && Lower(a.repo) == Lower(b.repo)
  {
    hide Spell, Admitted, IsDigest;
    StoredIsFileable(a);
    StoredIsFileable(b);
    SpelledApart(Marker(a.Stored(), o), Marker(b.Stored(), o'));
    StoredNamesDiffer(a, b);
  }

  // ----- refs::from_marker -----

  function FromMarker(marker: string): Option<string> {
    var parts := Split(marker);
    if |parts| != 5 || !IsDigest(parts[4]) then None
    else
      var org, repo, aa, bb, oid := parts[0], parts[1], parts[2], parts[3], parts[4];
      if StartsWith(oid, aa) && StartsWith(oid[2..], bb) && org != "" && repo != ""
      then Some(".refs/" + oid + "/" + org + "/" + repo)
      else None
  }

  // Of all keys exactly the markers have a ref, and it is the one their push wrote.
  lemma MarkersHaveRefs(k: Key)
    requires Proper(k)
    ensures FromMarker(Spell(k)) == match k
      case Marker(repo, oid) => Some(Spell(Ref(oid, repo)))
      case _ => None
  {
    hide Split;
    SplitSpelled(k);
    if k.Marker? {
      assert Proper(Ref(k.oid, k.repo));
      assert k.oid.hex[..2] <= k.oid.hex && k.oid.hex[2..4] <= k.oid.hex[2..];
    }
  }
}
