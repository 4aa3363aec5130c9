/**
 What a sweep makes of a listing: which markers are the repository's own, what
 others claim, and how large everything is.
 */
module Surveying {
  import opened Wrappers
  import opened Bytes
  import opened Strings
  import opened Text
  import opened Names
  import opened BucketKeys
  import opened Namespaces
  import opened KeyNames

  // One line of a listing.  An age is missing where the store gave no date.
  datatype Entry = Entry(key: string, age: Option<nat>, size: nat)

  datatype Findings = Findings(
    markers: seq<string>, sized: map<Oid, string>, mine: seq<(Entry, Oid)>,
    claimedElsewhere: set<Oid>, contentSizes: map<string, nat>)

  const NOTHING := Findings([], map[], [], {}, map[])

  // ----- sizes -----

  predicate IsSize(key: string) {
    Contains(key, "/.sizes/")
  }

  function LastDot(s: string): (i: nat)
    requires '.' in s
    ensures i < |s| && s[i] == '.' && '.' !in s[i + 1..]
  {
    if s[|s| - 1] == '.' then |s| - 1
    else
      assert s == s[..|s| - 1] + [s[|s| - 1]];
      var i := LastDot(s[..|s| - 1]);
      assert s[i + 1..] == s[..|s| - 1][i + 1..] + [s[|s| - 1]];
      i
  }

  function ReadSize(key: string): Option<(Oid, nat)> {
    var last := LastSegment(key);
    if '.' !in last then None
    else
      match (ParseOid(last[..LastDot(last)]), ParseU64(last[LastDot(last) + 1..]))
      case (Some(oid), Some(size)) => Some((oid, size))
      case _ => None
  }

  // ----- Survey::file -----

  const NOT_MARKERS: seq<string> := [".incoming/", ".locks/", ".refs/", ".probe/"]

  predicate NotAMarker(key: string) {
    exists i | 0 <= i < |NOT_MARKERS| :: StartsWith(key, NOT_MARKERS[i])
  }

  function Filed(f: Findings, entry: Entry, ours: string): Findings {
    var key := entry.key;
    if StartsWith(key, ".content/") then
      f.(contentSizes := f.contentSizes[LastSegment(key[|".content/"|..]) := entry.size])
    else if NotAMarker(key) then f
    else if IsSize(key) then
      match ReadSize(key)
      case Some(read) => if StartsWith(key, ours) then f.(sized := f.sized[read.0 := key]) else f
      case None => f
    else
      match ParseOid(LastSegment(key))
      case None => f
      case Some(oid) =>
        var g := f.(markers := f.markers + [key]);
        if StartsWith(key, ours) then g.(mine := g.mine + [(entry, oid)])
        else g.(claimedElsewhere := g.claimedElsewhere + {oid})
  }

  function Surveyed(entries: seq<Entry>, ours: string): Findings {
    if entries == [] then NOTHING
    else Filed(Surveyed(entries[..|entries| - 1], ours), entries[|entries| - 1], ours)
  }

  class Survey {
    var markers: seq<string>
    var sized: map<Oid, string>
    var mine: seq<(Entry, Oid)>
    var claimedElsewhere: set<Oid>
    var contentSizes: map<string, nat>

    function Found(): Findings
      reads this
    {
      Findings(markers, sized, mine, claimedElsewhere, contentSizes)
    }

    constructor Of(entries: seq<Entry>, ours: string)
      ensures Found() == Surveyed(entries, ours)
    {
      markers, sized, mine, claimedElsewhere, contentSizes := [], map[], [], {}, map[];
      new;
      for i := 0 to |entries|
        invariant Found() == Surveyed(entries[..i], ours)
      {
        assert entries[..i + 1][..i] == entries[..i];
        File(entries[i], ours);
      }
      assert entries[..|entries|] == entries;
    }

    method File(entry: Entry, ours: string)
      modifies this
      ensures Found() == Filed(old(Found()), entry, ours)
    {
      if StartsWith(entry.key, ".content/") {
        var oid := LastSegment(entry.key[|".content/"|..]);
        contentSizes := contentSizes[oid := entry.size];
        return;
      }
      var i := 0;
      while i < |NOT_MARKERS|
        invariant 0 <= i <= |NOT_MARKERS|
        invariant forall j | 0 <= j < i :: !StartsWith(entry.key, NOT_MARKERS[j])
      {
        if StartsWith(entry.key, NOT_MARKERS[i]) {
          return;
        }
        i := i + 1;
      }
      if IsSize(entry.key) {
        var read := ReadSize(entry.key);
        if StartsWith(entry.key, ours) && read.Some? {
          sized := sized[read.value.0 := entry.key];
        }
        return;
      }
      var oid := ParseOid(LastSegment(entry.key));
      if oid.None? {
        return;
      }
      markers := markers + [entry.key];
      if StartsWith(entry.key, ours) {
        mine := mine + [(entry, oid.value)];
      } else {
        claimedElsewhere := claimedElsewhere + {oid.value};
      }
    }
  }

  // ----- What a proper key is filed as -----

  lemma FirstSegmentDecides(key: string, segment: string)
    requires Plain(segment)
    ensures StartsWith(key, segment + "/") <==> |Split(key)| > 1 && Split(key)[0] == segment
  {
    StartsInner(key, segment);
  }

  lemma InContent(k: Key)
    requires Proper(k)
    ensures StartsWith(Spell(k), ".content/") <==> k.Content?
    ensures k.Content? ==> LastSegment(Spell(k)[|".content/"|..]) == k.oid.hex
  {
    hide Split, StartsWith;
    SplitSpelled(k);
    FirstSegmentDecides(Spell(k), ".content");
    assert ".content" + "/" == ".content/";
    if k.Content? {
      var hex := k.oid.hex;
      assert Spell(k)[|".content/"|..] == Fanned(hex);
      FannedIsJoined(hex);
      SplitJoin([hex[..2], hex[2..4], hex]);
    }
  }

  lemma OutsideTheRepositories(k: Key)
    requires Proper(k)
    ensures NotAMarker(Spell(k)) <==> k.Incoming? || k.Lock? || k.Ref? || k.Complete?
  {
    hide Split, StartsWith, Spell;
    SplitSpelled(k);
    var key := Spell(k);
    FirstSegmentDecides(key, ".incoming");
    FirstSegmentDecides(key, ".locks");
    FirstSegmentDecides(key, ".refs");
    FirstSegmentDecides(key, ".probe");
    assert NOT_MARKERS[0] == ".incoming" + "/" && NOT_MARKERS[1] == ".locks" + "/";
    assert NOT_MARKERS[2] == ".refs" + "/" && NOT_MARKERS[3] == ".probe" + "/";
  }

  lemma AmongSizes(k: Key)
    requires Proper(k) && (k.Marker? || k.Size?)
    ensures IsSize(Spell(k)) <==> k.Size?
    ensures k.Size? ==> ReadSize(Spell(k)) == Some((k.oid, k.bytes))
    ensures k.Marker? ==> ParseOid(LastSegment(Spell(k))) == Some(k.oid)
  {
    hide Split, Contains, Spell, Decimal, IsDigest, Inner, LastDot, ParseU64;
    SplitSpelled(k);
    ContainsIsSegment(Spell(k), ".sizes");
    assert "/" + ".sizes" + "/" == "/.sizes/";
    SizesIsInside(k);
    if k.Size? {
      LastIsRead(k.oid.hex, k.bytes);
    }
  }

  lemma SizesIsInside(k: Key)
    requires Proper(k) && (k.Marker? || k.Size?)
    ensures Inner(Segments(k), ".sizes") <==> k.Size?
  {
    hide Decimal;
    if k.Size? { assert Segments(k)[2] == ".sizes"; }
  }

  lemma LastIsRead(hex: string, bytes: nat)
    requires IsDigest(hex) && bytes < U64
    ensures var last := hex + "." + Decimal(bytes);
      && '.' in last && last[..LastDot(last)] == hex
      && ParseU64(last[LastDot(last) + 1..]) == Some(bytes)
  {
    var digits := Decimal(bytes);
    var last := hex + "." + digits;
    assert last[64] == '.';
    assert forall i | 65 <= i < |last| :: last[i] == digits[i - 65] && IsDigit(last[i]);
    assert LastDot(last) == 64;
    assert last[65..] == digits;
    DecimalParses(bytes);
  }

  lemma OwnKeys(k: Key, repo: Repo)
    requires Proper(k) && (k.Marker? || k.Size?) && Fileable(repo)
    ensures StartsWith(Spell(k), OwnPrefix(repo)) <==> k.repo == repo
  {
    hide Split, StartsWith, Spell;
    SplitSpelled(k);
    var pre := [repo.org, repo.name];
    PrefixIsSegments(Spell(k), pre);
    Join2(repo.org, repo.name);
    assert Segments(k)[..2] == [k.repo.org, k.repo.name];
  }

  function FiledAs(f: Findings, entry: Entry, k: Key, repo: Repo): Findings {
    match k
    case Content(oid) => f.(contentSizes := f.contentSizes[oid.hex := entry.size])
    case Size(r, oid, _) => if r == repo then f.(sized := f.sized[oid := entry.key]) else f
    case Marker(r, oid) =>
      if r == repo then f.(markers := f.markers + [entry.key], mine := f.mine + [(entry, oid)])
      else f.(markers := f.markers + [entry.key], claimedElsewhere := f.claimedElsewhere + {oid})
    case _ => f
  }

  // Every proper key is filed by what it is, not by what it happens to look like.
  lemma FiledByKind(f: Findings, k: Key, age: Option<nat>, size: nat, repo: Repo)
    requires Proper(k) && Fileable(repo)
    ensures Filed(f, Entry(Spell(k), age, size), OwnPrefix(repo)) == FiledAs(f, Entry(Spell(k), age, size), k, repo)
  {
    hide Split, StartsWith, Spell, NotAMarker, IsSize, ReadSize, ParseOid, OwnPrefix;
    InContent(k);
    OutsideTheRepositories(k);
    if k.Marker? || k.Size? {
      AmongSizes(k);
      OwnKeys(k, repo);
    }
  }

  // A listing of proper keys, each once.
  ghost predicate Lists(entries: seq<Entry>, keys: seq<Key>) {
    && |entries| == |keys|
    && (forall i | 0 <= i < |keys| :: Proper(keys[i]) && entries[i].key == Spell(keys[i]))
    && (forall i, j | 0 <= i < j < |keys| :: keys[i] != keys[j])
  }

  // What a survey finds is exactly what the bucket holds: the repository's own
  // markers, what any other repository claims, and the sizes.
  ghost predicate Exact(f: Findings, entries: seq<Entry>, keys: seq<Key>, repo: Repo)
    requires |entries| == |keys|
  {
    ExactMarkers(f, entries, keys, repo) && ExactSizes(f, entries, keys, repo)
  }

  ghost predicate ExactMarkers(f: Findings, entries: seq<Entry>, keys: seq<Key>, repo: Repo)
    requires |entries| == |keys|
  {
    && (forall m :: m in f.markers <==> exists i | 0 <= i < |keys| :: keys[i].Marker? && entries[i].key == m)
    && (forall o :: o in f.claimedElsewhere <==> exists i | 0 <= i < |keys| ::
          keys[i].Marker? && keys[i].oid == o && keys[i].repo != repo)
    && (forall e, o :: (e, o) in f.mine <==> exists i | 0 <= i < |keys| :: keys[i] == Marker(repo, o) && entries[i] == e)
  }

  ghost predicate ExactSizes(f: Findings, entries: seq<Entry>, keys: seq<Key>, repo: Repo)
    requires |entries| == |keys|
  {
    ExactSized(f, entries, keys, repo) && ExactContents(f, entries, keys)
  }

  ghost predicate ExactSized(f: Findings, entries: seq<Entry>, keys: seq<Key>, repo: Repo)
    requires |entries| == |keys|
  {
    && (forall o :: o in f.sized <==> exists i | 0 <= i < |keys| :: keys[i].Size? && keys[i].repo == repo && keys[i].oid == o)
    && (forall o | o in f.sized :: exists i | 0 <= i < |keys| ::
          keys[i].Size? && keys[i].repo == repo && keys[i].oid == o && f.sized[o] == entries[i].key)
  }

  ghost predicate ExactContents(f: Findings, entries: seq<Entry>, keys: seq<Key>)
    requires |entries| == |keys|
  {
    && (forall h :: h in f.contentSizes <==> exists i | 0 <= i < |keys| :: keys[i].Content? && keys[i].oid.hex == h)
    && (forall i | 0 <= i < |keys| && keys[i].Content? ::
         keys[i].oid.hex in f.contentSizes && f.contentSizes[keys[i].oid.hex] == entries[i].size)
  }

  lemma {:induction false} SurveyIsExact(entries: seq<Entry>, keys: seq<Key>, repo: Repo)
    requires Lists(entries, keys) && Fileable(repo)
    ensures Exact(Surveyed(entries, OwnPrefix(repo)), entries, keys, repo)
  {
    hide Exact, Filed, Spell, Proper, OwnPrefix;
    if keys == [] {
      assert Exact(NOTHING, [], [], repo) by { NothingIsExact(repo); }
    } else {
      var n := |keys| - 1;
      SurveyIsExact(entries[..n], keys[..n], repo);
      var f := Surveyed(entries[..n], OwnPrefix(repo));
      FiledByKind(f, keys[n], entries[n].age, entries[n].size, repo);
      assert entries[n] == Entry(Spell(keys[n]), entries[n].age, entries[n].size);
      OneMore(f, entries, keys, repo);
    }
  }

  lemma NothingIsExact(repo: Repo)
    ensures Exact(NOTHING, [], [], repo)
  {
  }

  lemma OneMore(f: Findings, entries: seq<Entry>, keys: seq<Key>, repo: Repo)
    requires |entries| == |keys| > 0 && (forall i, j | 0 <= i < j < |keys| :: keys[i] != keys[j])
    requires Exact(f, entries[..|keys| - 1], keys[..|keys| - 1], repo)
    ensures Exact(FiledAs(f, entries[|keys| - 1], keys[|keys| - 1], repo), entries, keys, repo)
  {
    OneMoreMarker(f, entries, keys, repo);
    OneMoreSize(f, entries, keys, repo);
  }

  lemma OneMoreMarker(f: Findings, entries: seq<Entry>, keys: seq<Key>, repo: Repo)
    requires |entries| == |keys| > 0
    requires ExactMarkers(f, entries[..|keys| - 1], keys[..|keys| - 1], repo)
    ensures ExactMarkers(FiledAs(f, entries[|keys| - 1], keys[|keys| - 1], repo), entries, keys, repo)
  {
    var n := |keys| - 1;
    assert forall i | 0 <= i < n :: keys[..n][i] == keys[i] && entries[..n][i] == entries[i];
  }

  lemma OneMoreSize(f: Findings, entries: seq<Entry>, keys: seq<Key>, repo: Repo)
    requires |entries| == |keys| > 0 && (forall i, j | 0 <= i < j < |keys| :: keys[i] != keys[j])
    requires ExactSizes(f, entries[..|keys| - 1], keys[..|keys| - 1], repo)
    ensures ExactSizes(FiledAs(f, entries[|keys| - 1], keys[|keys| - 1], repo), entries, keys, repo)
  {
    OneMoreSized(f, entries, keys, repo);
    OneMoreContent(f, entries, keys, repo);
  }

  lemma OneMoreSized(f: Findings, entries: seq<Entry>, keys: seq<Key>, repo: Repo)
    requires |entries| == |keys| > 0
    requires ExactSized(f, entries[..|keys| - 1], keys[..|keys| - 1], repo)
    ensures ExactSized(FiledAs(f, entries[|keys| - 1], keys[|keys| - 1], repo), entries, keys, repo)
  {
    var n := |keys| - 1;
    assert forall i | 0 <= i < n :: keys[..n][i] == keys[i] && entries[..n][i] == entries[i];
  }

  lemma OneMoreContent(f: Findings, entries: seq<Entry>, keys: seq<Key>, repo: Repo)
    requires |entries| == |keys| > 0 && (forall i, j | 0 <= i < j < |keys| :: keys[i] != keys[j])
    requires ExactContents(f, entries[..|keys| - 1], keys[..|keys| - 1])
    ensures ExactContents(FiledAs(f, entries[|keys| - 1], keys[|keys| - 1], repo), entries, keys)
  {
    var n := |keys| - 1;
    assert forall i | 0 <= i < n :: keys[..n][i] == keys[i] && entries[..n][i] == entries[i];
  }

  // ----- S3Store::droppable -----

  function Count(mine: seq<(Entry, Oid)>, p: ((Entry, Oid)) -> bool): nat {
    if mine == [] then 0 else Count(mine[..|mine| - 1], p) + if p(mine[|mine| - 1]) then 1 else 0
  }

  // Not retained, and known to be old enough; a marker with no date is young.
  method Droppable(mine: seq<(Entry, Oid)>, retained: set<Oid>, grace: nat)
    returns (drop: seq<(Entry, Oid)>, swept: nat, withinGrace: nat)
    ensures forall x :: x in drop <==> x in mine && x.1 !in retained && x.0.age.Some? && x.0.age.value >= grace
    ensures multiset(drop) <= multiset(mine)
    ensures swept == |drop| == Count(mine, (x: (Entry, Oid)) => x.1 !in retained && x.0.age.Some? && x.0.age.value >= grace)
    ensures withinGrace == Count(mine, (x: (Entry, Oid)) => x.1 !in retained && (x.0.age.None? || x.0.age.value < grace))
  {
    drop, swept, withinGrace := [], 0, 0;
    ghost var aged := (x: (Entry, Oid)) => x.1 !in retained && x.0.age.Some? && x.0.age.value >= grace;
    ghost var spared := (x: (Entry, Oid)) => x.1 !in retained && (x.0.age.None? || x.0.age.value < grace);
    for i := 0 to |mine|
      invariant forall x :: x in drop <==> x in mine[..i] && aged(x)
      invariant multiset(drop) <= multiset(mine[..i])
      invariant swept == |drop| == Count(mine[..i], aged)
      invariant withinGrace == Count(mine[..i], spared)
    {
      assert mine[..i + 1] == mine[..i] + [mine[i]];
      assert mine[..i + 1][..i] == mine[..i];
      var (entry, oid) := mine[i];
      if oid in retained {
        continue;
      }
      if entry.age.None? || entry.age.value < grace {
        withinGrace := withinGrace + 1;
        continue;
      }
      swept := swept + 1;
      drop := drop + [mine[i]];
    }
    assert mine[..|mine|] == mine;
    CountsAlike(mine, aged, (x: (Entry, Oid)) => x.1 !in retained && x.0.age.Some? && x.0.age.value >= grace);
    CountsAlike(mine, spared, (x: (Entry, Oid)) => x.1 !in retained && (x.0.age.None? || x.0.age.value < grace));
  }

  lemma {:induction false} CountsAlike(mine: seq<(Entry, Oid)>, p: ((Entry, Oid)) -> bool, q: ((Entry, Oid)) -> bool)
    requires forall x :: p(x) == q(x)
    ensures Count(mine, p) == Count(mine, q)
  {
    if mine != [] {
      CountsAlike(mine[..|mine| - 1], p, q);
    }
  }
}
