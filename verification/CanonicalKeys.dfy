/** The one spelling every name in the bucket is folded to. */
module CanonicalKeys {
  import opened Wrappers
  import opened Strings
  import opened Names
  import opened BucketKeys
  import opened KeyNames

  const DONE := ".lfsx/namespace-case"

  // Where a key's organisation stands, its repository following it.
  function Owner(parts: seq<string>): (at: Option<nat>)
    ensures at.Some? ==> at.value + 1 < |parts|
  {
    if |parts| > 3 && parts[0] == ".locks" then Some(1)
    else if |parts| == 4 && parts[0] == ".refs" && parts[1] != ".complete" then Some(2)
    else if parts == [] || StartsWith(parts[0], ".") then None
    else if |parts| > 2 then Some(0)
    else None
  }

  function Lowered(parts: seq<string>): (l: seq<string>)
    ensures |l| == |parts|
  {
    match Owner(parts)
    case None => parts
    case Some(at) => parts[at := Lower(parts[at])][at + 1 := Lower(parts[at + 1])]
  }

  function Canonical(key: string): string {
    Join(Lowered(Split(key)))
  }

  // The key this one is to be moved to, if it is not there already.
  function CanonicalKey(key: string): Option<string> {
    if Owner(Split(key)).None? || Canonical(key) == key then None else Some(Canonical(key))
  }

  lemma CanonicalKeyIs(key: string)
    ensures CanonicalKey(key) == if Canonical(key) == key then None else Some(Canonical(key))
  {
    if Owner(Split(key)).None? {
      JoinSplit(key);
    }
  }

  lemma CanonicalSegments(key: string)
    ensures Split(Canonical(key)) == Lowered(Split(key))
  {
    hide Split, Join, Lower;
    var parts := Split(key);
    forall i | 0 <= i < |parts| ensures Plain(Lowered(parts)[i]) {
      LowerTwice(parts[i]);
    }
    SplitJoin(Lowered(parts));
  }

  lemma LoweredTwice(parts: seq<string>)
    ensures Owner(Lowered(parts)) == Owner(parts)
    ensures Lowered(Lowered(parts)) == Lowered(parts)
  {
    hide Lower;
    match Owner(parts)
    case None =>
    case Some(at) =>
      LowerTwice(parts[at]);
      LowerTwice(parts[at + 1]);
      if at == 0 { LowerKeepsDot(parts[0]); }
  }

  lemma LowerKeepsDot(s: string)
    ensures StartsWith(Lower(s), ".") <==> StartsWith(s, ".")
  {
  }

  // Folding what is folded changes nothing.
  lemma CanonicalTwice(key: string)
    ensures Canonical(Canonical(key)) == Canonical(key)
    ensures CanonicalKey(Canonical(key)) == None
  {
    CanonicalSegments(key);
    LoweredTwice(Split(key));
    CanonicalKeyIs(Canonical(key));
  }

  lemma DoneIsCanonical()
    ensures Canonical(DONE) == DONE
  {
    hide Split, Join;
    DoneSegments();
    JoinSplit(DONE);
  }

  // Nothing else folds to the mark.
  lemma OnlyDoneIsDone(key: string)
    requires Canonical(key) == DONE
    ensures key == DONE
  {
    hide Split, Join;
    CanonicalSegments(key);
    DoneSegments();
    JoinSplit(key);
  }

  lemma DoneSegments()
    ensures Split(DONE) == [".lfsx", "namespace-case"]
  {
    Join2(".lfsx", "namespace-case");
    assert ".lfsx" + "/" + "namespace-case" == DONE;
    SplitJoin([".lfsx", "namespace-case"]);
  }

  // Every key a server writes today is in its canonical place already.
  lemma ProperIsCanonical(k: Key)
    requires Proper(k)
    ensures Canonical(Spell(k)) == Spell(k)
  {
    hide Split, Join, Lower, Spell;
    SplitSpelled(k);
    SpelledInSegments(k);
    match k {
      case Content(_) =>
      case Incoming(_, _) =>
      case Complete =>
      case _ => assert Lowered(Segments(k)) == Segments(k);
    }
  }

  // ----- Refs and folding -----

  lemma LowerHex(s: string, hex: string)
    requires IsDigest(hex) && (StartsWith(hex, s) || StartsWith(hex[2..], s))
    ensures Lower(s) == s
  {
  }

  predicate IsMarker(key: string) {
    FromMarker(key).Some?
  }

  lemma RefSegments(key: string)
    requires IsMarker(key)
    ensures var p := Split(key); Split(FromMarker(key).value) == [".refs", p[4], p[0], p[1]]
  {
    hide Split;
    var p := Split(key);
    var parts := [".refs", p[4], p[0], p[1]];
    Join2(p[0], p[1]);
    Joined(p[4], [p[0], p[1]]);
    Joined(".refs", [p[4]] + [p[0], p[1]]);
    assert parts == [".refs"] + ([p[4]] + [p[0], p[1]]);
    SplitJoin(parts);
    assert FromMarker(key).value == ".refs" + "/" + (p[4] + "/" + (p[0] + "/" + p[1]));
  }

  lemma FirstDot(key: string)
    ensures StartsWith(key, ".") <==> StartsWith(Split(key)[0], ".")
  {
  }

  // Outside the dot-directories folding makes a marker of a marker and of nothing else.
  lemma MarkersFoldToMarkers(key: string)
    requires !StartsWith(key, ".")
    ensures IsMarker(Canonical(key)) <==> IsMarker(key)
  {
    hide Split, Lower, Join;
    CanonicalSegments(key);
    FirstDot(key);
    var p := Split(key);
    if |p| == 5 {
      assert Owner(p) == Some(0) by { assert p[0] != ".locks"; }
      assert Lower(p[0]) == "" <==> p[0] == "";
      assert Lower(p[1]) == "" <==> p[1] == "";
    }
  }

  // Whether a marker's ref is folded or its fold is given a ref, it is the same ref:
  // always outside the dot-directories and for what looks like a marker among the
  // locks, and elsewhere only if there was nothing to fold.
  lemma RefsFoldWithMarkers(key: string)
    requires IsMarker(key)
    ensures IsMarker(Canonical(key))
    ensures var p := Split(key);
      FromMarker(Canonical(key)) == Some(Canonical(FromMarker(key).value)) <==>
        !StartsWith(p[0], ".") || p[0] == ".locks" || (Lower(p[0]) == p[0] && Lower(p[1]) == p[1])
  {
    hide Split, Lower, Join, FromMarker;
    var p := Split(key);
    var ref := FromMarker(key).value;
    MarkerParts(key);
    CanonicalSegments(key);
    RefSegments(key);
    CanonicalSegments(ref);
    LowerHex(p[2], p[4]);
    var q := Lowered(p);
    assert q[4] == p[4] && q[3] == p[3] && q[2] == p[2];
    assert Lower(q[0]) == "" <==> q[0] == "";
    MakesMarker(Canonical(key));
    RefSegments(Canonical(key));
    assert Lowered(Split(ref)) == [".refs", p[4], Lower(p[0]), Lower(p[1])];
    JoinSplit(Canonical(ref));
    JoinSplit(FromMarker(Canonical(key)).value);
    LowerOfLocks();
  }

  lemma MarkerParts(key: string)
    requires IsMarker(key)
    ensures var p := Split(key);
      && |p| == 5 && IsDigest(p[4]) && StartsWith(p[4], p[2]) && StartsWith(p[4][2..], p[3]) && p[0] != "" && p[1] != ""
  {
  }

  lemma MakesMarker(key: string)
    requires var p := Split(key);
      |p| == 5 && IsDigest(p[4]) && StartsWith(p[4], p[2]) && StartsWith(p[4][2..], p[3]) && p[0] != "" && p[1] != ""
    ensures IsMarker(key)
  {
  }

  lemma LowerOfLocks()
    ensures Lower(".locks") == ".locks"
  {
  }

  // ----- What is folded -----

  lemma FoldedBySegment(parts: seq<string>)
    requires parts != [] && AllPlain(parts)
    ensures Canonical(Join(parts)) == Join(Lowered(parts))
  {
    SplitJoin(parts);
  }

  // The organisation and the repository of a lock, of a ref that is not the mark, and
  // of an object's marker are put in lower case, and nothing else is touched.
  lemma LocksFold(org: string, repo: string, tail: seq<string>)
    requires Plain(org) && Plain(repo) && AllPlain(tail) && tail != []
    ensures Canonical(Join([".locks", org, repo] + tail)) == Join([".locks", Lower(org), Lower(repo)] + tail)
  {
    hide Split, Join, Lower, Canonical;
    var parts := [".locks", org, repo] + tail;
    FoldedBySegment(parts);
    assert parts[1 := Lower(org)][2 := Lower(repo)] == [".locks", Lower(org), Lower(repo)] + tail;
  }

  lemma RefsFold(oid: string, org: string, repo: string)
    requires Plain(org) && Plain(repo) && Plain(oid) && oid != ".complete"
    ensures Canonical(Join([".refs", oid, org, repo])) == Join([".refs", oid, Lower(org), Lower(repo)])
  {
    hide Split, Join, Lower, Canonical;
    var parts := [".refs", oid, org, repo];
    FoldedBySegment(parts);
    assert parts[2 := Lower(org)][3 := Lower(repo)] == [".refs", oid, Lower(org), Lower(repo)];
  }

  lemma MarkersFold(org: string, repo: string, tail: seq<string>)
    requires Plain(org) && Plain(repo) && AllPlain(tail) && tail != [] && (org == "" || org[0] != '.')
    ensures Canonical(Join([org, repo] + tail)) == Join([Lower(org), Lower(repo)] + tail)
  {
    hide Split, Join, Lower, Canonical;
    var parts := [org, repo] + tail;
    FoldedBySegment(parts);
    assert parts[0 := Lower(org)][1 := Lower(repo)] == [Lower(org), Lower(repo)] + tail;
  }

  // A key in any other dot-directory, and one of too few segments, is left alone.
  lemma LeftAlone(parts: seq<string>)
    requires parts != [] && AllPlain(parts)
    requires |parts| < 3 || (parts[0] != "" && parts[0][0] == '.' && parts[0] != ".locks" && parts[0] != ".refs")
      || (parts[0] == ".locks" && |parts| == 3) || (parts[0] == ".refs" && (|parts| != 4 || parts[1] == ".complete"))
    ensures Canonical(Join(parts)) == Join(parts)
  {
    hide Split, Join, Lower, Canonical;
    FoldedBySegment(parts);
  }
}
