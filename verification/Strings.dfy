/** Key names: slash-separated segments, and the case they are in. */
module Strings {
  // ----- Segments -----

  predicate Plain(segment: string) {
    '/' !in segment
  }

  function Cut(s: string): (i: nat)
    requires '/' in s
    ensures i < |s| && s[i] == '/' && Plain(s[..i])
  {
    if s[0] == '/' then 0
    else
      var i := Cut(s[1..]);
      assert s[..i + 1] == [s[0]] + s[1..][..i];
      i + 1
  }

  function Split(s: string): (parts: seq<string>)
    ensures |parts| > 0
    ensures forall i | 0 <= i < |parts| :: Plain(parts[i])
  {
    if '/' !in s then [s] else [s[..Cut(s)]] + Split(s[Cut(s) + 1..])
  }

  function Join(parts: seq<string>): string {
    if |parts| == 0 then "" else if |parts| == 1 then parts[0] else parts[0] + "/" + Join(parts[1..])
  }

  function LastSegment(s: string): string {
    Split(s)[|Split(s)| - 1]
  }

  predicate StartsWith(s: string, prefix: string) {
    prefix <= s
  }

  predicate Contains(s: string, inner: string) {
    exists i | 0 <= i <= |s| :: At(s, i, inner)
  }

  predicate At(s: string, i: nat, inner: string) {
    i + |inner| <= |s| && s[i..i + |inner|] == inner
  }

  predicate AllPlain(parts: seq<string>) {
    forall i | 0 <= i < |parts| :: Plain(parts[i])
  }

  lemma CutIsFirst(a: string, rest: string)
    requires Plain(a)
    ensures Cut(a + "/" + rest) == |a|
  {
    var s := a + "/" + rest;
    assert s[|a|] == '/';
    assert forall k | 0 <= k < |a| :: s[k] == a[k] != '/';
    assert forall k | 0 <= k < Cut(s) :: s[k] == s[..Cut(s)][k] != '/';
  }

  lemma SplitFirst(a: string, rest: string)
    requires Plain(a)
    ensures Split(a + "/" + rest) == [a] + Split(rest)
  {
    var s := a + "/" + rest;
    CutIsFirst(a, rest);
    assert s[|a|] == '/';
    assert s[..|a|] == a && s[|a| + 1..] == rest;
  }

  // Segments survive being joined: the names in a key can be read back.
  lemma {:induction false} SplitJoin(parts: seq<string>)
    requires parts != [] && AllPlain(parts)
    ensures Split(Join(parts)) == parts
  {
    if |parts| > 1 {
      SplitJoin(parts[1..]);
      SplitFirst(parts[0], Join(parts[1..]));
    }
  }

  lemma {:induction false} JoinSplit(s: string)
    ensures Join(Split(s)) == s
  {
    if '/' in s {
      var i := Cut(s);
      JoinSplit(s[i + 1..]);
      assert Split(s)[1..] == Split(s[i + 1..]);
      assert s == s[..i] + "/" + s[i + 1..];
    }
  }

  // Plain text up to a slash is settled by where the slash is.
  lemma HeadMatches(head: string, rest: string, first: string, more: string)
    requires Plain(head) && Plain(first)
    ensures StartsWith(head + "/" + rest, first + "/" + more) <==> head == first && StartsWith(rest, more)
  {
    var s, p := head + "/" + rest, first + "/" + more;
    if StartsWith(s, p) {
      CutIsFirst(head, rest);
      CutIsFirst(first, s[|first| + 1..]);
      assert s == first + "/" + s[|first| + 1..] by {
        assert s[..|first| + 1] == p[..|first| + 1] == first + "/";
      }
      assert head == s[..|head|] && first == s[..|first|];
      assert s[|head| + 1..] == rest && p[|head| + 1..] == more;
      assert s[..|p|][|head| + 1..] == rest[..|more|];
    }
    if head == first && StartsWith(rest, more) {
      assert s == p + rest[|more|..];
    }
  }

  lemma PrefixHasSlash(s: string, first: string, more: string)
    requires StartsWith(s, first + "/" + more)
    ensures '/' in s
  {
    assert s[|first|] == (first + "/" + more)[|first|] == '/';
  }

  // A key starts with whole segments exactly when they are its first segments.
  lemma {:induction false} PrefixIsSegments(s: string, pre: seq<string>)
    requires pre != [] && AllPlain(pre)
    ensures StartsWith(s, Join(pre) + "/") <==> |Split(s)| > |pre| && Split(s)[..|pre|] == pre
  {
    hide StartsWith;
    var more := if |pre| == 1 then "" else Join(pre[1..]) + "/";
    assert Join(pre) + "/" == pre[0] + "/" + more;
    if '/' !in s {
      if StartsWith(s, pre[0] + "/" + more) { PrefixHasSlash(s, pre[0], more); }
    } else {
      var head, rest := s[..Cut(s)], s[Cut(s) + 1..];
      assert s == head + "/" + rest;
      HeadMatches(head, rest, pre[0], more);
      assert StartsWith(rest, "") by { EveryStart(rest); }
      if |pre| > 1 {
        PrefixIsSegments(rest, pre[1..]);
      }
      FirstOf(head, Split(rest), pre);
    }
  }

  lemma EveryStart(s: string)
    ensures StartsWith(s, "")
  {
  }

  lemma FirstOf(head: string, rest: seq<string>, pre: seq<string>)
    requires pre != []
    ensures |[head] + rest| > |pre| && ([head] + rest)[..|pre|] == pre
      <==> |rest| > |pre| - 1 && rest[..|pre| - 1] == pre[1..] && head == pre[0]
  {
  }

  lemma SameSlice(a: string, b: string, at: nat, i: nat, n: nat)
    requires at + |b| <= |a| && a[at..at + |b|] == b && i + n <= |b|
    ensures a[at + i..at + i + n] == b[i..i + n]
  {
    var x, y := a[at + i..at + i + n], b[i..i + n];
    assert forall j | 0 <= j < |b| :: a[at + j] == a[at..at + |b|][j] == b[j];
    assert forall k | 0 <= k < n :: x[k] == a[at + (i + k)] == b[i + k] == y[k];
  }

  // Between two slashes: at the first slash, or after it.
  lemma FoundInside(head: string, rest: string, segment: string, i: nat)
    requires Plain(head) && i <= |head| + 1 + |rest| && At(head + "/" + rest, i, "/" + segment + "/")
    ensures StartsWith(rest, segment + "/") || Contains(rest, "/" + segment + "/")
  {
    var s, inner, c := head + "/" + rest, "/" + segment + "/", |head|;
    assert s[i] == s[i..i + |inner|][0] == '/';
    assert forall k | 0 <= k < c :: s[k] == head[k] != '/';
    assert s[c + 1..c + 1 + |rest|] == rest;
    if i == c {
      FoundAtTheSlash(s, rest, segment, c);
    } else {
      SameSlice(s, rest, c + 1, i - c - 1, |inner|);
      assert At(rest, i - c - 1, inner);
    }
  }

  lemma FoundAtTheSlash(s: string, rest: string, segment: string, c: nat)
    requires c + 1 + |rest| == |s| && s[c + 1..c + 1 + |rest|] == rest && At(s, c, "/" + segment + "/")
    ensures StartsWith(rest, segment + "/")
  {
    var inner, start := "/" + segment + "/", segment + "/";
    assert inner[1..1 + |start|] == start;
    SameSlice(s, inner, c, 1, |start|);
    SameSlice(s, rest, c + 1, 0, |start|);
    assert rest[..|start|] == rest[0..|start|] == start;
  }

  lemma FoundSomewhere(head: string, rest: string, segment: string)
    requires Plain(head) && Contains(head + "/" + rest, "/" + segment + "/")
    ensures StartsWith(rest, segment + "/") || Contains(rest, "/" + segment + "/")
  {
    hide StartsWith, At;
    var s := head + "/" + rest;
    var i :| 0 <= i <= |s| && At(s, i, "/" + segment + "/");
    FoundInside(head, rest, segment, i);
  }

  lemma AtItsPlace(before: string, inner: string, behind: string)
    ensures At(before + inner + behind, |before|, inner)
  {
    var s := before + inner + behind;
    assert forall k | 0 <= k < |inner| :: s[|before|..|before| + |inner|][k] == s[|before| + k] == inner[k];
  }

  lemma PutFirst(head: string, segment: string, behind: string)
    ensures Contains(head + "/" + (segment + "/" + behind), "/" + segment + "/")
  {
    hide At;
    var inner := "/" + segment + "/";
    AtItsPlace(head, inner, behind);
    assert head + "/" + (segment + "/" + behind) == head + inner + behind;
  }

  lemma PutFurtherIn(head: string, before: string, inner: string, behind: string)
    ensures Contains(head + "/" + (before + inner + behind), inner)
  {
    hide At;
    AtItsPlace(head + "/" + before, inner, behind);
    assert head + "/" + (before + inner + behind) == head + "/" + before + inner + behind;
  }

  lemma PutInside(head: string, rest: string, segment: string)
    requires StartsWith(rest, segment + "/") || Contains(rest, "/" + segment + "/")
    ensures Contains(head + "/" + rest, "/" + segment + "/")
  {
    if StartsWith(rest, segment + "/") {
      hide Contains;
      PutFirst(head, segment, rest[|segment| + 1..]);
      assert rest == segment + "/" + rest[|segment| + 1..];
    } else {
      var inner := "/" + segment + "/";
      var i :| 0 <= i <= |rest| && At(rest, i, inner);
      hide Contains;
      PutFurtherIn(head, rest[..i], inner, rest[i + |inner|..]);
      assert rest == rest[..i] + inner + rest[i + |inner|..];
    }
  }

  lemma NoSlashNothingInside(s: string, segment: string)
    requires Plain(s)
    ensures !Contains(s, "/" + segment + "/")
  {
    var inner := "/" + segment + "/";
    forall i | 0 <= i <= |s| ensures !At(s, i, inner) {
      if i + |inner| <= |s| {
        assert inner[0] == '/' && s[i..i + |inner|][0] == s[i];
      }
    }
  }

  // Neither the first segment nor the last.
  predicate Inner(parts: seq<string>, segment: string) {
    exists i | 0 < i < |parts| - 1 :: parts[i] == segment
  }

  lemma InnerStep(head: string, parts: seq<string>, segment: string)
    requires parts != []
    ensures Inner([head] + parts, segment) <==> (|parts| > 1 && parts[0] == segment) || Inner(parts, segment)
  {
    var all := [head] + parts;
    if i: nat :| 0 < i < |all| - 1 && all[i] == segment {
      assert parts[i - 1] == segment;
    }
    if i: nat :| i < |parts| - 1 && parts[i] == segment {
      assert all[i + 1] == segment;
    }
  }

  // A segment between two slashes is one of the inner segments.
  lemma {:induction false} ContainsIsSegment(s: string, segment: string)
    requires Plain(segment)
    ensures Contains(s, "/" + segment + "/") <==> Inner(Split(s), segment)
  {
    hide Contains, StartsWith, Inner;
    if '/' !in s {
      NoSlashNothingInside(s, segment);
      assert !Inner([s], segment) by { OneIsNotInner(s, segment); }
    } else {
      var head, rest := s[..Cut(s)], s[Cut(s) + 1..];
      assert s == head + "/" + rest;
      ContainsIsSegment(rest, segment);
      StartsInner(rest, segment);
      if Contains(s, "/" + segment + "/") { FoundSomewhere(head, rest, segment); }
      if StartsWith(rest, segment + "/") || Contains(rest, "/" + segment + "/") { PutInside(head, rest, segment); }
      InnerStep(head, Split(rest), segment);
    }
  }

  lemma OneIsNotInner(s: string, segment: string)
    ensures !Inner([s], segment)
  {
  }

  lemma StartsInner(rest: string, segment: string)
    requires Plain(segment)
    ensures StartsWith(rest, segment + "/") <==> |Split(rest)| > 1 && Split(rest)[0] == segment
  {
    PrefixIsSegments(rest, [segment]);
    assert Join([segment]) + "/" == segment + "/";
    if |Split(rest)| > 1 {
      assert Split(rest)[..1] == [Split(rest)[0]];
    }
  }

  // ----- Cases -----

  function LowerChar(c: char): char {
    if 'A' <= c <= 'Z' then (c as int + 32) as char else c
  }

  function Lower(s: string): (l: string)
    ensures |l| == |s|
    ensures forall i | 0 <= i < |s| :: l[i] == LowerChar(s[i])
  {
    seq(|s|, i requires 0 <= i < |s| => LowerChar(s[i]))
  }

  // Each of the twenty-six capitals gives its small letter, and nothing else is changed.
  lemma LowerMeans(c: char)
    ensures 65 <= c as int < 65 + 26 ==> LowerChar(c) as int == c as int - 65 + 97
    ensures c < 'A' || c > 'Z' ==> LowerChar(c) == c
  {
  }

  lemma LowerTwice(s: string)
    ensures Lower(Lower(s)) == Lower(s)
    ensures Plain(s) ==> Plain(Lower(s))
  {
  }
}
