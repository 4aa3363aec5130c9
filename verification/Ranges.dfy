/** The byte range a request asks for (section 14.1.2 of RFC 9110). */
module Ranges {
  import opened Wrappers
  import opened Bytes
  import opened Text

  datatype Range = Full | Slice(start: nat, end: nat) | Unsatisfiable
  {
    function Length(size: nat): nat
      requires Slice? ==> start <= end
    {
      if Slice? then end - start + 1 else size
    }
  }

  function SplitOnce(s: string, c: char): Option<(string, string)> {
    if s == [] then None
    else if s[0] == c then Some(([], s[1..]))
    else match SplitOnce(s[1..], c)
      case None => None
      case Some((a, b)) => Some(([s[0]] + a, b))
  }

  const BYTES: string := "bytes="

  function Parse(header: Option<string>, size: nat): (r: Range)
    ensures r.Slice? ==> r.start <= r.end < size
  {
    match header
    case None => Full
    case Some(h) =>
      if !(BYTES <= Trim(h)) then Full
      else
        var spec := Trim(h)[|BYTES|..];
        if ',' in spec then Full
        else match SplitOnce(Trim(spec), '-')
          case None => Full
          case Some((first, last)) => Bounds(Trim(first), Trim(last), size)
  }

  function Bounds(first: string, last: string, size: nat): (r: Range)
    ensures r.Slice? ==> r.start <= r.end < size
  {
    if first == [] then
      match ParseU64(last)
      case None => Full
      case Some(length) =>
        if length == 0 || size == 0 then Unsatisfiable
        else Slice(if length <= size then size - length else 0, size - 1)
    else if last == [] then
      match ParseU64(first)
      case None => Full
      case Some(start) => if start < size then Slice(start, size - 1) else Unsatisfiable
    else
      match (ParseU64(first), ParseU64(last))
      case (Some(start), Some(end)) =>
        if start < size && start <= end then Slice(start, Min(end, size - 1)) else Unsatisfiable
      case _ => Full
  }

  // ----- What a well-formed header means -----

  // Text with no space at either end is trimmed already.
  predicate Tight(s: string) {
    s != [] ==> !IsSpace(s[0]) && !IsSpace(s[|s| - 1])
  }

  lemma {:induction false} SplitsAt(a: string, b: string, c: char)
    requires c !in a
    ensures SplitOnce(a + [c] + b, c) == Some((a, b))
  {
    var s := a + [c] + b;
    if a == [] {
      assert s[1..] == b;
    } else {
      SplitsAt(a[1..], b, c);
      assert s[1..] == a[1..] + [c] + b;
      assert [a[0]] + a[1..] == a;
    }
  }

  ghost predicate Number(s: string) {
    forall i | 0 <= i < |s| :: IsDigit(s[i])
  }

  lemma SpecParses(first: string, last: string, size: nat)
    requires Number(first) && Number(last)
    ensures Parse(Some(BYTES + (first + "-" + last)), size) == Bounds(first, last, size)
  {
    hide Trim, Bounds;
    var spec := first + "-" + last;
    var h := BYTES + spec;
    assert h[0] == 'b' && h[|h| - 1] == spec[|spec| - 1];
    TightIsTrimmed(h);
    TightIsTrimmed(spec);
    TightIsTrimmed(first);
    TightIsTrimmed(last);
    assert h[|BYTES|..] == spec;
    assert '-' !in first && ',' !in spec;
    SplitsAt(first, last, '-');
  }

  lemma TightIsTrimmed(s: string)
    requires Tight(s)
    ensures Trim(s) == s
  {
  }

  // The three forms a single range takes, over every number there is.
  lemma RangeMeans(a: nat, b: nat, size: nat)
    requires a < U64 && b < U64
    ensures Parse(Some(BYTES + (Decimal(a) + "-" + Decimal(b))), size) ==
      if a < size && a <= b then Slice(a, Min(b, size - 1)) else Unsatisfiable
    ensures Parse(Some(BYTES + (Decimal(a) + "-" + [])), size) ==
      if a < size then Slice(a, size - 1) else Unsatisfiable
    ensures Parse(Some(BYTES + ([] + "-" + Decimal(b))), size) ==
      if b == 0 || size == 0 then Unsatisfiable else Slice(size - Min(b, size), size - 1)
  {
    DecimalParses(a);
    DecimalParses(b);
    SpecParses(Decimal(a), Decimal(b), size);
    SpecParses(Decimal(a), [], size);
    SpecParses([], Decimal(b), size);
  }

  // No header asks for the whole object, and neither does one in another unit or with
  // several ranges.
  lemma WholeIsAskedFor(header: Option<string>, size: nat)
    requires header.Some? ==> !("bytes=" <= Trim(header.value)) || ',' in Trim(header.value)
    ensures Parse(header, size).Full? && Parse(header, size).Length(size) == size
  {
    if header.Some? && "bytes=" <= Trim(header.value) {
      assert Trim(header.value) == "bytes=" + Trim(header.value)[6..];
      assert ',' in Trim(header.value)[6..];
    }
  }
}
