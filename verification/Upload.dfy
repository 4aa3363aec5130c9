/**
 An upload on its way to the disk: its limits, its digest and its declared size.
 */
module Upload {
  import opened Wrappers
  import opened Bytes
  import opened Names
  import opened Sealing
  import opened Framing
  import opened Serving

  datatype Refusal =
    | TooLarge(limit: nat)
    | OverQuota(used: nat, limit: nat)
    | SizeMismatch(declared: nat, actual: nat)
    | OidMismatch(named: Oid, digest: Oid)

  // What is left of a repository's budget for one transfer.
  datatype Budget = Budget(used: nat, limit: nat)
  {
    predicate ExceededBy(arriving: nat) {
      Min(used + arriving, U64 - 1) > limit
    }
  }

  datatype Limits = Limits(maxObjectSize: Option<nat>, budget: Option<Budget>)
  {
    predicate Allow(written: nat) {
      && (maxObjectSize.Some? ==> written <= maxObjectSize.value)
      && (budget.Some? ==> !budget.value.ExceededBy(written))
    }
  }

  datatype Written = Written(disk: Bytes, digest: Oid, bytes: nat)

  // Too many bytes for one object, which is said first, or for what the repository has
  // left of its quota; a sum past what a u64 holds counts as the largest there is.
  ghost predicate Refuses(limits: Limits, arrived: nat, e: Refusal) {
    var large := limits.maxObjectSize.Some? && arrived > limits.maxObjectSize.value;
    match e
    case TooLarge(limit) => large && limit == limits.maxObjectSize.value
    case OverQuota(used, limit) =>
      !large && limits.budget == Some(Budget(used, limit)) && used + arrived > limit && limit < U64 - 1
    case _ => false
  }

  lemma AllowedIsNotRefused(limits: Limits, n: nat)
    ensures limits.Allow(n) ==> forall e :: !Refuses(limits, n, e)
  {
  }

  // Every limit is held against the bytes that arrive, chunk by chunk: nothing
  // past the chunk that crosses a line is taken.
  method StreamTo(t: Transforms, c: Config, digest: Bytes -> Oid, limits: Limits, chunks: seq<Bytes>)
    returns (r: Result<Written, Refusal>, ghost taken: nat)
    requires c.Sound()
    ensures r.Ok? <==>
      && (chunks != [] && limits.maxObjectSize.Some? ==> |Concat(chunks)| <= limits.maxObjectSize.value)
      && (chunks != [] && limits.budget.Some? ==>
            Min(limits.budget.value.used + |Concat(chunks)|, U64 - 1) <= limits.budget.value.limit)
    ensures r.Ok? ==> r.value == Written(Disk(t, c, Concat(chunks)), digest(Concat(chunks)), |Concat(chunks)|)
    ensures r.Err? ==> taken < |chunks| && Refuses(limits, |Concat(chunks[..taken + 1])|, r.error)
    ensures r.Err? && taken > 0 ==> forall e :: !Refuses(limits, |Concat(chunks[..taken])|, e)
  {
    hide Disk, Concat, Refuses, OnDisk;
    assert Concat(chunks[..0]) == [] by { ConcatOfNone(chunks); }
    var sink;
    if c == PlainConfig(c.oid) {
      sink := new Sink.Raw(t, c.oid);
    } else {
      sink := new Sink.Framed(t, c);
    }
    var hashed: Bytes := [];
    var written := 0;
    taken := 0;

    var i := 0;
    while i < |chunks|
      invariant 0 <= i <= |chunks| && taken == i
      invariant hashed == Concat(chunks[..i]) && written == |hashed|
      invariant i == 0 || limits.Allow(written)
      invariant sink.Valid() && sink.t == t && sink.config == c && sink.payload == hashed
      invariant fresh(sink) && (sink.writer != null ==> fresh(sink.writer))
    {
      ConcatGrows(chunks, i);
      hashed := hashed + chunks[i];
      written := written + |chunks[i]|;
      if !limits.Allow(written) {
        Crosses(limits, chunks, i);
        AllowedIsNotRefused(limits, |Concat(chunks[..i])|);
        if limits.maxObjectSize.Some? && written > limits.maxObjectSize.value {
          return Err(TooLarge(limits.maxObjectSize.value)), i;
        }
        return Err(OverQuota(limits.budget.value.used, limits.budget.value.limit)), i;
      }
      sink.Write(chunks[i]);
      i, taken := i + 1, taken + 1;
    }
    assert chunks[..i] == chunks;

    var disk := sink.Finish();
    return Ok(Written(disk, digest(hashed), written)), taken;
  }

  lemma ConcatOfNone(chunks: seq<Bytes>)
    ensures Concat(chunks[..0]) == []
  {
  }

  lemma ConcatGrows(chunks: seq<Bytes>, i: nat)
    requires i < |chunks|
    ensures Concat(chunks[..i + 1]) == Concat(chunks[..i]) + chunks[i]
  {
    assert chunks[..i + 1] == chunks[..i] + [chunks[i]];
    ConcatAppends(chunks[..i], [chunks[i]]);
    assert Concat([chunks[i]]) == chunks[i];
  }

  // A line crossed stays crossed.
  lemma Crosses(limits: Limits, chunks: seq<Bytes>, i: nat)
    requires i < |chunks| && !limits.Allow(|Concat(chunks[..i + 1])|)
    ensures !limits.Allow(|Concat(chunks)|)
    ensures limits.maxObjectSize.Some? && |Concat(chunks[..i + 1])| > limits.maxObjectSize.value ==>
      Refuses(limits, |Concat(chunks[..i + 1])|, TooLarge(limits.maxObjectSize.value))
    ensures !(limits.maxObjectSize.Some? && |Concat(chunks[..i + 1])| > limits.maxObjectSize.value) ==>
      limits.budget.Some? && Refuses(limits, |Concat(chunks[..i + 1])|, OverQuota(limits.budget.value.used, limits.budget.value.limit))
  {
    hide Concat;
    ConcatAppends(chunks[..i + 1], chunks[i + 1..]);
    assert chunks == chunks[..i + 1] + chunks[i + 1..];
  }

  function Agrees(oid: Oid, expected: Option<nat>, w: Written): Result<(), Refusal> {
    if expected.Some? && expected.value != w.bytes then Err(SizeMismatch(expected.value, w.bytes))
    else if w.digest != oid then Err(OidMismatch(oid, w.digest))
    else Ok(())
  }

  method Stage(t: Transforms, c: Config, digest: Bytes -> Oid, limits: Limits, expected: Option<nat>, chunks: seq<Bytes>)
    returns (r: Result<Written, Refusal>)
    requires c.Sound()
    ensures r.Ok? <==>
      && (expected.Some? && limits.maxObjectSize.Some? ==> expected.value <= limits.maxObjectSize.value)
      && (chunks != [] && limits.maxObjectSize.Some? ==> |Concat(chunks)| <= limits.maxObjectSize.value)
      && (chunks != [] && limits.budget.Some? ==>
            Min(limits.budget.value.used + |Concat(chunks)|, U64 - 1) <= limits.budget.value.limit)
      && (expected.Some? ==> expected.value == |Concat(chunks)|)
      && digest(Concat(chunks)) == c.oid
    ensures r.Ok? ==> r.value == Written(Disk(t, c, Concat(chunks)), c.oid, |Concat(chunks)|)
    ensures r.Err? ==> match r.error
      case SizeMismatch(declared, actual) => expected == Some(declared) && actual == |Concat(chunks)| && declared != actual
      case OidMismatch(named, actual) => named == c.oid && actual == digest(Concat(chunks)) && named != actual
      case e =>
        || (expected.Some? && Refuses(limits.(budget := None), expected.value, e))
        || exists n | 0 < n <= |chunks| :: Refuses(limits, |Concat(chunks[..n])|, e)
  {
    hide Disk, Concat;
    if limits.maxObjectSize.Some? && expected.Some? && expected.value > limits.maxObjectSize.value {
      return Err(TooLarge(limits.maxObjectSize.value));
    }
    ghost var taken;
    r, taken := StreamTo(t, c, digest, limits, chunks);
    if r.Ok? {
      match Agrees(c.oid, expected, r.value) {
        case Err(e) => r := Err(e);
        case Ok(_) =>
      }
    }
  }
}
