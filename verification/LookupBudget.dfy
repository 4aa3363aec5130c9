/** How often this server asks the forge anything. */
module LookupBudget {
  import opened Wrappers

  const MAX_U64: nat := 0xFFFF_FFFF_FFFF_FFFF

  // What is left, as of a moment.
  datatype Level = Level(allowance: real, refilledAt: real)

  function Ceil(x: real): (c: int)
    ensures x <= c as real < x + 1.0
  {
    -((-x).Floor)
  }

  function Rate(perMinute: nat): real {
    perMinute as real / 60.0
  }

  // A clock that stands still, or runs back, earns nothing.
  function Refilled(perMinute: nat, l: Level, now: real): real {
    var elapsed := if now > l.refilledAt then now - l.refilledAt else 0.0;
    var full := l.allowance + elapsed * Rate(perMinute);
    if full < perMinute as real then full else perMinute as real
  }

  function Drawn(perMinute: nat, l: Level, now: real): Level {
    var allowance := Refilled(perMinute, l, now);
    Level(if allowance >= 1.0 then allowance - 1.0 else allowance, now)
  }

  // How long a refused caller is told to wait: rounded up, and never no time at all.
  function Wait(perMinute: nat, allowance: real): (seconds: nat)
    ensures seconds >= 1
  {
    if perMinute == 0 then MAX_U64
    else
      var seconds := Ceil((1.0 - allowance) * 60.0 / perMinute as real);
      if seconds < 1 then 1 else if seconds > MAX_U64 then MAX_U64 else seconds
  }

  class Budget {
    const perMinute: Option<nat>
    var allowance: real
    var refilledAt: real

    function Now(): Level
      reads this
    {
      Level(allowance, refilledAt)
    }

    constructor (perMinute: Option<nat>, now: real)
      ensures this.perMinute == perMinute
      ensures Now() == Level(if perMinute.Some? then perMinute.value as real else 0.0, now)
    {
      this.perMinute := perMinute;
      allowance := if perMinute.Some? then perMinute.value as real else 0.0;
      refilledAt := now;
    }

    method Spend(now: real) returns (retryAfter: Option<nat>)
      modifies this
      ensures perMinute.None? ==> retryAfter == None && Now() == old(Now())
      ensures perMinute.Some? ==> Now() == Drawn(perMinute.value, old(Now()), now)
      ensures perMinute.Some? ==> (retryAfter.None? <==> Refilled(perMinute.value, old(Now()), now) >= 1.0)
      ensures retryAfter.Some? ==> retryAfter.value == Wait(perMinute.value, allowance)
    {
      if perMinute.None? {
        return None;
      }
      var capacity := perMinute.value as real;
      var elapsed := if now > refilledAt then now - refilledAt else 0.0;
      allowance := allowance + elapsed * Rate(perMinute.value);
      if allowance > capacity {
        allowance := capacity;
      }
      refilledAt := now;
      if allowance >= 1.0 {
        allowance := allowance - 1.0;
        return None;
      }
      return Some(Wait(perMinute.value, allowance));
    }
  }

  // ----- Runs of spends -----

  // The levels of a run of attempts under a clock that never runs back.
  ghost predicate Run(perMinute: nat, times: seq<real>, levels: seq<Level>) {
    && |levels| == |times| + 1
    && levels[0].allowance <= perMinute as real
    && (forall i | 0 <= i < |times| :: levels[i].refilledAt <= times[i])
    && (forall i | 0 <= i < |times| :: levels[i + 1] == Drawn(perMinute, levels[i], times[i]))
  }

  predicate Affords(perMinute: nat, l: Level, now: real) {
    Refilled(perMinute, l, now) >= 1.0
  }

  function Granted(perMinute: nat, times: seq<real>, levels: seq<Level>, i: nat, j: nat): nat
    requires i <= j <= |times| < |levels|
    decreases j - i
  {
    if i == j then 0
    else Granted(perMinute, times, levels, i, j - 1) + if Affords(perMinute, levels[j - 1], times[j - 1]) then 1 else 0
  }

  lemma {:induction false} NeverOverfull(perMinute: nat, times: seq<real>, levels: seq<Level>, i: nat)
    requires Run(perMinute, times, levels) && i < |levels|
    ensures levels[i].allowance <= perMinute as real
  {
    if i > 0 {
      assert levels[i - 1 + 1] == Drawn(perMinute, levels[i - 1], times[i - 1]);
    }
  }

  // One attempt draws on what there was and what has been earned, and on no more
  // than a full budget.
  lemma DrawnWasThere(perMinute: nat, l: Level, now: real)
    requires l.refilledAt <= now && l.allowance <= perMinute as real
    ensures var granted := if Affords(perMinute, l, now) then 1.0 else 0.0;
      && granted + Drawn(perMinute, l, now).allowance <= l.allowance + (now - l.refilledAt) * Rate(perMinute)
      && granted + Drawn(perMinute, l, now).allowance <= perMinute as real
  {
    hide Rate;
    var r := Rate(perMinute);
    if now == l.refilledAt { assert (now - l.refilledAt) * r == 0.0 && 0.0 * r == 0.0; }
  }

  // What was granted, and what is left, was there or has been earned since.
  lemma {:induction false} GrantedWasEarned(perMinute: nat, times: seq<real>, levels: seq<Level>, i: nat, j: nat)
    requires Run(perMinute, times, levels) && i < j <= |times|
    ensures Granted(perMinute, times, levels, i, j) as real + levels[j].allowance
      <= perMinute as real + (times[j - 1] - times[i]) * Rate(perMinute)
  {
    hide Rate, Refilled, Affords, Drawn;
    var r := Rate(perMinute);
    assert levels[j - 1 + 1] == Drawn(perMinute, levels[j - 1], times[j - 1]);
    NeverOverfull(perMinute, times, levels, j - 1);
    DrawnWasThere(perMinute, levels[j - 1], times[j - 1]);
    if j == i + 1 {
      assert Granted(perMinute, times, levels, i, i) == 0;
      assert (times[i] - times[i]) * r == 0.0;
    } else {
      GrantedWasEarned(perMinute, times, levels, i, j - 1);
      assert levels[j - 2 + 1] == Drawn(perMinute, levels[j - 2], times[j - 2]);
      DrawnNow(perMinute, levels[j - 2], times[j - 2]);
      var a, b := times[j - 2] - times[i], times[j - 1] - times[j - 2];
      Distributes(a, b, r);
      assert a + b == times[j - 1] - times[i] && b == times[j - 1] - levels[j - 1].refilledAt;
    }
  }

  lemma DrawnNow(perMinute: nat, l: Level, now: real)
    ensures Drawn(perMinute, l, now).refilledAt == now
  {
  }

  lemma Distributes(a: real, b: real, r: real)
    ensures a * r + b * r == (a + b) * r
  {
  }

  lemma {:induction false} LevelsAreNotNegative(perMinute: nat, times: seq<real>, levels: seq<Level>, i: nat)
    requires Run(perMinute, times, levels) && i < |levels| && levels[0].allowance >= 0.0
    ensures levels[i].allowance >= 0.0
  {
    if i > 0 {
      LevelsAreNotNegative(perMinute, times, levels, i - 1);
      assert levels[i - 1 + 1] == Drawn(perMinute, levels[i - 1], times[i - 1]);
      NotNegative(perMinute, levels[i - 1], times[i - 1]);
    }
  }

  lemma NotNegative(perMinute: nat, l: Level, now: real)
    requires l.allowance >= 0.0
    ensures Refilled(perMinute, l, now) >= 0.0
  {
    var elapsed := if now > l.refilledAt then now - l.refilledAt else 0.0;
    Product(elapsed, Rate(perMinute));
  }

  lemma Product(a: real, b: real)
    requires a >= 0.0 && b >= 0.0
    ensures a * b >= 0.0
  {
  }

  // In any window of a run, no more is granted than a full budget and what the
  // window earns.
  lemma WindowIsBounded(perMinute: nat, times: seq<real>, levels: seq<Level>, i: nat, j: nat, window: real)
    requires Run(perMinute, times, levels) && i < j <= |times| && levels[0].allowance >= 0.0
    requires times[j - 1] - times[i] <= window
    ensures Granted(perMinute, times, levels, i, j) as real <= perMinute as real + perMinute as real * window / 60.0
  {
    hide Granted, Rate;
    GrantedWasEarned(perMinute, times, levels, i, j);
    LevelsAreNotNegative(perMinute, times, levels, j);
    EarnedInAWindow(perMinute, times[j - 1] - times[i], window);
  }

  lemma EarnedInAWindow(perMinute: nat, t: real, window: real)
    requires t <= window
    ensures t * Rate(perMinute) <= perMinute as real * window / 60.0
  {
    var p, d := perMinute as real, window - t;
    Product(d, p / 60.0);
    Distributes(t, d, p / 60.0);
    assert window * (p / 60.0) == p * window / 60.0 by { Sixtieth(p, window); }
  }

  lemma Sixtieth(p: real, window: real)
    ensures window * (p / 60.0) == p * window / 60.0
  {
  }

  // And a budget is good for what it holds: as many attempts as it has whole lookups
  // left are all let through, however close together.
  lemma {:induction false} WhatIsThereIsGranted(perMinute: nat, times: seq<real>, levels: seq<Level>, n: nat)
    requires Run(perMinute, times, levels) && n <= |times| && n as real <= levels[0].allowance
    ensures Granted(perMinute, times, levels, 0, n) == n && levels[n].allowance >= levels[0].allowance - n as real
  {
    hide Rate;
    if n > 0 {
      WhatIsThereIsGranted(perMinute, times, levels, n - 1);
      assert levels[n - 1 + 1] == Drawn(perMinute, levels[n - 1], times[n - 1]);
      NeverOverfull(perMinute, times, levels, n - 1);
      NothingIsLost(perMinute, levels[n - 1], times[n - 1]);
    }
  }

  lemma NothingIsLost(perMinute: nat, l: Level, now: real)
    requires l.allowance <= perMinute as real
    ensures Refilled(perMinute, l, now) >= l.allowance
  {
    var elapsed := if now > l.refilledAt then now - l.refilledAt else 0.0;
    Product(elapsed, Rate(perMinute));
  }

  // A caller that was refused is let through, nobody else spending, exactly from the
  // moment that enough has been earned again.
  lemma RefusedUntil(perMinute: nat, l: Level, now: real, later: real)
    requires perMinute >= 1 && l.allowance <= perMinute as real && !Affords(perMinute, l, now) && now <= later
    ensures var d := Drawn(perMinute, l, now);
      Affords(perMinute, d, later) <==> later - now >= (1.0 - d.allowance) * 60.0 / perMinute as real
  {
    var d, r, t, p := Drawn(perMinute, l, now), Rate(perMinute), later - now, perMinute as real;
    var need := (1.0 - d.allowance) * 60.0 / p;
    assert need * r == 1.0 - d.allowance by {
      assert need * r == (1.0 - d.allowance) * 60.0 / p * (p / 60.0);
    }
    assert t * r >= need * r <==> t >= need by { Scales(t, need, r); }
    if t <= 0.0 { assert t * r == 0.0; }
  }

  lemma Scales(a: real, b: real, r: real)
    requires r > 0.0
    ensures a * r >= b * r <==> a >= b
  {
  }

  // So waiting as long as one is told is always enough.
  lemma WaitingIsEnough(perMinute: nat, l: Level, now: real, later: real)
    requires perMinute >= 1 && l.allowance <= perMinute as real && l.allowance >= 0.0 && !Affords(perMinute, l, now)
    requires later >= now + Wait(perMinute, Drawn(perMinute, l, now).allowance) as real
    ensures Affords(perMinute, Drawn(perMinute, l, now), later)
  {
    RefusedUntil(perMinute, l, now, later);
    NotNegative(perMinute, l, now);
    var a := Drawn(perMinute, l, now).allowance;
    assert (1.0 - a) * 60.0 / perMinute as real <= 60.0 by { AtMostAMinute(a, perMinute as real); }
  }

  // And a second less would not have been, unless a second is all there is to wait.
  lemma WaitingLessIsNot(perMinute: nat, l: Level, now: real)
    requires perMinute >= 1 && l.allowance <= perMinute as real && l.allowance >= 0.0 && !Affords(perMinute, l, now)
    requires Wait(perMinute, Drawn(perMinute, l, now).allowance) > 1
    ensures var seconds := Wait(perMinute, Drawn(perMinute, l, now).allowance);
      !Affords(perMinute, Drawn(perMinute, l, now), now + (seconds - 1) as real)
  {
    var d := Drawn(perMinute, l, now);
    var seconds := Wait(perMinute, d.allowance);
    RefusedUntil(perMinute, l, now, now + (seconds - 1) as real);
  }

  lemma AtMostAMinute(a: real, p: real)
    requires 0.0 <= a && p >= 1.0
    ensures (1.0 - a) * 60.0 / p <= 60.0
  {
    var x := (1.0 - a) * 60.0;
    if x > 0.0 {
      assert x / p <= x by { assert x == x / p * p; Product(x / p, p - 1.0); }
    }
  }
}
