/** The list of locks, a page at a time. */
module Pages {
  import opened Wrappers
  import opened LockProtocol
  import opened Sorting

  const DEFAULT: nat := 100
  const MAX: nat := 1000

  datatype Page = Page(locks: seq<Lock>, nextCursor: string)

  // ----- The order of ids -----

  predicate Less(a: string, b: string) {
    b != "" && (a == "" || a[0] < b[0] || (a[0] == b[0] && Less(a[1..], b[1..])))
  }

  lemma {:induction false} LessIsTotal(a: string, b: string)
    ensures Less(a, b) || a == b || Less(b, a)
    ensures !(Less(a, b) && Less(b, a)) && !Less(a, a)
  {
    if a != "" && b != "" && a[0] == b[0] {
      LessIsTotal(a[1..], b[1..]);
      assert a == [a[0]] + a[1..] && b == [b[0]] + b[1..];
    }
    if a != "" { LessIsTotal(a[1..], a[1..]); }
  }

  // One id comes before another at the first character in which they differ, or by
  // ending first.
  lemma {:induction false} LessIsAlphabetical(a: string, b: string)
    ensures Less(a, b) <==> exists n | 0 <= n <= |a| && n < |b| ::
      a[..n] == b[..n] && (n == |a| || a[n] < b[n])
  {
    if a != "" && b != "" && a[0] == b[0] {
      LessIsAlphabetical(a[1..], b[1..]);
      if n :| 0 <= n <= |a[1..]| && n < |b[1..]| && a[1..][..n] == b[1..][..n] && (n == |a[1..]| || a[1..][n] < b[1..][n]) {
        assert a[..n + 1] == [a[0]] + a[1..][..n] && b[..n + 1] == [b[0]] + b[1..][..n];
      }
      if n :| 0 <= n <= |a| && n < |b| && a[..n] == b[..n] && (n == |a| || a[n] < b[n]) {
        assert n > 0;
        assert a[1..][..n - 1] == a[..n][1..] && b[1..][..n - 1] == b[..n][1..];
      }
    } else if b != "" {
      assert a[..0] == b[..0];
      forall n | 0 < n <= |a| && n < |b| ensures a[..n] != b[..n] {
        assert a[..n][0] == a[0] && b[..n][0] == b[0];
      }
    }
  }

  lemma {:induction false} LessChains(a: string, b: string, c: string)
    requires Less(a, b) && Less(b, c)
    ensures Less(a, c)
  {
    if a != "" && a[0] == b[0] == c[0] {
      LessChains(a[1..], b[1..], c[1..]);
    }
  }

  function ById(): (Lock, Lock) -> bool {
    (a: Lock, b: Lock) => Less(a.id, b.id)
  }

  // What the library's sort makes of the list.
  function InOrder(locks: seq<Lock>): seq<Lock> {
    Sorted(locks, ById())
  }

  ghost predicate Ascending(locks: seq<Lock>) {
    forall i, j | 0 <= i < j < |locks| :: Less(locks[i].id, locks[j].id)
  }

  // What a store lists: every lock under an id of its own.
  ghost predicate Listed(locks: seq<Lock>) {
    (forall i | 0 <= i < |locks| :: locks[i].id != "") &&
    forall i, j | 0 <= i < j < |locks| :: locks[i].id != locks[j].id
  }

  lemma IdsOrder()
    ensures Orders(ById())
  {
    forall a: Lock, b: Lock ensures !(ById()(a, b) && ById()(b, a)) {
      LessIsTotal(a.id, b.id);
    }
    forall a: Lock, b: Lock, c: Lock | ById()(a, c) ensures ById()(a, b) || ById()(b, c) {
      LessIsTotal(a.id, b.id);
      if Less(b.id, a.id) { LessChains(b.id, a.id, c.id); }
    }
  }

  lemma SortedIsAscending(locks: seq<Lock>)
    requires Listed(locks)
    ensures Ascending(InOrder(locks)) && |InOrder(locks)| == |locks|
    ensures forall x :: x in InOrder(locks) <==> x in locks
  {
    hide Less, Orders;
    var sorted := InOrder(locks);
    IdsOrder();
    SortedKeeps(locks, ById());
    forall i, j | 0 <= i < j < |sorted| ensures Less(sorted[i].id, sorted[j].id) {
      var k := IndexOf(locks, sorted[i]);
      var l := IndexOf(locks, sorted[j]);
      assert !ById()(sorted[j], sorted[i]);
      LessIsTotal(sorted[i].id, sorted[j].id);
    }
  }

  // ----- paginate -----

  function Limit(limit: Option<nat>): (l: nat)
    ensures 1 <= l <= MAX
  {
    match limit
    case None => DEFAULT
    case Some(n) => if n < 1 then 1 else if n > MAX then MAX else n
  }

  // The first lock past the cursor, or the end of the list.
  function From(sorted: seq<Lock>, cursor: Option<string>): (from: nat)
    ensures from <= |sorted|
  {
    match cursor
    case None => 0
    case Some(c) => if sorted == [] || Less(c, sorted[0].id) then 0 else 1 + From(sorted[1..], cursor)
  }

  function PageOf(locks: seq<Lock>, cursor: Option<string>, limit: Option<nat>): Page {
    var rest := InOrder(locks)[From(InOrder(locks), cursor)..];
    if |rest| > Limit(limit) then Page(rest[..Limit(limit)], rest[Limit(limit) - 1].id) else Page(rest, "")
  }

  method Paginate(locks: seq<Lock>, cursor: Option<string>, limit: Option<nat>) returns (page: Page)
    ensures page == PageOf(locks, cursor, limit)
    ensures var most := if limit.None? then 100 else if limit.value == 0 then 1 else if limit.value > 1000 then 1000 else limit.value;
      |page.locks| <= most && (page.nextCursor != "" ==> |page.locks| == most)
  {
    hide Less, InOrder;
    var sorted := InOrder(locks);
    var from := 0;
    if cursor.Some? {
      while from < |sorted| && !Less(cursor.value, sorted[from].id)
        invariant 0 <= from <= |sorted|
        invariant From(sorted, cursor) == from + From(sorted[from..], cursor)
      {
        assert sorted[from..][1..] == sorted[from + 1..];
        from := from + 1;
      }
    }
    ghost var rest := sorted[from..];
    StopsAtTheFirst(sorted, cursor, from);
    var limit := Limit(limit);
    // One more than asked for shows whether there is another page.
    var end := if from + limit + 1 <= |sorted| then from + limit + 1 else |sorted|;
    var taken := sorted[from..end];
    Stretch(sorted, from, end, limit);
    var next := "";
    if |taken| > limit {
      taken := taken[..limit];
      next := taken[|taken| - 1].id;
    }
    page := Page(taken, next);
  }

  lemma StopsAtTheFirst(sorted: seq<Lock>, cursor: Option<string>, from: nat)
    requires from <= |sorted|
    requires if cursor.None? then from == 0
      else From(sorted, cursor) == from + From(sorted[from..], cursor) && (from == |sorted| || Less(cursor.value, sorted[from].id))
    ensures from == From(sorted, cursor)
  {
    hide Less;
    assert from < |sorted| ==> sorted[from..][0] == sorted[from];
  }

  lemma Stretch(sorted: seq<Lock>, from: nat, end: nat, limit: nat)
    requires from <= end <= |sorted|
    ensures sorted[from..end] == sorted[from..][..end - from]
    ensures limit <= end - from ==> sorted[from..end][..limit] == sorted[from..][..limit]
    ensures end == |sorted| ==> sorted[from..end] == sorted[from..]
  {
  }

  lemma {:induction false} FromIsPastTheCursor(sorted: seq<Lock>, c: string)
    requires Ascending(sorted)
    ensures forall i | 0 <= i < |sorted| :: i >= From(sorted, Some(c)) <==> Less(c, sorted[i].id)
  {
    if sorted != [] {
      FromIsPastTheCursor(sorted[1..], c);
      forall i | 0 <= i < |sorted| ensures i >= From(sorted, Some(c)) <==> Less(c, sorted[i].id) {
        if Less(c, sorted[0].id) {
          if i > 0 { LessChains(c, sorted[0].id, sorted[i].id); }
        } else if i > 0 {
          assert sorted[i] == sorted[1..][i - 1];
        }
      }
    }
  }

  // ----- Walking the pages -----

  // A client that asks for page after page, each from wherever the list has got to,
  // following the cursor it was given.
  ghost predicate Walk(lists: seq<seq<Lock>>, limits: seq<Option<nat>>, pages: seq<Page>) {
    && |lists| == |limits| == |pages|
    && (forall i | 0 <= i < |lists| :: Listed(lists[i]))
    && (forall i | 0 <= i < |pages| :: pages[i] == PageOf(lists[i], CursorAt(pages, i), limits[i]))
    && (forall i | 0 <= i < |pages| - 1 :: pages[i].nextCursor != "")
  }

  function CursorAt(pages: seq<Page>, i: nat): Option<string>
    requires i <= |pages|
  {
    if i == 0 then None else Some(pages[i - 1].nextCursor)
  }

  function Seen(pages: seq<Page>): seq<Lock> {
    if pages == [] then [] else Seen(pages[..|pages| - 1]) + pages[|pages| - 1].locks
  }

  predicate Past(cursor: Option<string>, id: string) {
    cursor.Some? ==> Less(cursor.value, id)
  }

  // A page is the next stretch past the cursor; unless it is the last it is not
  // empty, and its cursor is the id it ends with.
  lemma PageIsNext(locks: seq<Lock>, cursor: Option<string>, limit: Option<nat>)
    requires Listed(locks)
    ensures var p := PageOf(locks, cursor, limit);
      && Ascending(p.locks)
      && (forall x | x in p.locks :: x in locks && Past(cursor, x.id))
      && (forall x | x in locks && Past(cursor, x.id) && x !in p.locks :: p.nextCursor != "" && Less(p.nextCursor, x.id))
      && (p.nextCursor != "" ==> p.locks != [] && p.locks[|p.locks| - 1].id == p.nextCursor)
  {
    hide Less, Listed, InOrder, From, Past, Ascending;
    var sorted := InOrder(locks);
    SortedIsAscending(locks);
    RestIsPast(sorted, cursor);
    var rest, l := sorted[From(sorted, cursor)..], Limit(limit);
    if |rest| > l {
      CutIsPage(rest, l);
      assert rest[l - 1] in locks;
      HasAnId(locks, rest[l - 1]);
    }
  }

  lemma HasAnId(locks: seq<Lock>, x: Lock)
    requires Listed(locks) && x in locks
    ensures x.id != ""
  {
  }

  lemma RestIsPast(sorted: seq<Lock>, cursor: Option<string>)
    requires Ascending(sorted)
    ensures Ascending(sorted[From(sorted, cursor)..])
    ensures forall x | x in sorted :: x in sorted[From(sorted, cursor)..] <==> Past(cursor, x.id)
    ensures forall x | x in sorted[From(sorted, cursor)..] :: x in sorted
  {
    hide Less;
    var from := From(sorted, cursor);
    if cursor.Some? { FromIsPastTheCursor(sorted, cursor.value); }
    forall x | x in sorted && Past(cursor, x.id) ensures x in sorted[from..] {
      var i :| 0 <= i < |sorted| && sorted[i] == x;
      assert i >= from;
      assert sorted[from..][i - from] == x;
    }
  }

  lemma CutIsPage(rest: seq<Lock>, l: nat)
    requires Ascending(rest) && 1 <= l < |rest|
    ensures Ascending(rest[..l]) && rest[..l][l - 1].id == rest[l - 1].id
    ensures forall x | x in rest && x !in rest[..l] :: Less(rest[l - 1].id, x.id)
    ensures forall x | x in rest[..l] :: x in rest
  {
  }

  ghost predicate AllBefore(locks: seq<Lock>, cursor: Option<string>) {
    forall x | x in locks :: cursor.Some? && !Less(cursor.value, x.id)
  }

  lemma {:induction false} WalkSoFar(lists: seq<seq<Lock>>, limits: seq<Option<nat>>, pages: seq<Page>, n: nat)
    requires Walk(lists, limits, pages) && n <= |pages|
    ensures Ascending(Seen(pages[..n]))
    ensures n < |pages| || (n > 0 && pages[n - 1].nextCursor != "") ==> AllBefore(Seen(pages[..n]), CursorAt(pages, n))
    ensures forall x | (forall i | 0 <= i < n :: x in lists[i]) && n > 0 ::
      x in Seen(pages[..n]) || (pages[n - 1].nextCursor != "" && Past(CursorAt(pages, n), x.id))
  {
    hide Listed, PageOf;
    if n > 0 {
      WalkSoFar(lists, limits, pages, n - 1);
      assert pages[..n][..n - 1] == pages[..n - 1];
      var before, p, c := Seen(pages[..n - 1]), pages[n - 1], CursorAt(pages, n - 1);
      PageIsNext(lists[n - 1], c, limits[n - 1]);
      Appends(before, p.locks, c);
      if p.nextCursor != "" {
        EndsAt(before, p.locks, c, p.nextCursor);
      }
    }
  }

  lemma Appends(before: seq<Lock>, locks: seq<Lock>, c: Option<string>)
    requires Ascending(before) && Ascending(locks) && AllBefore(before, c) && forall x | x in locks :: Past(c, x.id)
    ensures Ascending(before + locks)
  {
    forall x, y | x in before && y in locks ensures Less(x.id, y.id) {
      LessIsTotal(x.id, c.value);
      if Less(x.id, c.value) { LessChains(x.id, c.value, y.id); }
    }
  }

  lemma EndsAt(before: seq<Lock>, locks: seq<Lock>, c: Option<string>, next: string)
    requires AllBefore(before, c) && Ascending(locks) && locks != [] && locks[|locks| - 1].id == next
    requires forall x | x in locks :: Past(c, x.id)
    ensures AllBefore(before + locks, Some(next))
  {
    var last := locks[|locks| - 1];
    forall x | x in before + locks ensures !Less(next, x.id) {
      LessIsTotal(x.id, next);
      if x in before {
        assert Past(c, last.id);
        LessIsTotal(x.id, c.value);
        if Less(x.id, c.value) { LessChains(x.id, c.value, next); }
      }
    }
  }

  // Ids come in order, so that nothing is returned twice, whatever is taken and
  // released between the pages.
  lemma NothingTwice(lists: seq<seq<Lock>>, limits: seq<Option<nat>>, pages: seq<Page>)
    requires Walk(lists, limits, pages)
    ensures forall i, j | 0 <= i < j < |Seen(pages)| :: Less(Seen(pages)[i].id, Seen(pages)[j].id)
    ensures forall i, j | 0 <= i < j < |Seen(pages)| :: Seen(pages)[i] != Seen(pages)[j]
  {
    hide Walk;
    assert pages[..|pages|] == pages;
    WalkSoFar(lists, limits, pages, |pages|);
    forall i, j | 0 <= i < j < |Seen(pages)| ensures Seen(pages)[i] != Seen(pages)[j] {
      LessIsTotal(Seen(pages)[i].id, Seen(pages)[j].id);
    }
  }

  // And a walk that came to its end has returned every lock that was there all along.
  lemma NothingMissed(lists: seq<seq<Lock>>, limits: seq<Option<nat>>, pages: seq<Page>, x: Lock)
    requires Walk(lists, limits, pages) && pages != [] && pages[|pages| - 1].nextCursor == ""
    requires forall i | 0 <= i < |lists| :: x in lists[i]
    ensures x in Seen(pages)
  {
    hide Listed, PageOf;
    assert pages[..|pages|] == pages;
    WalkSoFar(lists, limits, pages, |pages|);
  }

  // On a list that stands still every walk comes to its end: it has no more pages than
  // there are locks, and one.
  lemma FixedListEnds(locks: seq<Lock>, limits: seq<Option<nat>>, pages: seq<Page>)
    requires Listed(locks) && pages != [] && Walk(seq(|limits|, _ => locks), limits, pages)
    ensures |pages| <= |locks| + 1
  {
    hide Listed, PageOf, Seen, Walk, Less;
    var lists, n := seq(|limits|, _ => locks), |pages| - 1;
    WalkMovesOn(lists, limits, pages, n);
    SeenIsDistinct(lists, limits, pages, n);
    forall x | x in Seen(pages[..n]) ensures x in locks {
      OnlyListed(lists, limits, pages, n, x, locks);
    }
    NoMoreThan(Seen(pages[..n]), locks);
  }

  lemma SeenIsDistinct(lists: seq<seq<Lock>>, limits: seq<Option<nat>>, pages: seq<Page>, n: nat)
    requires Walk(lists, limits, pages) && n <= |pages|
    ensures Distinct(Seen(pages[..n]))
  {
    hide Walk, Less;
    WalkSoFar(lists, limits, pages, n);
    var seen := Seen(pages[..n]);
    forall i, j | 0 <= i < j < |seen| ensures seen[i] != seen[j] {
      LessIsTotal(seen[i].id, seen[j].id);
    }
  }

  // And once it has, its pages are the sorted list, cut up.
  lemma FixedListIsWalked(locks: seq<Lock>, limits: seq<Option<nat>>, pages: seq<Page>)
    requires Listed(locks) && pages != [] && pages[|pages| - 1].nextCursor == ""
    requires Walk(seq(|limits|, _ => locks), limits, pages)
    ensures Seen(pages) == InOrder(locks)
  {
    hide Listed, PageOf, InOrder, Seen, Walk, Less;
    var lists := seq(|limits|, _ => locks);
    SortedIsAscending(locks);
    SeenIsAscending(lists, limits, pages);
    assert pages[..|pages|] == pages;
    forall x ensures x in Seen(pages) <==> x in InOrder(locks) {
      if x in locks { NothingMissed(lists, limits, pages, x); }
      if x in Seen(pages) { OnlyListed(lists, limits, pages, |pages|, x, locks); }
    }
    AscendingIsUnique(Seen(pages), InOrder(locks));
  }

  lemma SeenIsAscending(lists: seq<seq<Lock>>, limits: seq<Option<nat>>, pages: seq<Page>)
    requires Walk(lists, limits, pages)
    ensures Ascending(Seen(pages))
  {
    hide Walk;
    assert pages[..|pages|] == pages;
    WalkSoFar(lists, limits, pages, |pages|);
  }

  lemma {:induction false} OnlyListed(lists: seq<seq<Lock>>, limits: seq<Option<nat>>, pages: seq<Page>, n: nat, x: Lock, locks: seq<Lock>)
    requires Walk(lists, limits, pages) && n <= |pages| && x in Seen(pages[..n])
    requires forall i | 0 <= i < |lists| :: lists[i] == locks
    ensures x in locks
  {
    hide Walk;
    if n > 0 {
      assert pages[..n][..n - 1] == pages[..n - 1];
      if x in pages[n - 1].locks {
        PageIsListed(lists, limits, pages, n - 1, x);
        WalkIsEven(lists, limits, pages);
        assert lists[n - 1] == locks;
      } else {
        OnlyListed(lists, limits, pages, n - 1, x, locks);
      }
    }
  }

  lemma WalkIsEven(lists: seq<seq<Lock>>, limits: seq<Option<nat>>, pages: seq<Page>)
    requires Walk(lists, limits, pages)
    ensures |lists| == |pages|
  {
  }

  lemma PageIsListed(lists: seq<seq<Lock>>, limits: seq<Option<nat>>, pages: seq<Page>, i: nat, x: Lock)
    requires Walk(lists, limits, pages) && i < |pages| && x in pages[i].locks
    ensures |lists| == |pages| && x in lists[i]
  {
    hide Listed, PageOf, Ascending, Past;
    PageIsNext(lists[i], CursorAt(pages, i), limits[i]);
  }

  lemma {:induction false} AscendingIsUnique(a: seq<Lock>, b: seq<Lock>)
    requires Ascending(a) && Ascending(b) && forall x :: x in a <==> x in b
    ensures a == b
  {
    if a == [] {
      if b != [] { NeitherIsEmpty(a, b); }
    } else {
      NeitherIsEmpty(b, a);
      assert a[0] in b && b[0] in a;
      LessIsTotal(a[0].id, b[0].id);
      FirstIsLeast(a, b[0]);
      FirstIsLeast(b, a[0]);
      forall x ensures x in a[1..] <==> x in b[1..] {
        NotAgain(a);
        NotAgain(b);
        assert x in a <==> x == a[0] || x in a[1..];
        assert x in b <==> x == b[0] || x in b[1..];
      }
      AscendingIsUnique(a[1..], b[1..]);
      assert a == [a[0]] + a[1..] && b == [b[0]] + b[1..];
    }
  }

  lemma NeitherIsEmpty(a: seq<Lock>, b: seq<Lock>)
    requires b != [] && forall x :: x in a <==> x in b
    ensures a != []
  {
    assert b[0] in b;
  }

  lemma FirstIsLeast(a: seq<Lock>, x: Lock)
    requires Ascending(a) && x in a
    ensures x == a[0] || Less(a[0].id, x.id)
  {
  }

  lemma NotAgain(a: seq<Lock>)
    requires Ascending(a) && a != []
    ensures a[0] !in a[1..]
  {
    LessIsTotal(a[0].id, a[0].id);
  }

  // Each page but the last moves on by at least one lock.
  lemma {:induction false} WalkMovesOn(lists: seq<seq<Lock>>, limits: seq<Option<nat>>, pages: seq<Page>, n: nat)
    requires Walk(lists, limits, pages) && n < |pages|
    ensures n <= |Seen(pages[..n])|
  {
    hide Walk;
    if n > 0 {
      assert pages[..n][..n - 1] == pages[..n - 1];
      PageIsNotEmpty(lists, limits, pages, n - 1);
      WalkMovesOn(lists, limits, pages, n - 1);
    }
  }

  lemma PageIsNotEmpty(lists: seq<seq<Lock>>, limits: seq<Option<nat>>, pages: seq<Page>, i: nat)
    requires Walk(lists, limits, pages) && i + 1 < |pages|
    ensures pages[i].locks != []
  {
    hide Listed, PageOf, Ascending, Past;
    PageIsNext(lists[i], CursorAt(pages, i), limits[i]);
  }
}
