/** Keyset paging over Skill admission records (page_admissions).

A page holds the matching records below the cursor, newest first, and names its last record
as the next cursor when there are more. Between two pages of a walk the log may gain and
lose records.
*/
module AdmissionPages {
  import opened Wrappers
  import opened VersionOrder

  datatype Record = Record(
    tenant: string, occurredAt: int, id: string, outcome: string, stage: string, policyVersion: string)

  datatype Query = Query(
    tenant: string, outcome: Option<string>, stage: Option<string>, policyVersion: Option<string>,
    since: Option<int>)

  datatype Key = Key(occurredAt: int, id: string)

  /** `next` is the key that the next cursor encodes. */
  datatype Page = Page(records: seq<Record>, next: Option<Key>)

  function KeyOf(r: Record): Key {
    Key(r.occurredAt, r.id)
  }

  predicate Below(a: Key, b: Key) {
    a.occurredAt < b.occurredAt || (a.occurredAt == b.occurredAt && LexLt(CharLt, a.id, b.id))
  }

  predicate Admits<T(==)>(wanted: Option<T>, actual: T) {
    wanted.None? || wanted.value == actual
  }

  predicate Matches(q: Query, r: Record) {
    && r.tenant == q.tenant && Admits(q.outcome, r.outcome) && Admits(q.stage, r.stage)
    && Admits(q.policyVersion, r.policyVersion)
    && (q.since.None? || r.occurredAt >= q.since.value)
  }

  predicate Wanted(q: Query, cursor: Option<Key>, r: Record) {
    Matches(q, r) && (cursor.None? || Below(KeyOf(r), cursor.value))
  }

  function Insert(r: Record, sorted: seq<Record>): seq<Record> {
    if sorted == [] || Below(KeyOf(sorted[0]), KeyOf(r)) then [r] + sorted
    else [sorted[0]] + Insert(r, sorted[1..])
  }

  /** The wanted records, newest first. */
  function Listing(log: seq<Record>, q: Query, cursor: Option<Key>): seq<Record> {
    if log == [] then []
    else
      var rest := Listing(log[1..], q, cursor);
      if Wanted(q, cursor, log[0]) then Insert(log[0], rest) else rest
  }

  function PageOf(log: seq<Record>, q: Query, cursor: Option<Key>, limit: nat): Page {
    var listing := Listing(log, q, cursor);
    if |listing| <= limit then Page(listing, None)
    else if limit == 0 then Page([], None)
    else Page(listing[..limit], Some(KeyOf(listing[limit - 1])))
  }

  // ---------------------------------------------------------------- order

  lemma BelowOrder(a: Key, b: Key, c: Key)
    ensures !Below(a, a)
    ensures Below(a, b) && Below(b, c) ==> Below(a, c)
    ensures Below(a, b) || a == b || Below(b, a)
  {
    hide LexLt;
    assert StrictTotal(CharLt);
    LexIrreflexive(CharLt, a.id);
    LexTotal(CharLt, a.id, b.id);
    if LexLt(CharLt, a.id, b.id) && LexLt(CharLt, b.id, c.id) {
      LexTransitive(CharLt, a.id, b.id, c.id);
    }
  }

  ghost predicate Descending(records: seq<Record>) {
    forall i, j :: 0 <= i < j < |records| ==> Below(KeyOf(records[j]), KeyOf(records[i]))
  }

  ghost predicate UniqueKeys(log: seq<Record>) {
    forall i, j :: 0 <= i < j < |log| ==> KeyOf(log[i]) != KeyOf(log[j])
  }

  lemma {:induction false} InsertHolds(r: Record, sorted: seq<Record>, x: Record)
    ensures x in Insert(r, sorted) <==> x == r || x in sorted
  {
    if sorted != [] && !Below(KeyOf(sorted[0]), KeyOf(r)) {
      InsertHolds(r, sorted[1..], x);
      assert sorted == [sorted[0]] + sorted[1..];
    }
  }

  lemma {:induction false} InsertDescends(r: Record, sorted: seq<Record>)
    requires Descending(sorted) && forall i :: 0 <= i < |sorted| ==> KeyOf(sorted[i]) != KeyOf(r)
    ensures Descending(Insert(r, sorted))
  {
    hide Below;
    if sorted == [] {
    } else if Below(KeyOf(sorted[0]), KeyOf(r)) {
      forall j | 0 <= j < |sorted| ensures Below(KeyOf(sorted[j]), KeyOf(r)) {
        BelowOrder(KeyOf(sorted[j]), KeyOf(sorted[0]), KeyOf(r));
      }
    } else {
      InsertDescends(r, sorted[1..]);
      BelowOrder(KeyOf(sorted[0]), KeyOf(r), KeyOf(r));
      var rest := Insert(r, sorted[1..]);
      forall j | 0 <= j < |rest| ensures Below(KeyOf(rest[j]), KeyOf(sorted[0])) {
        InsertHolds(r, sorted[1..], rest[j]);
      }
    }
  }

  lemma {:induction false} ListingHolds(log: seq<Record>, q: Query, cursor: Option<Key>, x: Record)
    ensures x in Listing(log, q, cursor) <==> x in log && Wanted(q, cursor, x)
  {
    hide Wanted, Insert;
    if log != [] {
      ListingHolds(log[1..], q, cursor, x);
      InsertHolds(log[0], Listing(log[1..], q, cursor), x);
    }
  }

  lemma {:induction false} ListingDescends(log: seq<Record>, q: Query, cursor: Option<Key>)
    requires UniqueKeys(log)
    ensures Descending(Listing(log, q, cursor))
  {
    hide Wanted, Insert, Descending, Below;
    if log == [] {
      NothingDescends();
    } else {
      ListingDescends(log[1..], q, cursor);
      var rest := Listing(log[1..], q, cursor);
      forall i | 0 <= i < |rest| ensures KeyOf(rest[i]) != KeyOf(log[0]) {
        ListingHolds(log[1..], q, cursor, rest[i]);
      }
      InsertDescends(log[0], rest);
    }
  }

  lemma NothingDescends()
    ensures Descending([])
  {
  }

  /** Descending sequences with the same records are the same. */
  lemma {:induction false} DescendingUnique(a: seq<Record>, b: seq<Record>)
    requires Descending(a) && Descending(b) && forall x :: x in a <==> x in b
    ensures a == b
  {
    hide Below;
    if a == [] {
      if b != [] { FirstIsIn(b); }
    } else if b == [] {
      FirstIsIn(a);
    } else {
      FirstIsGreatest(a, b);
      FirstIsGreatest(b, a);
      BelowOrder(KeyOf(a[0]), KeyOf(b[0]), KeyOf(a[0]));
      assert a[0] == b[0];
      forall x ensures x in a[1..] <==> x in b[1..] {
        TailHolds(a, x);
        TailHolds(b, x);
      }
      DescendingUnique(a[1..], b[1..]);
      assert a == [a[0]] + a[1..] && b == [b[0]] + b[1..];
    }
  }

  lemma FirstIsIn(a: seq<Record>)
    requires a != []
    ensures a[0] in a
  {
  }

  lemma FirstIsGreatest(a: seq<Record>, b: seq<Record>)
    requires Descending(b) && a != [] && b != [] && a[0] in b
    ensures a[0] == b[0] || Below(KeyOf(a[0]), KeyOf(b[0]))
  {
  }

  lemma TailHolds(a: seq<Record>, x: Record)
    requires Descending(a) && a != []
    ensures x in a[1..] <==> x in a && x != a[0]
  {
    hide Below;
    BelowOrder(KeyOf(a[0]), KeyOf(a[0]), KeyOf(a[0]));
    if x in a && x != a[0] {
      var i :| 0 <= i < |a| && a[i] == x;
      assert a[1..][i - 1] == x;
    }
  }

  // ---------------------------------------------------------------- walks

  function CursorAfter(pages: seq<Page>): Option<Key> {
    if pages == [] then None else pages[|pages| - 1].next
  }

  /** A walk reads page `i` from `logs[i]`, starting without a cursor and then with the one the
      page before gave. */
  ghost predicate Walk(logs: seq<seq<Record>>, q: Query, limit: nat, pages: seq<Page>) {
    && |pages| == |logs|
    && (pages != [] ==>
          var n := |pages| - 1;
          && Walk(logs[..n], q, limit, pages[..n]) && (n > 0 ==> CursorAfter(pages[..n]).Some?)
          && UniqueKeys(logs[n]) && pages[n] == PageOf(logs[n], q, CursorAfter(pages[..n]), limit))
  }

  function Returned(pages: seq<Page>): seq<Record> {
    if pages == [] then [] else Returned(pages[..|pages| - 1]) + pages[|pages| - 1].records
  }

  lemma LaterThan(a: seq<Record>, n: nat, x: Record) returns (i: nat)
    requires n <= |a| && x in a && x !in a[..n]
    ensures n <= i < |a| && a[i] == x
  {
    assert a == a[..n] + a[n..];
    i :| 0 <= i < |a| - n && a[n..][i] == x;
    i := i + n;
  }

  /** A page is the top of what is below its cursor. */
  lemma PageShape(log: seq<Record>, q: Query, cursor: Option<Key>, limit: nat)
    requires UniqueKeys(log)
    ensures var page := PageOf(log, q, cursor, limit);
            && Descending(page.records) && |page.records| <= limit
            && (forall x :: x in page.records ==> x in log && Wanted(q, cursor, x))
            && (page.next.Some? ==>
                  && page.records != [] && page.next.value == KeyOf(page.records[|page.records| - 1])
                  && forall x :: x in log && Wanted(q, cursor, x) ==>
                       x in page.records || Below(KeyOf(x), page.next.value))
            && (page.next.None? && limit > 0 ==>
                  forall x :: x in log && Wanted(q, cursor, x) ==> x in page.records)
  {
    hide Wanted, Below;
    var listing, page := Listing(log, q, cursor), PageOf(log, q, cursor, limit);
    ListingDescends(log, q, cursor);
    forall x ensures x in listing <==> x in log && Wanted(q, cursor, x) {
      ListingHolds(log, q, cursor, x);
    }
    forall x | x in listing && x !in page.records && page.next.Some? ensures Below(KeyOf(x), page.next.value) {
      var i := LaterThan(listing, limit, x);
    }
  }

  /** No walk returns a record twice, whatever happens to the log in between: what it returns
      descends strictly, and stays above the next cursor. */
  lemma {:induction false} WalkNeverRepeats(logs: seq<seq<Record>>, q: Query, limit: nat, pages: seq<Page>)
    requires Walk(logs, q, limit, pages)
    ensures Descending(Returned(pages))
    ensures CursorAfter(pages).Some? ==> AllAbove(Returned(pages), CursorAfter(pages).value)
  {
    hide PageOf, UniqueKeys, Descending, AllAbove;
    if pages == [] {
      NothingDescends();
    } else {
      var n := |pages| - 1;
      WalkNeverRepeats(logs[..n], q, limit, pages[..n]);
      AppendPage(Returned(pages[..n]), logs[n], q, CursorAfter(pages[..n]), limit);
    }
  }

  ghost predicate AllAbove(records: seq<Record>, cursor: Key) {
    forall x :: x in records ==> KeyOf(x) == cursor || Below(cursor, KeyOf(x))
  }

  lemma AppendPage(before: seq<Record>, log: seq<Record>, q: Query, cursor: Option<Key>, limit: nat)
    requires UniqueKeys(log) && Descending(before)
    requires if cursor.Some? then AllAbove(before, cursor.value) else before == []
    ensures var page := PageOf(log, q, cursor, limit);
            && Descending(before + page.records)
            && (page.next.Some? ==> AllAbove(before + page.records, page.next.value))
  {
    hide Below, Wanted, PageOf, UniqueKeys;
    var page := PageOf(log, q, cursor, limit);
    PageShape(log, q, cursor, limit);
    forall x, y | x in before && y in page.records ensures Below(KeyOf(y), KeyOf(x)) {
      WantedIsBelow(q, cursor, y);
      BelowOrder(KeyOf(y), cursor.value, KeyOf(x));
    }
    if page.next.Some? {
      forall x | x in page.records ensures KeyOf(x) == page.next.value || Below(page.next.value, KeyOf(x)) {
        LastIsLeast(page.records, x);
      }
    }
  }

  lemma LastIsLeast(a: seq<Record>, x: Record)
    requires Descending(a) && x in a
    ensures KeyOf(x) == KeyOf(a[|a| - 1]) || Below(KeyOf(a[|a| - 1]), KeyOf(x))
  {
  }

  lemma WantedIsBelow(q: Query, cursor: Option<Key>, x: Record)
    ensures Wanted(q, cursor, x) <==> Matches(q, x) && (cursor.Some? ==> Below(KeyOf(x), cursor.value))
  {
  }

  /** A matching record that is in every log is returned, or still lies below the next cursor. */
  lemma {:induction false} WalkMissesNothing(
    logs: seq<seq<Record>>, q: Query, limit: nat, pages: seq<Page>, x: Record)
    requires Walk(logs, q, limit, pages) && limit > 0
    requires Matches(q, x) && forall i :: 0 <= i < |logs| ==> x in logs[i]
    ensures x in Returned(pages) || pages == []
      || (CursorAfter(pages).Some? && Below(KeyOf(x), CursorAfter(pages).value))
  {
    hide Below, Matches, PageOf, UniqueKeys, Wanted;
    if pages != [] {
      var n := |pages| - 1;
      WalkMissesNothing(logs[..n], q, limit, pages[..n], x);
      PageShape(logs[n], q, CursorAfter(pages[..n]), limit);
      WantedIsBelow(q, CursorAfter(pages[..n]), x);
    }
  }

  ghost predicate Finished(pages: seq<Page>) {
    pages != [] && CursorAfter(pages).None?
  }

  /** A finished walk has returned every matching record that was present throughout. */
  lemma FinishedWalkIsComplete(logs: seq<seq<Record>>, q: Query, limit: nat, pages: seq<Page>, x: Record)
    requires Walk(logs, q, limit, pages) && Finished(pages) && limit > 0
    requires Matches(q, x) && forall i :: 0 <= i < |logs| ==> x in logs[i]
    ensures x in Returned(pages)
  {
    hide Walk, Matches;
    WalkMissesNothing(logs, q, limit, pages, x);
  }

  lemma {:induction false} ReturnedMatch(logs: seq<seq<Record>>, q: Query, limit: nat, pages: seq<Page>, x: Record)
    requires Walk(logs, q, limit, pages) && x in Returned(pages)
    ensures Matches(q, x) && exists i :: 0 <= i < |logs| && x in logs[i]
  {
    hide Matches, Below, PageOf, UniqueKeys, Wanted;
    var n := |pages| - 1;
    if x in pages[n].records {
      PageShape(logs[n], q, CursorAfter(pages[..n]), limit);
      WantedIsBelow(q, CursorAfter(pages[..n]), x);
    } else {
      ReturnedMatch(logs[..n], q, limit, pages[..n], x);
      var i :| 0 <= i < n && x in logs[..n][i];
      assert x in logs[i];
    }
  }

  /** On a log that does not change, the pages of a finished walk are the full listing. */
  lemma FixedLogPagesConcatenate(log: seq<Record>, logs: seq<seq<Record>>, q: Query, limit: nat, pages: seq<Page>)
    requires Walk(logs, q, limit, pages) && Finished(pages) && limit > 0
    requires UniqueKeys(log) && forall i :: 0 <= i < |logs| ==> logs[i] == log
    ensures Returned(pages) == Listing(log, q, None)
  {
    hide Matches, Below, Walk, UniqueKeys, Descending, Returned, Listing;
    WalkNeverRepeats(logs, q, limit, pages);
    ListingDescends(log, q, None);
    forall x ensures x in Returned(pages) <==> x in Listing(log, q, None) {
      ListingHolds(log, q, None, x);
      WantedIsBelow(q, None, x);
      if x in Returned(pages) { ReturnedMatch(logs, q, limit, pages, x); }
      if x in log && Matches(q, x) { FinishedWalkIsComplete(logs, q, limit, pages, x); }
    }
    DescendingUnique(Returned(pages), Listing(log, q, None));
  }

  // ---------------------------------------------------------------- how long a walk is

  /** What lies below the last record of a page is the rest of the listing. */
  lemma ListingBelow(log: seq<Record>, q: Query, cursor: Option<Key>, k: nat)
    requires UniqueKeys(log) && 0 < k <= |Listing(log, q, cursor)|
    ensures var listing := Listing(log, q, cursor);
            Listing(log, q, Some(KeyOf(listing[k - 1]))) == listing[k..]
  {
    hide Below, Matches, Listing, UniqueKeys;
    var listing := Listing(log, q, cursor);
    var last := KeyOf(listing[k - 1]);
    ListingDescends(log, q, cursor);
    ListingDescends(log, q, Some(last));
    ListingHolds(log, q, cursor, listing[k - 1]);
    WantedIsBelow(q, cursor, listing[k - 1]);
    forall x ensures x in Listing(log, q, Some(last)) <==> x in listing[k..] {
      ListingHolds(log, q, cursor, x);
      ListingHolds(log, q, Some(last), x);
      WantedIsBelow(q, cursor, x);
      WantedIsBelow(q, Some(last), x);
      if cursor.Some? {
        BelowOrder(KeyOf(x), last, cursor.value);
      }
      RestIsBelow(listing, k, x);
    }
    DescendingUnique(Listing(log, q, Some(last)), listing[k..]);
  }

  lemma RestIsBelow(listing: seq<Record>, k: nat, x: Record)
    requires Descending(listing) && 0 < k <= |listing|
    ensures x in listing[k..] <==> x in listing && Below(KeyOf(x), KeyOf(listing[k - 1]))
  {
    hide Below;
    if x in listing && Below(KeyOf(x), KeyOf(listing[k - 1])) {
      var i :| 0 <= i < |listing| && listing[i] == x;
      BelowOrder(KeyOf(x), KeyOf(listing[k - 1]), KeyOf(x));
      assert i >= k;
      assert listing[k..][i - k] == x;
    }
  }

  /** On a log that does not change, a walk with a next cursor has returned that many full pages
      and goes on with the rest of the listing. */
  lemma {:induction false} FixedLogProgress(
    log: seq<Record>, logs: seq<seq<Record>>, q: Query, limit: nat, pages: seq<Page>)
    requires Walk(logs, q, limit, pages) && limit > 0
    requires UniqueKeys(log) && forall i :: 0 <= i < |logs| ==> logs[i] == log
    requires pages == [] || CursorAfter(pages).Some?
    ensures var listing, done := Listing(log, q, None), |pages| * limit;
            && (pages != [] ==> done < |listing|)
            && done <= |listing| && Listing(log, q, CursorAfter(pages)) == listing[done..]
  {
    hide Listing, UniqueKeys, PageOf;
    if pages != [] {
      var n := |pages| - 1;
      FixedLogProgress(log, logs[..n], q, limit, pages[..n]);
      PageProgress(log, q, CursorAfter(pages[..n]), limit, Listing(log, q, None), n * limit);
      OneMorePage(n, limit);
    }
  }

  lemma PageProgress(log: seq<Record>, q: Query, cursor: Option<Key>, limit: nat, listing: seq<Record>, done: nat)
    requires UniqueKeys(log) && limit > 0
    requires done <= |listing| && Listing(log, q, cursor) == listing[done..]
    ensures var next := PageOf(log, q, cursor, limit).next;
            if next.None? then |listing| <= done + limit
            else done + limit < |listing| && Listing(log, q, next) == listing[done + limit..]
  {
    hide Listing, UniqueKeys;
    if limit < |listing| - done {
      ListingBelow(log, q, cursor, limit);
      assert listing[done..][limit..] == listing[done + limit..];
    }
  }

  lemma OneMorePage(n: nat, limit: nat)
    ensures (n + 1) * limit == n * limit + limit
  {
  }

  /** Every finished walk on a fixed log has as many pages as it takes to list everything, and
      one page when there is nothing. */
  lemma FinishedWalkLength(log: seq<Record>, logs: seq<seq<Record>>, q: Query, limit: nat, pages: seq<Page>)
    requires Walk(logs, q, limit, pages) && Finished(pages) && limit > 0
    requires UniqueKeys(log) && forall i :: 0 <= i < |logs| ==> logs[i] == log
    ensures |Listing(log, q, None)| <= |pages| * limit
    ensures |pages| == 1 || (|pages| - 1) * limit < |Listing(log, q, None)|
  {
    hide Listing, UniqueKeys, PageOf;
    var n := |pages| - 1;
    FixedLogProgress(log, logs[..n], q, limit, pages[..n]);
    PageProgress(log, q, CursorAfter(pages[..n]), limit, Listing(log, q, None), n * limit);
    OneMorePage(n, limit);
  }

  /** On a fixed log every walk that has a next cursor can be finished. */
  lemma {:induction false} WalkCanFinish(
    log: seq<Record>, logs: seq<seq<Record>>, q: Query, limit: nat, pages: seq<Page>)
    returns (logs': seq<seq<Record>>, pages': seq<Page>)
    requires Walk(logs, q, limit, pages) && limit > 0
    requires UniqueKeys(log) && forall i :: 0 <= i < |logs| ==> logs[i] == log
    requires pages == [] || CursorAfter(pages).Some?
    ensures Walk(logs', q, limit, pages') && Finished(pages') && pages <= pages'
    ensures forall i :: 0 <= i < |logs'| ==> logs'[i] == log
    decreases |Listing(log, q, CursorAfter(pages))|
  {
    hide Listing, UniqueKeys;
    var page := PageOf(log, q, CursorAfter(pages), limit);
    logs', pages' := logs + [log], pages + [page];
    assert logs'[..|logs|] == logs && pages'[..|pages|] == pages;
    if page.next.Some? {
      ListingBelow(log, q, CursorAfter(pages), limit);
      logs', pages' := WalkCanFinish(log, logs', q, limit, pages');
    }
  }

  /** With a limit of zero the walk ends at once and returns nothing, whatever matches. */
  lemma ZeroLimitReturnsNothing(log: seq<Record>, q: Query, cursor: Option<Key>)
    ensures PageOf(log, q, cursor, 0) == Page([], None)
  {
  }

  /** The listing holds exactly the records of the tenant that have the asked outcome, stage and
      policy version, are not older than asked, and lie below the cursor. */
  lemma ListingIff(log: seq<Record>, q: Query, cursor: Option<Key>, x: Record)
    ensures x in Listing(log, q, cursor) <==>
      && x in log && x.tenant == q.tenant
      && (q.outcome.Some? ==> x.outcome == q.outcome.value)
      && (q.stage.Some? ==> x.stage == q.stage.value)
      && (q.policyVersion.Some? ==> x.policyVersion == q.policyVersion.value)
      && (q.since.Some? ==> q.since.value <= x.occurredAt)
      && (cursor.Some? ==>
            || x.occurredAt < cursor.value.occurredAt
            || (x.occurredAt == cursor.value.occurredAt && LexLt(CharLt, x.id, cursor.value.id)))
  {
    hide Listing;
    ListingHolds(log, q, cursor, x);
  }
}
