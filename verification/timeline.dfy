/** The audit timeline: three append-only tables read page by page behind one
    keyset cursor, as a fast form of "sort everything, then slice". */
module AuditTimeline {
  import opened Common

  datatype Source = AUDIT | KNOWLEDGE | SECURITY

  /** A row by what orders it. An id is the place of the row's UUID in id order.
      A cursor carries the same three things. */
  datatype Row = Row(time: int, source: Source, id: int)

  datatype Tables = Tables(audit: seq<Row>, knowledge: seq<Row>, security: seq<Row>)

  datatype SourceFilter = ALL | ONLY(source: Source)

  /** `matches` is the row filter on action, actor, result and dates;
      `securityAction` says whether the action filter can name a security event. */
  datatype Query = Query(filter: SourceFilter, matches: Row -> bool, securityAction: bool, pageSize: nat)

  datatype Page = Page(items: seq<Row>, total: nat, nextCursor: Option<Row>)

  /** The security predicate as the code has it, and with a KNOWLEDGE cursor
      treated like an AUDIT one. */
  datatype Variant = AsWritten | Corrected

  function Rank(s: Source): int {
    match s case AUDIT => 0 case KNOWLEDGE => 1 case SECURITY => 2
  }

  /** Newest first; at equal times by global id, descending, and the source name
      is the front of the global id. */
  predicate Before(a: Row, b: Row) {
    a.time > b.time || (a.time == b.time &&
      (Rank(a.source) > Rank(b.source) || (a.source == b.source && a.id > b.id)))
  }

  // ------------------------------------------------------------ the request

  predicate AuditCursorWhere(c: Row, r: Row) {
    r.time < c.time || (if c.source.AUDIT? then r.time == c.time && r.id < c.id else r.time == c.time)
  }

  predicate SecurityCursorWhere(v: Variant, c: Row, r: Row) {
    if c.source.AUDIT? || (v.Corrected? && c.source.KNOWLEDGE?) then r.time < c.time
    else r.time < c.time || (r.time == c.time && r.id < c.id)
  }

  predicate KnowledgeCursorWhere(c: Row, r: Row) {
    if c.source.AUDIT? then r.time < c.time
    else if c.source.SECURITY? then r.time < c.time || r.time == c.time
    else r.time < c.time || (r.time == c.time && r.id < c.id)
  }

  predicate CursorWhere(v: Variant, c: Row, r: Row) {
    match r.source
    case AUDIT => AuditCursorWhere(c, r)
    case SECURITY => SecurityCursorWhere(v, c, r)
    case KNOWLEDGE => KnowledgeCursorWhere(c, r)
  }

  predicate Included(q: Query, s: Source) {
    (q.filter.ALL? || q.filter.source == s) && (s.SECURITY? ==> q.securityAction)
  }

  function Filter(rows: seq<Row>, keep: Row -> bool): seq<Row> {
    if rows == [] then []
    else (if keep(rows[0]) then [rows[0]] else []) + Filter(rows[1..], keep)
  }

  function InsertDesc(r: Row, rows: seq<Row>): seq<Row> {
    if rows == [] || Before(r, rows[0]) then [r] + rows else [rows[0]] + InsertDesc(r, rows[1..])
  }

  function SortDesc(rows: seq<Row>): seq<Row> {
    if rows == [] then [] else InsertDesc(rows[|rows| - 1], SortDesc(rows[..|rows| - 1]))
  }

  function Take(rows: seq<Row>, n: nat): seq<Row> {
    if |rows| <= n then rows else rows[..n]
  }

  function Table(t: Tables, s: Source): seq<Row> {
    match s case AUDIT => t.audit case SECURITY => t.security case KNOWLEDGE => t.knowledge
  }

  /** One table's rows that satisfy its predicates. */
  function Matching(v: Variant, t: Tables, q: Query, cursor: Option<Row>, s: Source): seq<Row> {
    Filter(Table(t, s), Where(v, q, cursor, s))
  }

  /** One table's share of a page: newest first, cut. */
  function FindMany(v: Variant, t: Tables, q: Query, cursor: Option<Row>, s: Source, take: nat): seq<Row> {
    Take(SortDesc(Matching(v, t, q, cursor, s)), take)
  }

  function Where(v: Variant, q: Query, cursor: Option<Row>, s: Source): Row -> bool {
    r => Included(q, s) && q.matches(r) && (cursor.Some? ==> CursorWhere(v, cursor.value, r))
  }

  function Total(v: Variant, t: Tables, q: Query): nat {
    |Matching(v, t, q, None, AUDIT)| + |Matching(v, t, q, None, SECURITY)| + |Matching(v, t, q, None, KNOWLEDGE)|
  }

  /** The candidates of one page: each table's share, merged and sorted. */
  function Merged(v: Variant, t: Tables, q: Query, cursor: Option<Row>): seq<Row> {
    var limit := q.pageSize + 1;
    SortDesc(FindMany(v, t, q, cursor, AUDIT, limit) + FindMany(v, t, q, cursor, SECURITY, limit)
      + FindMany(v, t, q, cursor, KNOWLEDGE, limit))
  }

  /** The service call. */
  function List(v: Variant, t: Tables, q: Query, cursor: Option<Row>): Page {
    var merged := Merged(v, t, q, cursor);
    var items := Take(merged, q.pageSize);
    var next := if |merged| > q.pageSize && |items| > 0 then Some(items[|items| - 1]) else None;
    Page(items, Total(v, t, q), next)
  }

  // ---------------------------------------------------------- the reference

  ghost predicate Distinct(rows: seq<Row>) {
    forall i, j :: 0 <= i < j < |rows| ==> rows[i] != rows[j]
  }

  /** Every table holds its own source's rows, each once. */
  ghost predicate Valid(t: Tables) {
    && Distinct(t.audit) && Distinct(t.knowledge) && Distinct(t.security)
    && (forall r :: r in t.audit ==> r.source.AUDIT?)
    && (forall r :: r in t.knowledge ==> r.source.KNOWLEDGE?)
    && (forall r :: r in t.security ==> r.source.SECURITY?)
  }

  /** Everything selected after a cursor, in one list, sorted. */
  function Selected(v: Variant, t: Tables, q: Query, cursor: Option<Row>): seq<Row> {
    SortDesc(AllMatching(v, t, q, cursor))
  }

  function AllMatching(v: Variant, t: Tables, q: Query, cursor: Option<Row>): seq<Row> {
    Matching(v, t, q, cursor, AUDIT) + Matching(v, t, q, cursor, SECURITY) + Matching(v, t, q, cursor, KNOWLEDGE)
  }

  /** The whole matching history, in the global order. */
  function History(t: Tables, q: Query): seq<Row> {
    Selected(AsWritten, t, q, None)
  }

  ghost predicate Sorted(rows: seq<Row>) {
    forall i, j :: 0 <= i < j < |rows| ==> Before(rows[i], rows[j])
  }

  // ------------------------------------------------- filtering and sorting

  lemma {:induction false} FilterElements(rows: seq<Row>, keep: Row -> bool)
    ensures forall r :: r in Filter(rows, keep) <==> r in rows && keep(r)
    ensures Distinct(rows) ==> Distinct(Filter(rows, keep))
  {
    if rows != [] {
      FilterElements(rows[1..], keep);
      assert rows == [rows[0]] + rows[1..];
      if Distinct(rows) {
        assert Distinct(rows[1..]);
        assert rows[0] !in rows[1..];
      }
    }
  }

  lemma {:induction false} InsertElements(r: Row, rows: seq<Row>)
    ensures |InsertDesc(r, rows)| == |rows| + 1
    ensures forall x :: x in InsertDesc(r, rows) <==> x == r || x in rows
  {
    if rows != [] && !Before(r, rows[0]) {
      InsertElements(r, rows[1..]);
      assert rows == [rows[0]] + rows[1..];
    }
  }

  lemma {:induction false} InsertSorts(r: Row, rows: seq<Row>)
    requires Sorted(rows) && r !in rows
    ensures Sorted(InsertDesc(r, rows))
  {
    if rows != [] && !Before(r, rows[0]) {
      InsertSorts(r, rows[1..]);
      InsertElements(r, rows[1..]);
      var rest := InsertDesc(r, rows[1..]);
      forall j | 0 <= j < |rest| ensures Before(rows[0], rest[j]) {
        assert rest[j] in rest;
      }
    }
  }

  lemma {:induction false} SortElements(rows: seq<Row>)
    ensures |SortDesc(rows)| == |rows|
    ensures forall r :: r in SortDesc(rows) <==> r in rows
    ensures Distinct(rows) ==> Sorted(SortDesc(rows))
  {
    if rows != [] {
      var front, last := rows[..|rows| - 1], rows[|rows| - 1];
      SortElements(front);
      InsertElements(last, SortDesc(front));
      assert rows == front + [last];
      if Distinct(rows) { InsertSorts(last, SortDesc(front)); }
    }
  }

  lemma SameHead(a: seq<Row>, b: seq<Row>)
    requires Sorted(a) && Sorted(b) && a != [] && a[0] in b
    requires forall r :: r in b ==> r in a
    ensures b[0] == a[0]
    ensures forall r :: r in b[1..] ==> r in a[1..]
    ensures forall r :: r in a[1..] && r in b ==> r in b[1..]
    ensures Sorted(a[1..]) && Sorted(b[1..])
  {
    assert b[0] in a;
    assert a == [a[0]] + a[1..] && b == [b[0]] + b[1..];
    assert a[0] !in a[1..] && b[0] !in b[1..];
    forall r | r in b[1..] ensures r in a[1..] { assert r in b; }
  }

  /** `a` and `b` agree on their first n rows when both are sorted, b has no rows
      of its own, and a's first n rows are all in b. */
  lemma {:induction false} SamePrefix(a: seq<Row>, b: seq<Row>, n: nat)
    requires Sorted(a) && Sorted(b)
    requires forall r :: r in b ==> r in a
    requires forall i :: 0 <= i < n && i < |a| ==> a[i] in b
    ensures Take(a, n) == Take(b, n)
  {
    if a == [] {
      SomeElement(b);
    } else if n > 0 {
      hide Sorted;
      assert a[0] in b;
      SameHead(a, b);
      forall i | 0 <= i < n - 1 && i < |a[1..]| ensures a[1..][i] in b[1..] {
        assert a[i + 1] in b && a[1..][i] in a[1..];
      }
      SamePrefix(a[1..], b[1..], n - 1);
      TakeCons(a, n);
      TakeCons(b, n);
    }
  }

  lemma SomeElement(b: seq<Row>)
    ensures b == [] || exists r :: r in b
  {
    if b != [] { assert b[0] in b; }
  }

  lemma TakeCons(a: seq<Row>, n: nat)
    requires a != [] && n > 0
    ensures Take(a, n) == [a[0]] + Take(a[1..], n - 1)
  {
  }

  lemma SortedUnique(a: seq<Row>, b: seq<Row>)
    requires Sorted(a) && Sorted(b) && forall r :: r in a <==> r in b
    ensures a == b
  {
    SamePrefix(a, b, |a| + |b|);
  }

  /** A row is no further down in its own table than in the whole. */
  lemma {:induction false} OwnIndex(own: seq<Row>, all: seq<Row>, j: nat, k: nat)
    requires Sorted(own) && Sorted(all) && forall r :: r in own ==> r in all
    requires j < |own| && k < |all| && own[j] == all[k]
    ensures j <= k
  {
    if j > 0 {
      assert own[j - 1] in all;
      var i :| 0 <= i < |all| && all[i] == own[j - 1];
      assert Before(all[i], all[k]);
      assert i < k;
      OwnIndex(own, all, j - 1, i);
    }
  }

  /** Cutting each of three sorted tables at n loses nothing of the first n rows
      of the whole. */
  lemma CutAndMerge(a: seq<Row>, b: seq<Row>, c: seq<Row>, n: nat)
    requires Distinct(a + b + c)
    ensures Take(SortDesc(Take(SortDesc(a), n) + Take(SortDesc(b), n) + Take(SortDesc(c), n)), n)
         == Take(SortDesc(a + b + c), n)
  {
    var all, cut := SortDesc(a + b + c), Take(SortDesc(a), n) + Take(SortDesc(b), n) + Take(SortDesc(c), n);
    SortElements(a + b + c);
    SortElements(cut);
    DistinctParts(a, b, c);
    SortElements(a);
    SortElements(b);
    SortElements(c);
    forall k | 0 <= k < n && k < |all| ensures all[k] in cut {
      FoundInCut(a, all, k, n);
      FoundInCut(b, all, k, n);
      FoundInCut(c, all, k, n);
      assert all[k] in a + b + c;
    }
    CutDistinct(a, b, c, n);
    SamePrefix(all, SortDesc(cut), n);
  }

  lemma DistinctParts(a: seq<Row>, b: seq<Row>, c: seq<Row>)
    requires Distinct(a + b + c)
    ensures Distinct(a) && Distinct(b) && Distinct(c)
    ensures forall r :: !(r in a && r in b) && !(r in a && r in c) && !(r in b && r in c)
  {
    var s := a + b + c;
    assert forall i :: 0 <= i < |a| ==> s[i] == a[i];
    assert forall i :: 0 <= i < |b| ==> s[|a| + i] == b[i];
    assert forall i :: 0 <= i < |c| ==> s[|a| + |b| + i] == c[i];
  }

  lemma FoundInCut(part: seq<Row>, all: seq<Row>, k: nat, n: nat)
    requires Distinct(part) && Sorted(all) && forall r :: r in part ==> r in all
    requires k < |all| && k < n
    ensures all[k] in part ==> all[k] in Take(SortDesc(part), n)
  {
    SortElements(part);
    if all[k] in part {
      var own := SortDesc(part);
      var j :| 0 <= j < |own| && own[j] == all[k];
      OwnIndex(own, all, j, k);
    }
  }

  lemma DistinctConcat(a: seq<Row>, b: seq<Row>)
    requires Distinct(a) && Distinct(b) && forall r :: !(r in a && r in b)
    ensures Distinct(a + b)
  {
    forall i, j | 0 <= i < j < |a + b| ensures (a + b)[i] != (a + b)[j] {
      if i < |a| <= j { assert a[i] in a && b[j - |a|] in b; }
    }
  }

  lemma CutElements(part: seq<Row>, n: nat)
    requires Distinct(part)
    ensures Distinct(Take(SortDesc(part), n)) && forall r :: r in Take(SortDesc(part), n) ==> r in part
  {
    SortElements(part);
  }

  lemma CutDistinct(a: seq<Row>, b: seq<Row>, c: seq<Row>, n: nat)
    requires Distinct(a + b + c)
    ensures var cut := Take(SortDesc(a), n) + Take(SortDesc(b), n) + Take(SortDesc(c), n);
      Distinct(cut) && forall r :: r in cut ==> r in a + b + c
  {
    DistinctParts(a, b, c);
    CutElements(a, n);
    CutElements(b, n);
    CutElements(c, n);
    hide Distinct, Take, SortDesc;
    DistinctConcat(Take(SortDesc(a), n), Take(SortDesc(b), n));
    DistinctConcat(Take(SortDesc(a), n) + Take(SortDesc(b), n), Take(SortDesc(c), n));
  }

  // --------------------------------------------------------- one exact page

  lemma MatchingElements(v: Variant, t: Tables, q: Query, cursor: Option<Row>, s: Source)
    requires Valid(t)
    ensures Distinct(Matching(v, t, q, cursor, s))
    ensures forall r :: r in Matching(v, t, q, cursor, s) <==>
      r in Table(t, s) && Included(q, s) && q.matches(r) && (cursor.Some? ==> CursorWhere(v, cursor.value, r))
    ensures forall r :: r in Matching(v, t, q, cursor, s) ==> r.source == s
  {
    FilterElements(Table(t, s), Where(v, q, cursor, s));
  }

  lemma RowsDistinct(v: Variant, t: Tables, q: Query, cursor: Option<Row>)
    requires Valid(t)
    ensures Distinct(AllMatching(v, t, q, cursor))
  {
    MatchingElements(v, t, q, cursor, AUDIT);
    MatchingElements(v, t, q, cursor, SECURITY);
    MatchingElements(v, t, q, cursor, KNOWLEDGE);
    hide Distinct, Matching, Valid, CursorWhere;
    DistinctConcat(Matching(v, t, q, cursor, AUDIT), Matching(v, t, q, cursor, SECURITY));
    DistinctConcat(Matching(v, t, q, cursor, AUDIT) + Matching(v, t, q, cursor, SECURITY),
                   Matching(v, t, q, cursor, KNOWLEDGE));
  }

  /** Which rows a request is to select: those of its tables that its filters name
      and that come after its cursor, or are stray to it. */
  ghost predicate IsSelected(v: Variant, t: Tables, q: Query, cursor: Option<Row>, r: Row) {
    && r in Table(t, r.source) && q.matches(r)
    && (q.filter.ALL? || q.filter.source == r.source) && (r.source.SECURITY? ==> q.securityAction)
    && (cursor.Some? ==> Before(cursor.value, r) || (v.AsWritten? && Stray(cursor.value, r)))
  }

  /** Where a KNOWLEDGE cursor misleads the security predicate: a security row of
      the same time with a smaller id sorts before the cursor, and is selected
      again. */
  predicate Stray(c: Row, r: Row) {
    c.source.KNOWLEDGE? && r.source.SECURITY? && r.time == c.time && r.id < c.id
  }

  /** The three predicates say "after the cursor", with that one exception. */
  lemma CursorMeaning(v: Variant, c: Row, r: Row)
    ensures CursorWhere(v, c, r) <==> Before(c, r) || (v.AsWritten? && Stray(c, r))
  {
  }

  lemma InAllMatching(v: Variant, t: Tables, q: Query, cursor: Option<Row>, r: Row)
    requires Valid(t)
    ensures r in AllMatching(v, t, q, cursor) <==> r in Matching(v, t, q, cursor, r.source)
  {
    MatchingElements(v, t, q, cursor, AUDIT);
    MatchingElements(v, t, q, cursor, SECURITY);
    MatchingElements(v, t, q, cursor, KNOWLEDGE);
    hide Matching, Valid, CursorWhere, Distinct, Table, Included;
  }

  lemma OneSelected(v: Variant, t: Tables, q: Query, cursor: Option<Row>, r: Row)
    requires Valid(t)
    ensures r in Selected(v, t, q, cursor) <==> IsSelected(v, t, q, cursor, r)
  {
    hide SortDesc, AllMatching, Matching, Valid, CursorWhere, Distinct, Sorted, Table, Stray, Before;
    SortElements(AllMatching(v, t, q, cursor));
    InAllMatching(v, t, q, cursor, r);
    MatchingElements(v, t, q, cursor, r.source);
    if cursor.Some? { CursorMeaning(v, cursor.value, r); }
  }

  lemma SelectedElements(v: Variant, t: Tables, q: Query, cursor: Option<Row>)
    requires Valid(t)
    ensures Sorted(Selected(v, t, q, cursor))
    ensures forall r :: r in Selected(v, t, q, cursor) <==> IsSelected(v, t, q, cursor, r)
  {
    hide SortDesc, AllMatching, Valid, Distinct, Sorted, IsSelected;
    RowsDistinct(v, t, q, cursor);
    SortElements(AllMatching(v, t, q, cursor));
    forall r ensures r in Selected(v, t, q, cursor) <==> IsSelected(v, t, q, cursor, r) {
      OneSelected(v, t, q, cursor, r);
    }
  }

  /** The history is every matching row of every table the filters name. */
  lemma HistoryMeans(t: Tables, q: Query, r: Row)
    requires Valid(t)
    ensures r in History(t, q) <==>
      && r in Table(t, r.source) && q.matches(r)
      && (q.filter.ALL? || q.filter.source == r.source) && (r.source.SECURITY? ==> q.securityAction)
  {
    hide Selected, Table, Valid;
    OneSelected(AsWritten, t, q, None, r);
  }

  /** One page is exact: the three cut queries, merged, sorted and sliced, give
      the first pageSize rows of everything the predicates select, the next
      cursor is null exactly when nothing more is selected, and otherwise names
      the page's last row. */
  lemma PageIsExact(v: Variant, t: Tables, q: Query, cursor: Option<Row>)
    requires Valid(t) && q.pageSize >= 1
    ensures var page, all := List(v, t, q, cursor), Selected(v, t, q, cursor);
      && page.items == Take(all, q.pageSize)
      && (page.nextCursor.None? <==> |all| <= q.pageSize)
      && (page.nextCursor.Some? ==> page.nextCursor == Some(all[q.pageSize - 1]))
      && page.total == |Selected(v, t, q, None)|
  {
    hide Selected, Merged, Total, Valid;
    CutLosesNothing(v, t, q, cursor);
    TotalIsSelected(v, t, q);
    SlicesAgree(Merged(v, t, q, cursor), Selected(v, t, q, cursor), q.pageSize);
  }

  /** What that says of the page alone: its items are in order, at most pageSize, each
      of them to be selected, and a row that is to be selected but not on the page
      comes after a full page of them. */
  lemma PageMeans(v: Variant, t: Tables, q: Query, cursor: Option<Row>)
    requires Valid(t) && q.pageSize >= 1
    ensures var page := List(v, t, q, cursor);
      && Sorted(page.items) && |page.items| <= q.pageSize
      && (forall r :: r in page.items ==> IsSelected(v, t, q, cursor, r))
      && (forall r :: IsSelected(v, t, q, cursor, r) && r !in page.items ==>
            |page.items| == q.pageSize && page.nextCursor.Some? && Before(page.items[q.pageSize - 1], r))
  {
    hide Selected, List, Valid, IsSelected;
    PageIsExact(v, t, q, cursor);
    SelectedElements(v, t, q, cursor);
  }

  lemma TotalIsSelected(v: Variant, t: Tables, q: Query)
    ensures Total(v, t, q) == |Selected(v, t, q, None)|
  {
    hide Matching, SortDesc;
    SortElements(AllMatching(v, t, q, None));
  }

  lemma CutLosesNothing(v: Variant, t: Tables, q: Query, cursor: Option<Row>)
    requires Valid(t)
    ensures Take(Merged(v, t, q, cursor), q.pageSize + 1) == Take(Selected(v, t, q, cursor), q.pageSize + 1)
  {
    hide SortDesc, Take, Distinct, Matching, Valid;
    RowsDistinct(v, t, q, cursor);
    CutAndMerge(Matching(v, t, q, cursor, AUDIT), Matching(v, t, q, cursor, SECURITY),
                Matching(v, t, q, cursor, KNOWLEDGE), q.pageSize + 1);
  }

  lemma SlicesAgree(merged: seq<Row>, all: seq<Row>, n: nat)
    requires Take(merged, n + 1) == Take(all, n + 1)
    ensures Take(merged, n) == Take(all, n) && (|merged| > n <==> |all| > n)
  {
    var m, a := Take(merged, n + 1), Take(all, n + 1);
    assert Take(m, n) == Take(merged, n) && Take(a, n) == Take(all, n);
  }

  // ------------------------------------------------------------ whole runs

  /** Requests made one after the other, each with the cursor of the page before,
      until a page carries none or the requests run out. */
  function Follow(v: Variant, t: Tables, q: Query, cursor: Option<Row>, requests: nat): seq<Page>
    decreases requests
  {
    if requests == 0 then []
    else
      var page := List(v, t, q, cursor);
      [page] + (if page.nextCursor.None? then [] else Follow(v, t, q, page.nextCursor, requests - 1))
  }

  function ItemsOf(pages: seq<Page>): seq<Row> {
    if pages == [] then [] else pages[0].items + ItemsOf(pages[1..])
  }

  predicate Ended(pages: seq<Page>) {
    pages != [] && pages[|pages| - 1].nextCursor.None?
  }

  /** The cursor after the first `i` rows of the history. */
  function CursorAt(h: seq<Row>, i: nat): Option<Row>
    requires i <= |h|
  {
    if i == 0 then None else Some(h[i - 1])
  }

  /** No stray row at one place of the history. */
  ghost predicate SafeAt(v: Variant, h: seq<Row>, i: nat)
    requires i <= |h|
  {
    i == 0 || v.Corrected? || forall r :: r in h ==> !Stray(h[i - 1], r)
  }

  /** No page from place `i` on, but the last, ends at a row with strays. */
  ghost predicate SafeFrom(v: Variant, h: seq<Row>, n: nat, i: nat)
    requires n >= 1 && i <= |h|
    decreases |h| - i
  {
    SafeAt(v, h, i) && (i + n < |h| ==> SafeFrom(v, h, n, i + n))
  }

  /** After a safe cursor the predicates select exactly the rest of the history. */
  lemma SelectsTheRest(v: Variant, t: Tables, q: Query, i: nat)
    requires Valid(t) && i <= |History(t, q)| && SafeAt(v, History(t, q), i)
    ensures Selected(v, t, q, CursorAt(History(t, q), i)) == History(t, q)[i..]
  {
    hide Selected, CursorWhere, Valid, Table;
    var h := History(t, q);
    SelectedElements(AsWritten, t, q, None);
    SelectedElements(v, t, q, CursorAt(h, i));
    var s := Selected(v, t, q, CursorAt(h, i));
    forall r ensures r in s <==> r in h[i..] {
      if i > 0 { CursorMeaning(v, h[i - 1], r); }
      if r in h {
        var j :| 0 <= j < |h| && h[j] == r;
        assert i > 0 && j < i - 1 ==> Before(h[j], h[i - 1]);
        assert i > 0 && i - 1 < j ==> Before(h[i - 1], h[j]);
        assert j >= i ==> h[i..][j - i] == r;
      }
    }
    SortedUnique(s, h[i..]);
  }

  /** One page from a safe place is the next slice of the history, and the cursor
      it hands out names the place after that slice. */
  lemma PageFrom(v: Variant, t: Tables, q: Query, i: nat)
    requires Valid(t) && q.pageSize >= 1 && i <= |History(t, q)| && SafeAt(v, History(t, q), i)
    ensures var h, page := History(t, q), List(v, t, q, CursorAt(History(t, q), i));
      && page.total == |h|
      && (page.nextCursor.None? <==> i + q.pageSize >= |h|)
      && page.items == (if i + q.pageSize >= |h| then h[i..] else h[i..i + q.pageSize])
      && (i + q.pageSize < |h| ==> page.nextCursor == CursorAt(h, i + q.pageSize))
  {
    hide Selected, List, Valid, SafeAt;
    FirstPlaceSafe(v, History(t, q));
    SelectsTheRest(v, t, q, i);
    SelectsTheRest(v, t, q, 0);
    PageIsExact(v, t, q, CursorAt(History(t, q), i));
  }

  /** The run from place `i` serves the rest of the history, once, and ends. */
  ghost predicate Serves(h: seq<Row>, i: nat, pages: seq<Page>)
    requires i <= |h|
  {
    Ended(pages) && ItemsOf(pages) == h[i..]
  }

  lemma FollowStep(v: Variant, t: Tables, q: Query, cursor: Option<Row>, requests: nat)
    requires requests > 0
    ensures var page, pages := List(v, t, q, cursor), Follow(v, t, q, cursor, requests);
      if page.nextCursor.None? then pages == [page] && Ended(pages) && ItemsOf(pages) == page.items
      else
        var rest := Follow(v, t, q, page.nextCursor, requests - 1);
        && pages == [page] + rest && (Ended(pages) <==> Ended(rest)) && ItemsOf(pages) == page.items + ItemsOf(rest)
  {
    hide List;
    var page := List(v, t, q, cursor);
    if page.nextCursor.Some? {
      var rest := Follow(v, t, q, page.nextCursor, requests - 1);
      assert ([page] + rest)[1..] == rest;
    } else {
      assert ItemsOf([page]) == page.items + ItemsOf([]);
    }
  }

  /** While every boundary ahead is safe, enough requests serve all that is left. */
  lemma {:induction false} SafeRunServes(v: Variant, t: Tables, q: Query, i: nat, requests: nat)
    requires Valid(t) && q.pageSize >= 1 && i <= |History(t, q)| && SafeFrom(v, History(t, q), q.pageSize, i)
    requires requests > |History(t, q)| - i
    ensures var h := History(t, q); Serves(h, i, Follow(v, t, q, CursorAt(h, i), requests))
    decreases requests
  {
    hide History, List, Valid, Follow, SafeAt, ItemsOf, Ended, CursorAt, Stray;
    var h := History(t, q);
    PageFrom(v, t, q, i);
    FollowStep(v, t, q, CursorAt(h, i), requests);
    if i + q.pageSize < |h| {
      SafeRunServes(v, t, q, i + q.pageSize, requests - 1);
      assert h[i..] == h[i..i + q.pageSize] + h[i + q.pageSize..];
    }
  }

  /** At an unsafe place the next page begins with a row already served. */
  lemma UnsafePage(v: Variant, t: Tables, q: Query, i: nat)
    requires Valid(t) && q.pageSize >= 1 && i < |History(t, q)| && !SafeAt(v, History(t, q), i)
    ensures var page := List(v, t, q, CursorAt(History(t, q), i));
      page.items != [] && page.items[0] != History(t, q)[i]
  {
    hide Selected, List, Valid, Table;
    var h := History(t, q);
    var c := h[i - 1];
    var stray :| stray in h && Stray(c, stray);
    SelectedElements(AsWritten, t, q, None);
    SelectedElements(v, t, q, Some(c));
    PageIsExact(v, t, q, Some(c));
    var s := Selected(v, t, q, Some(c));
    CursorMeaning(v, c, stray);
    assert stray in s;
    var k :| 0 <= k < |s| && s[k] == stray;
    assert k > 0 ==> Before(s[0], s[k]);
    assert Before(stray, c) && Before(c, h[i]);
  }

  /** Once an unsafe boundary lies ahead, no number of requests serves what is
      left: some row comes twice or the run does not end. */
  lemma {:induction false} UnsafeRunFails(v: Variant, t: Tables, q: Query, i: nat, requests: nat)
    requires Valid(t) && q.pageSize >= 1 && i <= |History(t, q)| && (i == 0 || i < |History(t, q)|)
    requires !SafeFrom(v, History(t, q), q.pageSize, i)
    ensures var h := History(t, q); !Serves(h, i, Follow(v, t, q, CursorAt(h, i), requests))
    decreases requests
  {
    if requests > 0 {
      UnsafeRunStep(v, t, q, i, requests);
    }
  }

  lemma {:induction false} UnsafeRunStep(v: Variant, t: Tables, q: Query, i: nat, requests: nat)
    requires Valid(t) && q.pageSize >= 1 && i <= |History(t, q)| && (i == 0 || i < |History(t, q)|)
    requires !SafeFrom(v, History(t, q), q.pageSize, i) && requests > 0
    ensures var h := History(t, q); !Serves(h, i, Follow(v, t, q, CursorAt(h, i), requests))
    decreases requests, 0
  {
    FirstPlaceSafe(v, History(t, q));
    hide History, List, Valid, Follow, SafeAt, ItemsOf, Ended, Stray;
    var h := History(t, q);
    FollowStep(v, t, q, CursorAt(h, i), requests);
    if SafeAt(v, h, i) {
      PageFrom(v, t, q, i);
      UnsafeRunFails(v, t, q, i + q.pageSize, requests - 1);
      assert h[i..][q.pageSize..] == h[i + q.pageSize..];
      var rest := ItemsOf(Follow(v, t, q, CursorAt(h, i + q.pageSize), requests - 1));
      if h[i..] == h[i..i + q.pageSize] + rest {
        assert h[i..][q.pageSize..] == rest;
      }
    } else {
      UnsafePage(v, t, q, i);
    }
  }

  lemma FirstPlaceSafe(v: Variant, h: seq<Row>)
    ensures SafeAt(v, h, 0)
  {
  }

  /** Following nextCursor from the first page: the run ends after serving every
      matching row exactly once in the global order if, and only if, no page but
      the last ends at a KNOWLEDGE row that shares its time with a SECURITY row of
      smaller id. Where it does not, asking more often does not help. */
  lemma WholeRun(v: Variant, t: Tables, q: Query)
    requires Valid(t) && q.pageSize >= 1
    ensures SafeFrom(v, History(t, q), q.pageSize, 0) <==> Complete(v, t, q, |History(t, q)| + 1)
    ensures !SafeFrom(v, History(t, q), q.pageSize, 0) ==> forall requests :: !Complete(v, t, q, requests)
  {
    hide History, Valid, Follow, SafeAt, ItemsOf, Ended;
    var h := History(t, q);
    assert h[0..] == h;
    if SafeFrom(v, h, q.pageSize, 0) {
      SafeRunServes(v, t, q, 0, |h| + 1);
    } else {
      forall requests ensures !Complete(v, t, q, requests) {
        UnsafeRunFails(v, t, q, 0, requests);
      }
    }
  }

  /** The run from the first page has ended and served the whole history. */
  ghost predicate Complete(v: Variant, t: Tables, q: Query, requests: nat) {
    var pages := Follow(v, t, q, None, requests);
    Ended(pages) && ItemsOf(pages) == History(t, q)
  }

  /** Every page reports the length of the whole history, so the pages of a
      complete run add up to `total`. */
  lemma TotalIsTheSum(v: Variant, t: Tables, q: Query, cursor: Option<Row>, requests: nat)
    requires Valid(t) && q.pageSize >= 1 && Complete(v, t, q, requests)
    ensures List(v, t, q, cursor).total == |ItemsOf(Follow(v, t, q, None, requests))|
  {
    hide List, Selected, Follow, ItemsOf, Ended;
    PageIsExact(v, t, q, cursor);
    SelectsTheRest(v, t, q, 0);
  }

  /** With the corrected predicate there is no proviso. */
  lemma CorrectedRun(t: Tables, q: Query)
    requires Valid(t) && q.pageSize >= 1
    ensures Complete(Corrected, t, q, |History(t, q)| + 1)
  {
    hide Complete, History;
    AlwaysSafe(Corrected, History(t, q), q.pageSize, 0);
    WholeRun(Corrected, t, q);
  }

  lemma {:induction false} AlwaysSafe(v: Variant, h: seq<Row>, n: nat, i: nat)
    requires n >= 1 && i <= |h|
    requires v.Corrected? || forall c, r :: c in h && r in h ==> !Stray(c, r)
    ensures SafeFrom(v, h, n, i)
    decreases |h| - i
  {
    if i + n < |h| { AlwaysSafe(v, h, n, i + n); }
  }

  /** A condition on the rows alone that makes the code as written right for every
      page size. */
  lemma RunWithoutInversions(t: Tables, q: Query)
    requires Valid(t) && q.pageSize >= 1
    requires forall k, s :: k in t.knowledge && s in t.security && k.time == s.time ==> s.id >= k.id
    ensures Complete(AsWritten, t, q, |History(t, q)| + 1)
  {
    hide Complete, Selected;
    SelectedElements(AsWritten, t, q, None);
    AlwaysSafe(AsWritten, History(t, q), q.pageSize, 0);
    WholeRun(AsWritten, t, q);
  }

  // --------------------------------------------- tables that grow meanwhile

  /** A row so new that it belongs before the cursor. As the code is written it has to
      be newer by time: a security row of the cursor's time may be a stray. */
  predicate Newer(v: Variant, c: Row, r: Row) {
    r.time > c.time || (v.Corrected? && Before(r, c))
  }

  /** `u` is `t` with rows appended that are newer than the cursor. */
  ghost predicate Grown(v: Variant, t: Tables, u: Tables, c: Row) {
    && Valid(u)
    && (forall s, r :: r in Table(t, s) ==> r in Table(u, s))
    && (forall s, r :: r in Table(u, s) && r !in Table(t, s) ==> Newer(v, c, r))
  }

  /** Newer rows are not selected, and stay newer than whatever is. */
  lemma NewerStays(v: Variant, c: Row, d: Row, r: Row)
    requires Newer(v, c, r)
    ensures !CursorWhere(v, c, r)
    ensures CursorWhere(v, c, d) ==> Newer(v, d, r)
  {
  }

  lemma GrownSelectsAlike(v: Variant, t: Tables, u: Tables, q: Query, c: Row)
    requires Valid(t) && Grown(v, t, u, c)
    ensures Selected(v, u, q, Some(c)) == Selected(v, t, q, Some(c))
  {
    hide Selected, CursorWhere, Valid, Table, Newer, Before;
    SelectedElements(v, t, q, Some(c));
    SelectedElements(v, u, q, Some(c));
    forall r ensures IsSelected(v, u, q, Some(c), r) <==> IsSelected(v, t, q, Some(c), r) {
      if r in Table(u, r.source) && r !in Table(t, r.source) {
        CursorMeaning(v, c, r);
        NewerStays(v, c, c, r);
      }
    }
    hide IsSelected, Sorted;
    SortedUnique(Selected(v, u, q, Some(c)), Selected(v, t, q, Some(c)));
  }

  lemma GrownTwice(v: Variant, t: Tables, u: Tables, w: Tables, c: Row, d: Row)
    requires Grown(v, t, u, c) && Grown(v, u, w, d) && CursorWhere(v, c, d)
    ensures Grown(v, t, w, d)
  {
    hide Valid, Table, CursorWhere, Newer;
    forall s, r | r in Table(w, s) && r !in Table(t, s) ensures Newer(v, d, r) {
      if r in Table(u, s) { NewerStays(v, c, d, r); }
    }
  }

  /** The requests of a run, each meeting the tables of its own moment. */
  function FollowGrowing(v: Variant, ts: seq<Tables>, q: Query, cursor: Option<Row>): seq<Page>
    decreases |ts|
  {
    if ts == [] then []
    else
      var page := List(v, ts[0], q, cursor);
      [page] + (if page.nextCursor.None? then [] else FollowGrowing(v, ts[1..], q, page.nextCursor))
  }

  /** Between two requests only rows newer than the cursor handed out are appended. */
  ghost predicate Growing(v: Variant, ts: seq<Tables>, q: Query, cursor: Option<Row>)
    decreases |ts|
  {
    |ts| > 1 ==>
      var next := List(v, ts[0], q, cursor).nextCursor;
      next.Some? ==> Grown(v, ts[0], ts[1], next.value) && Growing(v, ts[1..], q, next)
  }

  /** One page of the grown tables: the same rows, the same cursor, which is one of
      them. */
  lemma GrownPage(v: Variant, t: Tables, u: Tables, q: Query, cursor: Option<Row>)
    requires Valid(t) && q.pageSize >= 1
    requires if cursor.None? then u == t else Grown(v, t, u, cursor.value)
    ensures var a, b := List(v, t, q, cursor), List(v, u, q, cursor);
      && b.items == a.items && b.nextCursor == a.nextCursor
      && (cursor.Some? && a.nextCursor.Some? ==> CursorWhere(v, cursor.value, a.nextCursor.value))
  {
    hide Selected, List, CursorWhere, Table, Newer, Sorted, Valid;
    assert Valid(u);
    PageIsExact(v, t, q, cursor);
    PageIsExact(v, u, q, cursor);
    SelectedElements(v, t, q, cursor);
    if cursor.Some? { GrownSelectsAlike(v, t, u, q, cursor.value); }
    var all := Selected(v, t, q, cursor);
    if List(v, t, q, cursor).nextCursor.Some? {
      assert all[q.pageSize - 1] in all;
      if cursor.Some? { CursorMeaning(v, cursor.value, all[q.pageSize - 1]); }
    }
  }

  lemma FirstPage(page: Page, rest: seq<Page>)
    ensures ItemsOf([page] + rest) == page.items + ItemsOf(rest)
    ensures rest != [] || page.nextCursor.Some? ==> (Ended([page] + rest) <==> Ended(rest))
    ensures rest == [] ==> (Ended([page] + rest) <==> page.nextCursor.None?)
  {
    assert ([page] + rest)[1..] == rest;
    hide ItemsOf;
  }

  lemma GrowingStep(v: Variant, ts: seq<Tables>, q: Query, cursor: Option<Row>)
    requires ts != []
    ensures var page, pages := List(v, ts[0], q, cursor), FollowGrowing(v, ts, q, cursor);
      if page.nextCursor.None? then Ended(pages) && ItemsOf(pages) == page.items
      else
        var rest := FollowGrowing(v, ts[1..], q, page.nextCursor);
        (Ended(pages) <==> Ended(rest)) && ItemsOf(pages) == page.items + ItemsOf(rest)
  {
    var page := List(v, ts[0], q, cursor);
    var rest := if page.nextCursor.None? then [] else FollowGrowing(v, ts[1..], q, page.nextCursor);
    assert FollowGrowing(v, ts, q, cursor) == [page] + rest;
    hide List, FollowGrowing, Ended;
    FirstPage(page, rest);
  }

  /** A run over growing tables serves what the same run over the tables of its first
      request serves. */
  lemma {:induction false} GrowingServesAlike(v: Variant, t: Tables, ts: seq<Tables>, q: Query, cursor: Option<Row>)
    requires Valid(t) && q.pageSize >= 1 && Growing(v, ts, q, cursor)
    requires ts != [] ==> if cursor.None? then ts[0] == t else Grown(v, t, ts[0], cursor.value)
    ensures var pages, still := FollowGrowing(v, ts, q, cursor), Follow(v, t, q, cursor, |ts|);
      ItemsOf(pages) == ItemsOf(still) && (Ended(pages) <==> Ended(still))
    decreases |ts|
  {
    hide List, Valid, Grown, CursorWhere, ItemsOf, Ended;
    if ts != [] {
      hide Follow, FollowGrowing;
      GrowingStep(v, ts, q, cursor);
      FollowStep(v, t, q, cursor, |ts|);
      GrownPage(v, t, ts[0], q, cursor);
      var next := List(v, ts[0], q, cursor).nextCursor;
      if next.Some? {
        if |ts| > 1 && cursor.Some? { GrownTwice(v, t, ts[0], ts[1], cursor.value, next.value); }
        GrowingServesAlike(v, t, ts[1..], q, next);
      }
    }
  }

  /** While rows newer than the cursor are appended between the requests, the run still
      ends after serving every row of the history as its first request met it, exactly
      once and in order, if and only if the boundaries in that history are safe. */
  lemma WholeRunWhileGrowing(v: Variant, ts: seq<Tables>, q: Query)
    requires ts != [] && Valid(ts[0]) && q.pageSize >= 1 && Growing(v, ts, q, None)
    ensures var h, pages := History(ts[0], q), FollowGrowing(v, ts, q, None);
      && (|ts| > |h| && SafeFrom(v, h, q.pageSize, 0) ==> Ended(pages) && ItemsOf(pages) == h)
      && (!SafeFrom(v, h, q.pageSize, 0) ==> !(Ended(pages) && ItemsOf(pages) == h))
  {
    hide History, Valid, Growing, Follow, FollowGrowing, SafeFrom, ItemsOf, Ended;
    var h := History(ts[0], q);
    assert h[0..] == h;
    GrowingServesAlike(v, ts[0], ts, q, None);
    if !SafeFrom(v, h, q.pageSize, 0) {
      UnsafeRunFails(v, ts[0], q, 0, |ts|);
    } else if |ts| > |h| {
      SafeRunServes(v, ts[0], q, 0, |ts|);
    }
  }

  // ------------------------------------------------- the run that never ends

  const SEC := Row(0, SECURITY, 5)
  const KNO := Row(0, KNOWLEDGE, 9)

  function AUD(id: int): Row { Row(0, AUDIT, id) }

  function ThreeRows(id: int): Tables { Tables([AUD(id)], [KNO], [SEC]) }

  function OneByOne(): Query { Query(ALL, (r: Row) => true, true, 1) }

  lemma ThreeRowsValid(id: int)
    ensures Valid(ThreeRows(id))
  {
  }

  lemma LoopSelected(id: int, cursor: Option<Row>)
    requires cursor in {None, Some(SEC), Some(KNO)}
    ensures Sorted(Selected(AsWritten, ThreeRows(id), OneByOne(), cursor))
    ensures forall r :: r in Selected(AsWritten, ThreeRows(id), OneByOne(), cursor) <==>
      r == AUD(id) || (r == SEC && cursor != Some(SEC)) || (r == KNO && cursor != Some(KNO))
  {
    hide Selected;
    SelectedElements(AsWritten, ThreeRows(id), OneByOne(), cursor);
  }

  lemma FirstOfSorted(s: seq<Row>, row: Row, other: Row)
    requires Sorted(s) && row in s && other in s && row != other
    requires forall r :: r in s ==> r == row || Before(row, r)
    ensures |s| > 1 && s[0] == row
  {
    var k :| 0 <= k < |s| && s[k] == row;
    assert s[0] in s;
    assert k > 0 ==> Before(s[0], s[k]);
  }

  /** The three pages the run can ask for. */
  lemma LoopPage(id: int, cursor: Option<Row>)
    requires cursor in {None, Some(SEC), Some(KNO)}
    ensures var page := List(AsWritten, ThreeRows(id), OneByOne(), cursor);
      var row := if cursor == Some(SEC) then KNO else SEC;
      page.items == [row] && page.nextCursor == Some(row)
  {
    ThreeRowsValid(id);
    hide Selected, List, Sorted, Valid, ThreeRows;
    PageIsExact(AsWritten, ThreeRows(id), OneByOne(), cursor);
    LoopSelected(id, cursor);
    FirstOfSorted(Selected(AsWritten, ThreeRows(id), OneByOne(), cursor), if cursor == Some(SEC) then KNO else SEC,
      AUD(id));
  }

  /** Three rows of one time, S with id 5, K with id 9 and any A, read one by one:
      the pages go S, K, S, K, ... for as long as one asks, and A never comes. */
  lemma {:induction false} ThreeRowLoop(id: int, cursor: Option<Row>, requests: nat)
    requires cursor in {None, Some(SEC), Some(KNO)}
    ensures var pages := Follow(AsWritten, ThreeRows(id), OneByOne(), cursor, requests);
      |pages| == requests && !Ended(pages) && AUD(id) !in ItemsOf(pages)
    decreases requests
  {
    hide List, ThreeRows, OneByOne;
    if requests > 0 {
      var t, q := ThreeRows(id), OneByOne();
      LoopPage(id, cursor);
      FollowStep(AsWritten, t, q, cursor, requests);
      ThreeRowLoop(id, List(AsWritten, t, q, cursor).nextCursor, requests - 1);
    }
  }
}
