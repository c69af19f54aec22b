/** The outcome log: resolved packs polled in outcome order from a textual cursor, behind a settle bound. */
module OutcomeCursor {
  import opened PackIds
  import opened PackStore
  import opened TextOrder

  /** A resolved pack as the status index holds it. Times are texts and compare as texts. */
  datatype Row = Row(pid: string, status: PackStatus, enqueuedAt: string, resolvedAt: Option<string>)

  /** Outcome time, then pack id. */
  datatype Key = Key(time: string, pid: string)

  function OutcomeTime(r: Row): string {
    if r.resolvedAt.Some? && r.resolvedAt.value != "" then r.resolvedAt.value else r.enqueuedAt
  }

  function KeyOf(r: Row): Key { Key(OutcomeTime(r), r.pid) }

  predicate KeyLess(k: Key, l: Key) { Less(k.time, l.time) || (k.time == l.time && Less(k.pid, l.pid)) }

  lemma KeyLessTransitive(k: Key, l: Key, m: Key)
    requires KeyLess(k, l) && KeyLess(l, m)
    ensures KeyLess(k, m)
  {
    LessIrreflexive(k.time);
    if Less(k.time, l.time) && Less(l.time, m.time) { LessTransitive(k.time, l.time, m.time); }
    if k.time == l.time && l.time == m.time { LessTransitive(k.pid, l.pid, m.pid); }
  }

  lemma KeyLessTotal(k: Key, l: Key)
    ensures KeyLess(k, l) || k == l || KeyLess(l, k)
    ensures !KeyLess(k, k)
  {
    LessTotal(k.time, l.time);
    LessTotal(k.pid, l.pid);
    LessIrreflexive(k.time);
    LessIrreflexive(k.pid);
  }

  lemma KeyLessAsymmetric(k: Key, l: Key)
    requires KeyLess(k, l)
    ensures !KeyLess(l, k) && k != l
  {
    KeyLessTotal(k, k);
    if KeyLess(l, k) { KeyLessTransitive(k, l, k); }
  }

  // The cursor text

  function Rendered(k: Key): string { k.time + "#" + k.pid }

  /** The part before the first '#', and the part after it if there is one. */
  function Partition(s: string): (string, Option<string>) {
    if s == "" then ("", None)
    else if s[0] == '#' then ("", Some(s[1..]))
    else
      var (t, p) := Partition(s[1..]);
      ([s[0]] + t, p)
  }

  /** A cursor gives back the key it was rendered from, whatever the pack id, exactly when the time has no '#'. */
  lemma {:induction false} CursorRoundTrip(k: Key)
    ensures Partition(Rendered(k)) == (k.time, Some(k.pid)) <==> Free(k.time, '#')
    decreases |k.time|
  {
    if k.time != "" {
      var c, rest := k.time[0], k.time[1..];
      CursorRoundTrip(Key(rest, k.pid));
      assert Rendered(k) == [c] + Rendered(Key(rest, k.pid)) && k.time == [c] + rest;
      var t := Partition(Rendered(Key(rest, k.pid))).0;
      assert ([c] + t)[1..] == t;
    } else {
      assert Rendered(k) == ['#'] + k.pid;
    }
  }

  lemma {:induction false} BareCursor(s: string)
    requires Free(s, '#')
    ensures Partition(s) == (s, None)
  {
    if s != "" {
      BareCursor(s[1..]);
      assert s == [s[0]] + s[1..] && s[0] in s;
    }
  }

  /** Past the cursor; a bare time from the older format compares the time alone, strictly. */
  predicate Past(cursor: string, k: Key) {
    var (t, p) := Partition(cursor);
    t == "" || (if p.None? then Less(t, k.time) else KeyLess(Key(t, p.value), k))
  }

  predicate Settled(upper: Option<string>, k: Key) { upper.None? || !Less(upper.value, k.time) }

  /** What a poll is after. */
  predicate Needed(r: Row, cursor: string, upper: Option<string>) { Past(cursor, KeyOf(r)) && Settled(upper, KeyOf(r)) }

  /** The filter the index query itself applies. */
  predicate Prefiltered(r: Row, cursor: string) {
    var t := Partition(cursor).0;
    t == "" || (r.resolvedAt.Some? && !Less(r.resolvedAt.value, t)) || !Less(r.enqueuedAt, t)
  }

  lemma NotBefore(s: string, t: string)
    requires Less(s, t) || s == t
    ensures !Less(t, s)
  {
  }

  /** The index filter never hides a row that is past the cursor. */
  lemma PrefilterIsSafe(r: Row, cursor: string)
    requires Past(cursor, KeyOf(r))
    ensures Prefiltered(r, cursor)
  {
    var (t, p) := Partition(cursor);
    if t != "" {
      assert Less(t, OutcomeTime(r)) || t == OutcomeTime(r);
      NotBefore(t, OutcomeTime(r));
    }
  }

  // Reading the five status partitions

  const ResolvedStatuses: seq<PackStatus> := [Sent, Failed, StuckNoKey, Cancelled, Unknown]

  type Pages = seq<seq<Row>>

  function Joined(pages: Pages): (rows: seq<Row>) {
    if pages == [] then [] else Joined(pages[..|pages| - 1]) + pages[|pages| - 1]
  }

  function Kept(rows: seq<Row>, cursor: string): seq<Row> {
    if rows == [] then [] else
      var n := |rows| - 1;
      Kept(rows[..n], cursor) + if Prefiltered(rows[n], cursor) then [rows[n]] else []
  }

  lemma {:induction false} KeptAppend(a: seq<Row>, b: seq<Row>, cursor: string)
    ensures Kept(a + b, cursor) == Kept(a, cursor) + Kept(b, cursor)
  {
    if b == [] {
      assert a + b == a;
    } else {
      assert (a + b)[..|a + b| - 1] == a + b[..|b| - 1];
      KeptAppend(a, b[..|b| - 1], cursor);
    }
  }

  /** Pages read before the scan stops: the first at which work_cap rows were scanned, or the last. */
  predicate StopsAfter(pages: Pages, cap: nat, n: nat) {
    && 1 <= n <= |pages|
    && (n == |pages| || |Joined(pages[..n])| >= cap)
    && (forall m :: 1 <= m < n ==> |Joined(pages[..m])| < cap)
  }

  lemma {:induction false} JoinedGrows(pages: Pages, m: nat, n: nat)
    requires m <= n <= |pages|
    ensures |Joined(pages[..m])| <= |Joined(pages[..n])|
  {
    if m < n {
      assert pages[..n][..n - 1] == pages[..n - 1];
      JoinedGrows(pages, m, n - 1);
    }
  }

  /** A partition is read to its end exactly when the rows before its last page are fewer than work_cap. */
  lemma ReadInFullExactly(pages: Pages, cap: nat, n: nat)
    requires StopsAfter(pages, cap, n) && cap > 0
    ensures n == |pages| <==> |Joined(pages[..|pages| - 1])| < cap
  {
    if n < |pages| {
      JoinedGrows(pages, n, |pages| - 1);
    } else if n == 1 {
      assert pages[..0] == [];
    }
  }

  function PagesFrom(pages: Pages, cap: nat, n: nat): (r: nat)
    requires 1 <= n <= |pages| && forall m :: 1 <= m < n ==> |Joined(pages[..m])| < cap
    ensures StopsAfter(pages, cap, r)
    decreases |pages| - n
  {
    if n == |pages| || |Joined(pages[..n])| >= cap then n else PagesFrom(pages, cap, n + 1)
  }

  function PagesRead(pages: Pages, cap: nat): (r: nat)
    requires pages != []
    ensures StopsAfter(pages, cap, r)
  {
    PagesFrom(pages, cap, 1)
  }

  method ReadPartition(pages: Pages, cursor: string, cap: nat) returns (rows: seq<Row>)
    requires pages != []
    ensures rows == Kept(Joined(pages[..PagesRead(pages, cap)]), cursor)
  {
    rows := [];
    var i, scanned := 0, 0;
    while true
      invariant 0 <= i < |pages|
      invariant rows == Kept(Joined(pages[..i]), cursor) && scanned == |Joined(pages[..i])|
      invariant forall m :: 1 <= m <= i ==> |Joined(pages[..m])| < cap
      decreases |pages| - i
    {
      assert pages[..i + 1][..i] == pages[..i];
      KeptAppend(Joined(pages[..i]), pages[i], cursor);
      rows := rows + Kept(pages[i], cursor);
      scanned := scanned + |pages[i]|;
      if i + 1 == |pages| || scanned >= cap {
        assert StopsAfter(pages, cap, i + 1) && i + 1 == PagesRead(pages, cap);
        break;
      }
      i := i + 1;
    }
  }

  // Sorting and cutting

  predicate Sorted(rows: seq<Row>) { forall i, j :: 0 <= i < j < |rows| ==> !KeyLess(KeyOf(rows[j]), KeyOf(rows[i])) }

  function Insert(r: Row, rows: seq<Row>): (s: seq<Row>)
    ensures multiset(s) == multiset(rows) + multiset{r}
  {
    if rows == [] then [r]
    else if KeyLess(KeyOf(r), KeyOf(rows[0])) then [r] + rows
    else
      assert rows == [rows[0]] + rows[1..];
      [rows[0]] + Insert(r, rows[1..])
  }

  function SortRows(rows: seq<Row>): (s: seq<Row>)
    ensures multiset(s) == multiset(rows)
  {
    if rows == [] then [] else
      assert rows == rows[..|rows| - 1] + [rows[|rows| - 1]];
      Insert(rows[|rows| - 1], SortRows(rows[..|rows| - 1]))
  }

  lemma NotLessTransitive(k: Key, l: Key, m: Key)
    requires !KeyLess(l, k) && !KeyLess(m, l)
    ensures !KeyLess(m, k)
  {
    KeyLessTotal(k, l);
    if KeyLess(m, k) && KeyLess(k, l) { KeyLessTransitive(m, k, l); }
  }

  lemma {:induction false} InsertSorts(r: Row, rows: seq<Row>)
    requires Sorted(rows)
    ensures Sorted(Insert(r, rows))
  {
    if rows != [] {
      var s := Insert(r, rows);
      if KeyLess(KeyOf(r), KeyOf(rows[0])) {
        KeyLessAsymmetric(KeyOf(r), KeyOf(rows[0]));
        forall j | 0 < j < |s| ensures !KeyLess(KeyOf(s[j]), KeyOf(r)) {
          if j > 1 { NotLessTransitive(KeyOf(r), KeyOf(rows[0]), KeyOf(rows[j - 1])); }
        }
      } else {
        InsertSorts(r, rows[1..]);
        var t := Insert(r, rows[1..]);
        forall x | x in t ensures !KeyLess(KeyOf(x), KeyOf(rows[0])) {
          assert x in multiset(t);
          assert x == r || x in rows[1..];
        }
      }
    }
  }

  lemma {:induction false} SortRowsSorts(rows: seq<Row>)
    ensures Sorted(SortRows(rows))
  {
    if rows != [] {
      SortRowsSorts(rows[..|rows| - 1]);
      InsertSorts(rows[|rows| - 1], SortRows(rows[..|rows| - 1]));
    }
  }

  /** How many of n rows the slice [:limit] keeps; a negative limit counts from the end. */
  function SliceCount(n: nat, limit: int): (k: nat)
    ensures k <= n
  {
    if limit >= 0 then (if limit < n then limit else n) else if n + limit >= 0 then n + limit else 0
  }

  function NeededRows(rows: seq<Row>, cursor: string, upper: Option<string>): (s: seq<Row>)
    ensures forall r <- rows :: Needed(r, cursor, upper) <==> r in s
    ensures forall r <- s :: r in rows
  {
    if rows == [] then [] else
      var n := |rows| - 1;
      assert rows == rows[..n] + [rows[n]];
      NeededRows(rows[..n], cursor, upper) + if Needed(rows[n], cursor, upper) then [rows[n]] else []
  }

  /** An answer: the least needed rows of those read, in key order, as many as the slice keeps. */
  ghost predicate Answers(out: seq<Row>, read: seq<Row>, cursor: string, limit: int, upper: Option<string>) {
    && Sorted(out) && multiset(out) <= multiset(NeededRows(read, cursor, upper))
    && |out| == SliceCount(|NeededRows(read, cursor, upper)|, limit)
    && (forall r <- out :: r in read && Needed(r, cursor, upper))
    && (forall r <- read | Needed(r, cursor, upper) && r !in out :: forall o <- out :: !KeyLess(KeyOf(r), KeyOf(o)))
  }

  predicate Paged(parts: seq<Pages>) { forall i :: 0 <= i < |parts| ==> parts[i] != [] }

  /** The rows read from the first k partitions under the cap. */
  function RowsRead(parts: seq<Pages>, cap: nat, k: nat): seq<Row>
    requires k <= |parts| && Paged(parts)
  {
    if k == 0 then [] else RowsRead(parts, cap, k - 1) + Joined(parts[k - 1][..PagesRead(parts[k - 1], cap)])
  }

  function WorkCap(limit: int): nat { if limit * 4 > 2000 then limit * 4 else 2000 }

  /** A partition is read to its end exactly when fewer than 2000 rows, or fewer than four times the limit, precede its last page. */
  lemma SmallPartitionsReadInFull(pages: Pages, limit: nat)
    requires pages != []
    ensures PagesRead(pages, WorkCap(limit)) == |pages| <==>
      |Joined(pages[..|pages| - 1])| < 2000 || |Joined(pages[..|pages| - 1])| < 4 * limit
  {
    ReadInFullExactly(pages, WorkCap(limit), PagesRead(pages, WorkCap(limit)));
  }

  /**
   What a poll is after: the outcomes later than the cursor's, in time and then in pack id, and not above the bound. A
   pack's outcome time is when it was resolved, or when it was enqueued if that is not on record.
   */
  lemma NeededTells(r: Row, k: Key, upper: string)
    requires Free(k.time, '#') && k.time != ""
    ensures var t := if r.resolvedAt.Some? && r.resolvedAt.value != "" then r.resolvedAt.value else r.enqueuedAt;
      && (Needed(r, Rendered(k), Some(upper)) <==> (Less(k.time, t) || (k.time == t && Less(k.pid, r.pid))) && !Less(upper, t))
      && (Needed(r, k.time, Some(upper)) <==> Less(k.time, t) && !Less(upper, t))
      && (Needed(r, "", Some(upper)) <==> !Less(upper, t))
  {
    CursorRoundTrip(k);
    BareCursor(k.time);
  }

  method ListResolvedPacks(parts: seq<Pages>, cursor: string, limit: int, upper: Option<string>) returns (out: seq<Row>)
    requires |parts| == |ResolvedStatuses| && Paged(parts)
    ensures Answers(out, RowsRead(parts, WorkCap(limit), |parts|), cursor, limit, upper)
    ensures var found := |NeededRows(RowsRead(parts, WorkCap(limit), |parts|), cursor, upper)|;
      |out| == if 0 <= limit then (if limit <= found then limit else found) else if 0 <= found + limit then found + limit else 0
  {
    var rows := [];
    var cap := WorkCap(limit);
    for k := 0 to |parts|
      invariant rows == Kept(RowsRead(parts, cap, k), cursor)
    {
      var part := ReadPartition(parts[k], cursor, cap);
      KeptAppend(RowsRead(parts, cap, k), Joined(parts[k][..PagesRead(parts[k], cap)]), cursor);
      rows := rows + part;
    }
    SlicedAnswers(RowsRead(parts, cap, |parts|), cursor, limit, upper);
    rows := NeededRows(rows, cursor, upper);
    rows := SortRows(rows);
    out := rows[..SliceCount(|rows|, limit)];
  }

  lemma SameMultiset(a: seq<Row>, b: seq<Row>)
    requires multiset(a) == multiset(b)
    ensures forall r :: r in a <==> r in b
  {
    forall r ensures r in a <==> r in b { assert r in multiset(a) <==> r in multiset(b); }
  }

  lemma NeededIsPrefiltered(r: Row, cursor: string, upper: Option<string>)
    ensures Needed(r, cursor, upper) ==> Prefiltered(r, cursor)
  {
    if Past(cursor, KeyOf(r)) { PrefilterIsSafe(r, cursor); }
  }

  lemma PrefilterStep(rest: seq<Row>, r: Row, kept: seq<Row>, cursor: string, upper: Option<string>)
    requires kept == Kept(rest, cursor) && NeededRows(kept, cursor, upper) == NeededRows(rest, cursor, upper)
    ensures NeededRows(Kept(rest + [r], cursor), cursor, upper) == NeededRows(rest + [r], cursor, upper)
  {
    NeededIsPrefiltered(r, cursor, upper);
    if Prefiltered(r, cursor) {
    } else {
      assert kept + [] == kept;
    }
  }

  /** Filtering by the cursor after the index filter finds what filtering every row by it would. */
  lemma {:induction false} PrefilterLosesNothing(read: seq<Row>, cursor: string, upper: Option<string>)
    ensures NeededRows(Kept(read, cursor), cursor, upper) == NeededRows(read, cursor, upper)
  {
    if read != [] {
      var rest, r := read[..|read| - 1], read[|read| - 1];
      PrefilterLosesNothing(rest, cursor, upper);
      PrefilterStep(rest, r, Kept(rest, cursor), cursor, upper);
      assert read == rest + [r];
    }
  }

  /** Filtering in the index, filtering by the cursor, sorting and slicing together answer the poll. */
  lemma SlicedAnswers(read: seq<Row>, cursor: string, limit: int, upper: Option<string>)
    ensures var s := SortRows(NeededRows(Kept(read, cursor), cursor, upper));
      Answers(s[..SliceCount(|s|, limit)], read, cursor, limit, upper)
  {
    PrefilterLosesNothing(read, cursor, upper);
    var need := NeededRows(read, cursor, upper);
    SortRowsSorts(need);
    SameMultiset(SortRows(need), need);
    var s := SortRows(need);
    SlicePrefix(s, SliceCount(|s|, limit));
    assert |multiset(s)| == |s| && |multiset(need)| == |need|;
  }

  lemma SlicePrefix(s: seq<Row>, k: nat)
    requires Sorted(s) && k <= |s|
    ensures Sorted(s[..k]) && multiset(s[..k]) <= multiset(s)
    ensures forall r <- s[..k] :: r in s
    ensures forall r <- s | r !in s[..k] :: forall o <- s[..k] :: !KeyLess(KeyOf(r), KeyOf(o))
  {
    assert s == s[..k] + s[k..];
    assert multiset(s) == multiset(s[..k]) + multiset(s[k..]);
    assert forall r <- s :: r in s[..k] || r in s[k..];
  }
}
