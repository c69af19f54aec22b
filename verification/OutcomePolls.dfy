/** Runs of resolves and polls: what repeated polls from the returned cursor deliver. */
module OutcomePolls {
  import opened PackIds
  import opened PackStore
  import opened TextOrder
  import opened OutcomeCursor

  /** The resolved packs the status index shows, by pack id. */
  type Table = map<string, Row>

  predicate Stamped(k: Key) { k.time != "" && Free(k.time, '#') }

  predicate RowOk(r: Row) { Stamped(KeyOf(r)) && r.status in ResolvedStatuses }

  predicate WellFormed(table: Table) { forall pid <- table :: table[pid].pid == pid && RowOk(table[pid]) }

  predicate Ascending(rows: seq<Row>) { forall i, j :: 0 <= i < j < |rows| ==> KeyLess(KeyOf(rows[i]), KeyOf(rows[j])) }

  /** The pages of one status partition at one moment: each row of the table under that status, once. */
  ghost predicate PartitionIs(pages: Pages, table: Table, status: PackStatus) {
    && pages != []
    && (forall r <- Joined(pages) :: r.pid in table && table[r.pid] == r && r.status == status)
    && (forall pid <- table :: table[pid].status == status ==> table[pid] in Joined(pages))
    && (forall i, j :: 0 <= i < j < |Joined(pages)| ==> Joined(pages)[i] != Joined(pages)[j])
  }

  /** Fewer than work_cap rows precede the last page. */
  predicate WithinCap(pages: Pages, cap: nat) { pages != [] && |Joined(pages[..|pages| - 1])| < cap }

  lemma PartInFull(pages: Pages, cap: nat)
    requires WithinCap(pages, cap) && cap > 0
    ensures pages[..PagesRead(pages, cap)] == pages
  {
    ReadInFullExactly(pages, cap, PagesRead(pages, cap));
  }

  lemma {:induction false} Once(rows: seq<Row>, x: Row)
    requires forall i, j :: 0 <= i < j < |rows| ==> rows[i] != rows[j]
    ensures multiset(rows)[x] <= 1
  {
    if rows != [] {
      var n := |rows| - 1;
      assert rows == rows[..n] + [rows[n]];
      Once(rows[..n], x);
      assert rows[n] !in rows[..n];
      assert multiset(rows) == multiset(rows[..n]) + multiset{rows[n]};
    }
  }

  lemma Twice(rows: seq<Row>, i: nat, j: nat)
    requires i < j < |rows| && rows[i] == rows[j]
    ensures multiset(rows)[rows[i]] >= 2
  {
    assert rows == rows[..j] + rows[j..];
    assert rows[..j][i] in multiset(rows[..j]);
    assert rows[j..][0] in multiset(rows[j..]);
    assert multiset(rows) == multiset(rows[..j]) + multiset(rows[j..]);
  }

  lemma {:induction false} NeededRowsPick(rows: seq<Row>, cursor: string, upper: Option<string>)
    ensures multiset(NeededRows(rows, cursor, upper)) <= multiset(rows)
  {
    if rows != [] {
      var n := |rows| - 1;
      assert rows == rows[..n] + [rows[n]];
      NeededRowsPick(rows[..n], cursor, upper);
      assert multiset(rows) == multiset(rows[..n]) + multiset{rows[n]};
    }
  }

  lemma FullMultiset(out: seq<Row>, need: seq<Row>, r: Row)
    requires multiset(out) <= multiset(need) && |out| == |need| && r in need
    ensures r in out
  {
    var rest := multiset(need) - multiset(out);
    assert multiset(need) == multiset(out) + rest;
    assert |multiset(need)| == |need| && |multiset(out)| == |out|;
    assert |rest| == 0;
    assert r in multiset(need);
  }

  predicate OnePerPack(rows: seq<Row>) { forall i, j :: 0 <= i < j < |rows| ==> rows[i].pid != rows[j].pid }

  lemma AnswersAscend(out: seq<Row>, read: seq<Row>, cursor: string, limit: nat, upper: Option<string>)
    requires Answers(out, read, cursor, limit, upper) && OnePerPack(read)
    ensures Ascending(out)
  {
    NeededRowsPick(read, cursor, upper);
    forall i, j | 0 <= i < j < |out| ensures KeyLess(KeyOf(out[i]), KeyOf(out[j])) {
      Once(read, out[i]);
      if out[i] == out[j] { Twice(out, i, j); }
      assert out[i] in read && out[j] in read;
      KeyLessTotal(KeyOf(out[i]), KeyOf(out[j]));
    }
  }

  lemma {:induction false} JoinedPrefix(pages: Pages, m: nat, n: nat, r: Row)
    requires m <= n <= |pages| && r in Joined(pages[..m])
    ensures r in Joined(pages[..n])
  {
    if m < n {
      assert pages[..n][..n - 1] == pages[..n - 1];
      JoinedPrefix(pages, m, n - 1, r);
    }
  }

  /** Once work_cap rows precede the last page of a partition, no poll reads a row of that page, whatever its cursor. */
  lemma LastPageBehindTheCap(pages: Pages, cap: nat, r: Row)
    requires pages != [] && cap > 0
    requires |Joined(pages[..|pages| - 1])| >= cap && r !in Joined(pages[..|pages| - 1])
    ensures r !in Joined(pages[..PagesRead(pages, cap)])
  {
    var n := PagesRead(pages, cap);
    ReadInFullExactly(pages, cap, n);
    if r in Joined(pages[..n]) { JoinedPrefix(pages, n, |pages| - 1, r); }
  }

  // Runs

  /**
   A poll under way: the pages of the partitions read so far, each as it stood when it was read, and the rows that
   came into one of these partitions since.
   */
  datatype Reading = Reading(limit: nat, parts: seq<Pages>, late: set<Row>)

  /**
   delivered lists the rows of polls whose cursor was saved. upper is the settle bound the last poll started with.
   start is the cursor at the beginning, empty or a bare time. missed records rows passed over: they landed at or
   behind the cursor, or came late into a poll whose new cursor lies at or past them.
   */
  datatype State = State(table: Table, start: string, cursor: string, upper: Option<string>, reading: Option<Reading>,
                         delivered: seq<Row>, missed: set<Row>)

  datatype Step =
    | Land(r: Row)                            // a resolve becomes readable; only an unknown outcome is ever replaced
    | Start(limit: nat, upper: string)        // a poll takes its settle bound
    | Read(pages: Pages)                      // ... reads the next status partition
    | Finish(out: seq<Row>, saved: bool)      // ... and answers; the terminal saves the cursor or does not
    | Abandon

  predicate ReadSoFar(s: State, status: PackStatus) {
    s.reading.Some? && |s.reading.value.parts| <= |ResolvedStatuses| && status in ResolvedStatuses[..|s.reading.value.parts|]
  }

  function Got(g: Reading): seq<Row>
    requires Paged(g.parts)
  {
    RowsRead(g.parts, WorkCap(g.limit), |g.parts|)
  }

  ghost predicate Enabled(s: State, t: Step) {
    match t
    case Land(r) => RowOk(r) && (r.pid in s.table ==> s.table[r.pid].status == Unknown)
    case Start(limit, upper) => limit > 0 && s.reading.None? && (s.upper.Some? ==> !Less(upper, s.upper.value))
    case Read(pages) =>
      && s.reading.Some? && |s.reading.value.parts| < |ResolvedStatuses|
      && PartitionIs(pages, s.table, ResolvedStatuses[|s.reading.value.parts|])
      && WithinCap(pages, WorkCap(s.reading.value.limit))
    case Finish(out, _) =>
      && s.reading.Some? && |s.reading.value.parts| == |ResolvedStatuses| && Paged(s.reading.value.parts)
      && Answers(out, Got(s.reading.value), s.cursor, s.reading.value.limit, s.upper)
    case Abandon => true
  }

  predicate Behind(s: State, r: Row) { Past(s.start, KeyOf(r)) && !Past(s.cursor, KeyOf(r)) && r !in s.delivered }

  predicate Stands(s: State, r: Row) { r.pid in s.table && s.table[r.pid] == r }

  function WithLate(s: State, r: Row): Option<Reading> {
    if ReadSoFar(s, r.status) && !Stands(s, r) then Some(s.reading.value.(late := s.reading.value.late + {r})) else s.reading
  }

  function Moved(s: State, out: seq<Row>): State
    requires out != []
  {
    s.(delivered := s.delivered + out, cursor := Rendered(KeyOf(Last(out))), reading := None)
  }

  function Apply(s: State, t: Step): State
    requires Enabled(s, t)
  {
    match t
    case Land(r) =>
      s.(table := s.table[r.pid := r], reading := WithLate(s, r), missed := if Behind(s, r) then s.missed + {r} else s.missed)
    case Start(limit, upper) => s.(upper := Some(upper), reading := Some(Reading(limit, [], {})))
    case Read(pages) => s.(reading := Some(s.reading.value.(parts := s.reading.value.parts + [pages])))
    case Finish(out, saved) =>
      if saved && out != [] then
        var s' := Moved(s, out);
        s'.(missed := s.missed + set r <- s.reading.value.late | Behind(s', r))
      else s.(reading := None)
    case Abandon => s.(reading := None)
  }

  predicate Init(s: State) {
    && WellFormed(s.table) && Free(s.start, '#') && s.cursor == s.start && s.upper == None && s.reading == None
    && s.delivered == [] && s.missed == {}
  }

  ghost predicate Next(s: State, s': State) { exists t :: Enabled(s, t) && s' == Apply(s, t) }

  ghost predicate Run(tr: seq<State>) {
    && |tr| > 0 && Init(tr[0])
    && forall i :: 0 <= i < |tr| - 1 ==> StepAt(tr, i)
  }

  ghost predicate StepAt(tr: seq<State>, i: nat)
    requires i + 1 < |tr|
  {
    Next(tr[i], tr[i + 1])
  }

  lemma PastRendered(k: Key, l: Key)
    requires Stamped(k)
    ensures Past(Rendered(k), l) <==> KeyLess(k, l)
  {
    CursorRoundTrip(k);
  }

  lemma PastGrows(cursor: string, k: Key, l: Key)
    requires Past(cursor, k) && KeyLess(k, l)
    ensures Past(cursor, l)
  {
    var (t, p) := Partition(cursor);
    if t != "" {
      if p.None? {
        if k.time != l.time { LessTransitive(t, k.time, l.time); }
      } else {
        KeyLessTransitive(Key(t, p.value), k, l);
      }
    }
  }

  function Last(rows: seq<Row>): Row requires rows != [] { rows[|rows| - 1] }

  /** What a poll under way has read: one row per pack, standing still unless unknown; what it lacks came late. */
  ghost predicate ReadingOk(s: State) {
    s.reading.Some? ==>
      var g := s.reading.value;
      && s.upper.Some? && g.limit > 0 && |g.parts| <= |ResolvedStatuses| && Paged(g.parts)
      && OnePerPack(Got(g))
      && (forall r <- Got(g) :: RowOk(r) && ReadSoFar(s, r.status) && (r.status != Unknown ==> Stands(s, r)))
      && (forall pid <- s.table :: ReadSoFar(s, s.table[pid].status) ==> s.table[pid] in Got(g) || s.table[pid] in g.late)
  }

  ghost predicate CursorsOk(s: State) {
    && WellFormed(s.table) && Free(s.start, '#')
    && Ascending(s.delivered)
    && s.cursor == (if s.delivered == [] then s.start else Rendered(KeyOf(Last(s.delivered))))
    && (forall r <- s.delivered ::
          Stamped(KeyOf(r)) && Past(s.start, KeyOf(r)) && s.upper.Some? && !Less(s.upper.value, OutcomeTime(r)))
    && (forall r <- s.missed :: r !in s.delivered && !Past(s.cursor, KeyOf(r)))
    && (forall pid <- s.table :: Behind(s, s.table[pid]) ==> s.table[pid] in s.missed)
  }

  /** What repeated polls keep: every row at or below the cursor was delivered as it stands, or was missed; deliveries ascend. */
  ghost predicate Inv(s: State) { CursorsOk(s) && ReadingOk(s) }

  lemma NotLess(a: string, b: string, c: string)
    requires !Less(b, a) && !Less(c, b)
    ensures !Less(c, a)
  {
  }

  lemma PastCursorIsPastStart(s: State, k: Key)
    requires CursorsOk(s) && Past(s.cursor, k)
    ensures Past(s.start, k)
    ensures forall d <- s.delivered :: KeyLess(KeyOf(d), k)
  {
    if s.delivered != [] {
      var last := Last(s.delivered);
      assert last in s.delivered;
      PastRendered(KeyOf(last), k);
      PastGrows(s.start, KeyOf(last), k);
      forall d | d in s.delivered ensures KeyLess(KeyOf(d), k) {
        if d != last { KeyLessTransitive(KeyOf(d), KeyOf(last), k); }
      }
    }
  }

  /** What lies past the last row of a page lay past the cursor before it. */
  lemma PageMovesOn(s: State, last: Row, k: Key)
    requires CursorsOk(s) && Stamped(KeyOf(last)) && Past(s.cursor, KeyOf(last)) && Past(Rendered(KeyOf(last)), k)
    ensures Past(s.cursor, k)
  {
    PastRendered(KeyOf(last), k);
    PastGrows(s.cursor, KeyOf(last), k);
  }

  lemma GotMore(g: Reading, pages: Pages)
    requires Paged(g.parts) && WithinCap(pages, WorkCap(g.limit))
    ensures Paged(g.parts + [pages]) && Got(g.(parts := g.parts + [pages])) == Got(g) + Joined(pages)
  {
    RowsReadSnoc(g.parts, pages, WorkCap(g.limit));
  }

  lemma RowsReadSnoc(parts: seq<Pages>, pages: Pages, cap: nat)
    requires Paged(parts) && WithinCap(pages, cap) && cap > 0
    ensures Paged(parts + [pages]) && RowsRead(parts + [pages], cap, |parts + [pages]|) == RowsRead(parts, cap, |parts|) + Joined(pages)
  {
    var all := parts + [pages];
    assert all[|parts|] == pages;
    RowsReadPrefix(parts, pages, cap, |parts|);
    PartInFull(pages, cap);
    assert RowsRead(all, cap, |parts| + 1) == RowsRead(all, cap, |parts|) + Joined(pages[..PagesRead(pages, cap)]);
  }

  lemma {:induction false} RowsReadPrefix(parts: seq<Pages>, pages: Pages, cap: nat, k: nat)
    requires k <= |parts| && Paged(parts) && pages != []
    ensures RowsRead(parts + [pages], cap, k) == RowsRead(parts, cap, k)
  {
    if k > 0 { RowsReadPrefix(parts, pages, cap, k - 1); }
  }

  /** The rows a partition adds are of packs not read before: a final outcome stands, and unknown is read last. */
  lemma ReadKeepsInv(s: State, pages: Pages)
    requires Inv(s) && Enabled(s, Read(pages))
    ensures Inv(Apply(s, Read(pages)))
  {
    var s' := Apply(s, Read(pages));
    var g := s.reading.value;
    GotMore(g, pages);
    forall r | r in Got(g) ensures r.status != Unknown && r.status != ResolvedStatuses[|g.parts|] { StatusesDiffer(|g.parts|, r.status); }
    PartitionsApart(Got(g), Joined(pages), s.table, ResolvedStatuses[|g.parts|]);
    forall status ensures ReadSoFar(s', status) <==> ReadSoFar(s, status) || status == ResolvedStatuses[|g.parts|] {
      OneMoreRead(s, pages, status);
    }
    PartitionCovers(s, s', pages);
  }

  lemma OneMoreRead(s: State, pages: Pages, status: PackStatus)
    requires Enabled(s, Read(pages))
    ensures ReadSoFar(Apply(s, Read(pages)), status) <==> ReadSoFar(s, status) || status == ResolvedStatuses[|s.reading.value.parts|]
  {
    var n := |s.reading.value.parts|;
    assert ResolvedStatuses[..n + 1] == ResolvedStatuses[..n] + [ResolvedStatuses[n]];
  }

  lemma PartitionCovers(s: State, s': State, pages: Pages)
    requires ReadingOk(s) && Enabled(s, Read(pages)) && s' == Apply(s, Read(pages)) && Paged(s'.reading.value.parts)
    requires Got(s'.reading.value) == Got(s.reading.value) + Joined(pages)
    requires forall status :: ReadSoFar(s', status) <==> ReadSoFar(s, status) || status == ResolvedStatuses[|s.reading.value.parts|]
    ensures forall pid <- s.table :: ReadSoFar(s', s.table[pid].status) ==>
              s.table[pid] in Got(s'.reading.value) || s.table[pid] in s.reading.value.late
  {
    forall pid | pid in s.table && ReadSoFar(s', s.table[pid].status) && s.table[pid] !in s.reading.value.late
      ensures s.table[pid] in Got(s'.reading.value)
    {
      if !ReadSoFar(s, s.table[pid].status) { assert s.table[pid] in Joined(pages); }
    }
  }

  lemma StatusesDiffer(n: nat, status: PackStatus)
    requires n < |ResolvedStatuses| && status in ResolvedStatuses[..n]
    ensures status != Unknown && status != ResolvedStatuses[n]
  {
  }

  lemma PartitionsApart(got: seq<Row>, more: seq<Row>, table: Table, status: PackStatus)
    requires OnePerPack(got) && forall r <- got :: r.pid in table && table[r.pid] == r && r.status != status
    requires forall r <- more :: r.pid in table && table[r.pid] == r && r.status == status
    requires forall i, j :: 0 <= i < j < |more| ==> more[i] != more[j]
    ensures OnePerPack(got + more)
  {
    var all := got + more;
    forall i, j | 0 <= i < j < |all| ensures all[i].pid != all[j].pid {
      assert i < |got| ==> all[i] in got;
      assert i >= |got| ==> all[i] == more[i - |got|];
      assert j >= |got| ==> all[j] == more[j - |got|] && all[j] in more;
    }
  }

  lemma LandKeepsInv(s: State, r: Row)
    requires Inv(s) && Enabled(s, Land(r))
    ensures Inv(Apply(s, Land(r)))
  {
    LandKeepsReading(s, r);
  }

  lemma LandKeepsReading(s: State, r: Row)
    requires Inv(s) && Enabled(s, Land(r))
    ensures ReadingOk(Apply(s, Land(r)))
  {
    var s' := Apply(s, Land(r));
    if s.reading.Some? {
      assert Got(s'.reading.value) == Got(s.reading.value);
      forall x | x in Got(s.reading.value) && x.status != Unknown ensures Stands(s', x) { assert Stands(s, x); }
    }
  }

  /** A row the answer passes over is in it, or came late. */
  lemma PassedIsInAnswer(s: State, out: seq<Row>, r: Row)
    requires Inv(s) && Enabled(s, Finish(out, true)) && out != []
    requires Stands(s, r) && Past(s.cursor, KeyOf(r)) && !Past(Rendered(KeyOf(Last(out))), KeyOf(r))
    ensures r in out || r in s.reading.value.late
  {
    var last, g := Last(out), s.reading.value;
    assert last in out && last in Got(g);
    PastRendered(KeyOf(last), KeyOf(r));
    LessTotal(OutcomeTime(last), OutcomeTime(r));
    NotLess(OutcomeTime(r), OutcomeTime(last), s.upper.value);
    assert Needed(r, s.cursor, s.upper);
    assert s.table[r.pid] == r && ReadSoFar(s, r.status);
    KeyLessTotal(KeyOf(r), KeyOf(last));
    if r in Got(g) && KeyOf(r) == KeyOf(last) { SamePack(Got(g), r, last); }
  }

  lemma SamePack(rows: seq<Row>, r: Row, x: Row)
    requires OnePerPack(rows) && r in rows && x in rows && r.pid == x.pid
    ensures r == x
  {
  }

  predicate AnswerOk(s: State, out: seq<Row>) {
    && s.upper.Some? && Ascending(out)
    && forall r <- out :: Stamped(KeyOf(r)) && Past(s.cursor, KeyOf(r)) && !Less(s.upper.value, OutcomeTime(r))
  }

  lemma FinishAnswers(s: State, out: seq<Row>)
    requires ReadingOk(s) && Enabled(s, Finish(out, true))
    ensures AnswerOk(s, out)
  {
    AnswersAscend(out, Got(s.reading.value), s.cursor, s.reading.value.limit, s.upper);
    forall r | r in out ensures Stamped(KeyOf(r)) && Past(s.cursor, KeyOf(r)) && !Less(s.upper.value, OutcomeTime(r)) {
      AnsweredRow(s, out, r);
    }
  }

  lemma FinishAscends(s: State, out: seq<Row>)
    requires CursorsOk(s) && AnswerOk(s, out) && out != []
    ensures Ascending(s.delivered + out) && Last(s.delivered + out) == Last(out)
    ensures forall r <- out :: Past(s.start, KeyOf(r))
  {
    forall r | r in out ensures Past(s.start, KeyOf(r)) && forall d <- s.delivered :: KeyLess(KeyOf(d), KeyOf(r)) {
      PastCursorIsPastStart(s, KeyOf(r));
    }
    AscendingJoin(s.delivered, out);
  }

  lemma AnsweredRow(s: State, out: seq<Row>, r: Row)
    requires ReadingOk(s) && Enabled(s, Finish(out, true)) && r in out
    ensures s.upper.Some? && Stamped(KeyOf(r)) && Past(s.cursor, KeyOf(r)) && !Less(s.upper.value, OutcomeTime(r))
  {
    assert r in Got(s.reading.value) && Needed(r, s.cursor, s.upper);
  }

  lemma AscendingJoin(a: seq<Row>, b: seq<Row>)
    requires Ascending(a) && Ascending(b) && forall r <- b :: forall d <- a :: KeyLess(KeyOf(d), KeyOf(r))
    ensures Ascending(a + b)
  {
    var all := a + b;
    forall i, j | 0 <= i < j < |all| ensures KeyLess(KeyOf(all[i]), KeyOf(all[j])) {
      assert j >= |a| ==> all[j] in b;
      assert i < |a| ==> all[i] in a;
    }
  }

  lemma FinishKeepsInv(s: State, out: seq<Row>, saved: bool)
    requires Inv(s) && Enabled(s, Finish(out, saved))
    ensures Inv(Apply(s, Finish(out, saved)))
  {
    if saved && out != [] {
      var s' := Apply(s, Finish(out, saved));
      FinishAnswers(s, out);
      FinishAscends(s, out);
      assert Last(out) in out;
      forall r | r in s.missed ensures r !in s'.delivered && !Past(s'.cursor, KeyOf(r)) {
        if Past(s'.cursor, KeyOf(r)) { PageMovesOn(s, Last(out), KeyOf(r)); }
      }
      forall pid | pid in s.table && Behind(s', s.table[pid]) ensures s.table[pid] in s'.missed {
        if Past(s.cursor, KeyOf(s.table[pid])) { PassedIsInAnswer(s, out, s.table[pid]); }
      }
    }
  }

  lemma StartKeepsInv(s: State, limit: nat, upper: string)
    requires Inv(s) && Enabled(s, Start(limit, upper))
    ensures Inv(Apply(s, Start(limit, upper)))
  {
    forall d | d in s.delivered ensures !Less(upper, OutcomeTime(d)) { NotLess(OutcomeTime(d), s.upper.value, upper); }
  }

  lemma AbandonKeepsInv(s: State)
    requires Inv(s)
    ensures Inv(Apply(s, Abandon))
  {
  }

  lemma NextKeepsInv(s: State, s': State)
    requires Inv(s) && Next(s, s')
    ensures Inv(s') && s.delivered <= s'.delivered && s.missed <= s'.missed && s'.start == s.start
  {
    var t :| Enabled(s, t) && s' == Apply(s, t);
    ApplyKeepsInv(s, t);
    ApplyGrows(s, t);
  }

  lemma ApplyGrows(s: State, t: Step)
    requires Enabled(s, t)
    ensures s.delivered <= Apply(s, t).delivered && s.missed <= Apply(s, t).missed && Apply(s, t).start == s.start
  {
  }

  lemma ApplyKeepsInv(s: State, t: Step)
    requires Inv(s) && Enabled(s, t)
    ensures Inv(Apply(s, t))
  {
    match t
    case Land(r) => LandKeepsInv(s, r);
    case Start(limit, upper) => StartKeepsInv(s, limit, upper);
    case Read(pages) => ReadKeepsInv(s, pages);
    case Finish(out, saved) => FinishKeepsInv(s, out, saved);
    case Abandon => AbandonKeepsInv(s);
  }

  /** Over any run: deliveries ascend in outcome order, so none repeats, and a row at or below the cursor was delivered or missed. */
  lemma {:induction false} RunInv(tr: seq<State>, i: nat)
    requires Run(tr) && i < |tr|
    ensures Inv(tr[i])
  {
    if i > 0 {
      RunInv(tr, i - 1);
      InvStep(tr, i - 1, tr[i - 1], tr[i]);
    }
  }

  lemma InvStep(tr: seq<State>, i: nat, s: State, s': State)
    requires Run(tr) && i + 1 < |tr| && s == tr[i] && s' == tr[i + 1] && Inv(s)
    ensures Inv(s') && s.delivered <= s'.delivered && s.missed <= s'.missed && s.start == s'.start
  {
    assert StepAt(tr, i);
    NextKeepsInv(s, s');
  }

  /** What a poller has by any moment of any run: ascending deliveries, and every current row at or below its cursor either among them, as it stands, or landed behind the cursor. */
  lemma PollsAccountForRows(tr: seq<State>, i: nat, pid: string)
    requires Run(tr) && i < |tr|
    ensures Ascending(tr[i].delivered)
    ensures var s := tr[i];
      pid in s.table && Past(s.start, KeyOf(s.table[pid])) && !Past(s.cursor, KeyOf(s.table[pid])) ==>
        (s.table[pid] in s.delivered || s.table[pid] in s.missed)
  {
    RunInv(tr, i);
  }

  lemma {:induction false} RunGrows(tr: seq<State>, i: nat, j: nat)
    requires Run(tr) && i <= j < |tr|
    ensures tr[i].delivered <= tr[j].delivered && tr[i].missed <= tr[j].missed && tr[i].start == tr[j].start
    decreases j
  {
    if i < j {
      RunGrows(tr, i, j - 1);
      StepGrows(tr, j - 1, tr[j - 1], tr[j]);
    }
  }

  lemma StepGrows(tr: seq<State>, i: nat, s: State, s': State)
    requires Run(tr) && i + 1 < |tr| && s == tr[i] && s' == tr[i + 1]
    ensures s.delivered <= s'.delivered && s.missed <= s'.missed && s.start == s'.start
  {
    RunInv(tr, i);
    InvStep(tr, i, s, s');
  }

  /** The settle rule: a resolve not readable when a poll takes its bound is stamped after that bound. */
  predicate Settles(s: State, s': State) {
    forall pid <- s'.table ::
      (pid in s.table && s.table[pid] == s'.table[pid]) || s.upper.None? || Less(s.upper.value, OutcomeTime(s'.table[pid]))
  }

  /** Nothing current lies at or below the cursor undelivered. */
  predicate NothingLost(s: State) { forall pid <- s.table :: !Behind(s, s.table[pid]) }

  /** Nothing was missed, and what came late into the poll under way lies above its bound. */
  predicate LateIsAbove(s: State) {
    && s.missed == {}
    && (s.reading.Some? ==> s.upper.Some? && forall r <- s.reading.value.late :: Less(s.upper.value, OutcomeTime(r)))
  }

  lemma SettledLandsAhead(s: State, r: Row)
    requires Inv(s) && (s.upper.None? || Less(s.upper.value, OutcomeTime(r)))
    ensures !Behind(s, r)
  {
    if s.delivered != [] {
      var last := Last(s.delivered);
      assert last in s.delivered;
      LessTotal(OutcomeTime(last), s.upper.value);
      if Less(OutcomeTime(last), s.upper.value) { LessTransitive(OutcomeTime(last), s.upper.value, OutcomeTime(r)); }
      PastRendered(KeyOf(last), KeyOf(r));
    }
  }

  lemma SettledLand(s: State, r: Row)
    requires Inv(s) && LateIsAbove(s) && Enabled(s, Land(r)) && Settles(s, Apply(s, Land(r)))
    ensures LateIsAbove(Apply(s, Land(r)))
  {
    var s' := Apply(s, Land(r));
    assert s'.table[r.pid] == r;
    if Stands(s, r) {
      assert !Behind(s, s.table[r.pid]);
    } else {
      SettledLandsAhead(s, r);
    }
  }

  lemma SettledFinish(s: State, out: seq<Row>, saved: bool)
    requires Inv(s) && LateIsAbove(s) && Enabled(s, Finish(out, saved))
    ensures LateIsAbove(Apply(s, Finish(out, saved)))
  {
    if saved && out != [] {
      FinishKeepsInv(s, out, saved);
      var s' := Apply(s, Finish(out, saved));
      forall r | r in s.reading.value.late ensures !Behind(s', r) { SettledLandsAhead(s', r); }
      assert s'.missed == {};
    }
  }

  lemma SettledStep(s: State, s': State)
    requires Inv(s) && Next(s, s') && Settles(s, s') && LateIsAbove(s)
    ensures LateIsAbove(s')
  {
    var t :| Enabled(s, t) && s' == Apply(s, t);
    match t
    case Land(r) => SettledLand(s, r);
    case Finish(out, saved) => SettledFinish(s, out, saved);
    case _ =>
  }

  ghost predicate AllSettle(tr: seq<State>) { forall i :: 0 <= i < |tr| - 1 ==> Settles(tr[i], tr[i + 1]) }

  lemma LateStep(tr: seq<State>, i: nat, s: State, s': State)
    requires Run(tr) && i + 1 < |tr| && s == tr[i] && s' == tr[i + 1] && AllSettle(tr) && LateIsAbove(s)
    ensures LateIsAbove(s')
  {
    RunInv(tr, i);
    assert StepAt(tr, i) && Settles(s, s');
    SettledStep(s, s');
  }

  lemma {:induction false} RunLate(tr: seq<State>, k: nat)
    requires Run(tr) && k < |tr| && AllSettle(tr)
    ensures LateIsAbove(tr[k])
  {
    if k > 0 {
      RunLate(tr, k - 1);
      LateStep(tr, k - 1, tr[k - 1], tr[k]);
    }
  }

  /**
   Under the settle rule every current row at or below the cursor has been delivered, as it stands, although rows move
   from one partition to another while a poll reads them one by one.
   */
  lemma PollingLosesNothing(tr: seq<State>, k: nat)
    requires Run(tr) && k < |tr| && AllSettle(tr)
    ensures tr[k].missed == {} && NothingLost(tr[k])
  {
    RunInv(tr, k);
    RunLate(tr, k);
  }

  /** A resolve that becomes readable at or behind the cursor is never delivered. */
  lemma MissedForGood(tr: seq<State>, i: nat, j: nat, r: Row)
    requires Run(tr) && i < j < |tr| && Behind(tr[i], r) && Enabled(tr[i], Land(r)) && tr[i + 1] == Apply(tr[i], Land(r))
    ensures r !in tr[j].delivered
  {
    MissedStays(tr, i + 1, j, tr[i + 1], r);
  }

  lemma MissedStays(tr: seq<State>, i: nat, j: nat, s: State, r: Row)
    requires Run(tr) && i <= j < |tr| && s == tr[i] && r in s.missed
    ensures r !in tr[j].delivered
  {
    RunInv(tr, j);
    RunGrows(tr, i, j);
  }

  /** A row that comes late into a partition already read is never delivered once the poll's cursor lies at or past it. */
  lemma LateForGood(tr: seq<State>, k: nat, j: nat, out: seq<Row>, r: Row)
    requires Run(tr) && k < j < |tr| && Enabled(tr[k], Finish(out, true)) && out != [] && tr[k + 1] == Apply(tr[k], Finish(out, true))
    requires r in tr[k].reading.value.late && Behind(tr[k + 1], r)
    ensures r !in tr[j].delivered
  {
    LateIsMissed(tr[k], tr[k + 1], out, r);
    MissedStays(tr, k + 1, j, tr[k + 1], r);
  }

  lemma LateIsMissed(s: State, s': State, out: seq<Row>, r: Row)
    requires Enabled(s, Finish(out, true)) && out != [] && s' == Apply(s, Finish(out, true))
    requires r in s.reading.value.late && Behind(s', r)
    ensures r in s'.missed
  {
  }

  /**
   Five reads at five moments answer for the table as it stands at the last of them: a current row past the cursor and
   not above the bound is in the answer, or the answer is full and lies below it.
   */
  lemma SpreadReadCovers(tr: seq<State>, k: nat, out: seq<Row>, saved: bool, pid: string)
    requires Run(tr) && k < |tr| && AllSettle(tr) && Enabled(tr[k], Finish(out, saved))
    requires pid in tr[k].table && Needed(tr[k].table[pid], tr[k].cursor, tr[k].upper)
    ensures var r := tr[k].table[pid];
      r in out || (|out| == tr[k].reading.value.limit && forall o <- out :: KeyLess(KeyOf(o), KeyOf(r)))
  {
    RunInv(tr, k);
    RunLate(tr, k);
    SettledRowIsRead(tr[k], out, saved, pid);
    NeededIsAnswered(tr[k], out, saved, tr[k].table[pid]);
  }

  lemma SettledRowIsRead(s: State, out: seq<Row>, saved: bool, pid: string)
    requires Inv(s) && LateIsAbove(s) && Enabled(s, Finish(out, saved))
    requires pid in s.table && Settled(s.upper, KeyOf(s.table[pid]))
    ensures s.table[pid] in Got(s.reading.value)
  {
    assert ReadSoFar(s, s.table[pid].status);
  }

  lemma NeededIsAnswered(s: State, out: seq<Row>, saved: bool, r: Row)
    requires Inv(s) && Enabled(s, Finish(out, saved)) && r in Got(s.reading.value) && Needed(r, s.cursor, s.upper)
    ensures r in out || (|out| == s.reading.value.limit && forall o <- out :: KeyLess(KeyOf(o), KeyOf(r)))
  {
    var got := Got(s.reading.value);
    var need := NeededRows(got, s.cursor, s.upper);
    if |out| == |need| {
      FullMultiset(out, need, r);
    } else if r !in out {
      forall o | o in out ensures KeyLess(KeyOf(o), KeyOf(r)) {
        KeyLessTotal(KeyOf(o), KeyOf(r));
        if o.pid == r.pid { SamePack(got, o, r); }
      }
    }
  }

  /** A saved poll that returns fewer rows than its limit has delivered every settled row there is when it ends. */
  lemma ShortPollDrains(tr: seq<State>, k: nat, out: seq<Row>, j: nat, pid: string)
    requires Run(tr) && k < j < |tr| && AllSettle(tr)
    requires Enabled(tr[k], Finish(out, true)) && |out| < tr[k].reading.value.limit && tr[k + 1] == Apply(tr[k], Finish(out, true))
    requires pid in tr[k].table && Past(tr[k].start, KeyOf(tr[k].table[pid])) && Settled(tr[k].upper, KeyOf(tr[k].table[pid]))
    ensures tr[k].table[pid] in tr[j].delivered
  {
    ShortPollStep(tr, k, tr[k], tr[k + 1], out, pid);
    StillDelivered(tr, k + 1, j, tr[k + 1], tr[k].table[pid]);
  }

  lemma ShortPollStep(tr: seq<State>, k: nat, s: State, s': State, out: seq<Row>, pid: string)
    requires Run(tr) && k < |tr| && AllSettle(tr) && s == tr[k]
    requires Enabled(s, Finish(out, true)) && |out| < s.reading.value.limit && s' == Apply(s, Finish(out, true))
    requires pid in s.table && Past(s.start, KeyOf(s.table[pid])) && Settled(s.upper, KeyOf(s.table[pid]))
    ensures s.table[pid] in s'.delivered
  {
    PollingLosesNothing(tr, k);
    if Past(s.cursor, KeyOf(s.table[pid])) { SpreadReadCovers(tr, k, out, true, pid); }
  }

  lemma StillDelivered(tr: seq<State>, i: nat, j: nat, s: State, r: Row)
    requires Run(tr) && i <= j < |tr| && s == tr[i] && r in s.delivered
    ensures r in tr[j].delivered
  {
    RunGrows(tr, i, j);
  }

  /** No outcome is delivered twice, and the later of two outcomes of one pack is delivered later. */
  lemma DeliveredOnceInOrder(tr: seq<State>, k: nat, i: nat, j: nat)
    requires Run(tr) && k < |tr| && i < j < |tr[k].delivered|
    ensures tr[k].delivered[i] != tr[k].delivered[j]
    ensures !Less(OutcomeTime(tr[k].delivered[j]), OutcomeTime(tr[k].delivered[i]))
  {
    RunInv(tr, k);
    KeyLessAsymmetric(KeyOf(tr[k].delivered[i]), KeyOf(tr[k].delivered[j]));
  }

  /** Every delivered row stood in the table at the moment its partition was read. */
  lemma {:induction false} DeliveredWasCurrent(tr: seq<State>, k: nat, r: Row) returns (i: nat)
    requires Run(tr) && k < |tr| && r in tr[k].delivered
    ensures i < k && Stands(tr[i], r)
  {
    if r in tr[k - 1].delivered {
      i := DeliveredWasCurrent(tr, k - 1, r);
    } else {
      RunInv(tr, k - 1);
      FirstDelivery(tr, k - 1, tr[k - 1], tr[k], r);
      i := ReadWasCurrent(tr, k - 1, r);
    }
  }

  ghost predicate HasRead(s: State, r: Row) { s.reading.Some? && Paged(s.reading.value.parts) && r in Got(s.reading.value) }

  lemma FirstDelivery(tr: seq<State>, i: nat, s: State, s': State, r: Row)
    requires Run(tr) && i + 1 < |tr| && s == tr[i] && s' == tr[i + 1] && r in s'.delivered && r !in s.delivered
    ensures HasRead(s, r)
  {
    assert StepAt(tr, i);
  }

  lemma {:induction false} ReadWasCurrent(tr: seq<State>, k: nat, r: Row) returns (i: nat)
    requires Run(tr) && k < |tr| && HasRead(tr[k], r)
    ensures i < k && Stands(tr[i], r)
  {
    if HasRead(tr[k - 1], r) {
      i := ReadWasCurrent(tr, k - 1, r);
    } else {
      RunInv(tr, k - 1);
      FirstRead(tr, k - 1, tr[k - 1], tr[k], r);
      i := k - 1;
    }
  }

  lemma FirstRead(tr: seq<State>, i: nat, s: State, s': State, r: Row)
    requires Run(tr) && i + 1 < |tr| && s == tr[i] && s' == tr[i + 1] && Inv(s) && HasRead(s', r) && !HasRead(s, r)
    ensures Stands(s, r)
  {
    assert StepAt(tr, i);
    var t :| Enabled(s, t) && s' == Apply(s, t);
    NewlyRead(s, t, r);
  }

  lemma NewlyRead(s: State, t: Step, r: Row)
    requires Inv(s) && Enabled(s, t) && HasRead(Apply(s, t), r) && !HasRead(s, r)
    ensures Stands(s, r)
  {
    if t.Read? { GotMore(s.reading.value, t.pages); }
  }
}
