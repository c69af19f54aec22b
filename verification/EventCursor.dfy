/** The sync log: event ids taken from a counter, zero-padded text keys, and pages pulled from a numeric cursor. */
module EventCursor {
  import opened TextOrder

  /** Events are keyed by their id, padded to ten digits. */
  function Key(id: nat): string { Padded(10, id) }

  predicate Numbered(ids: set<nat>) { forall id <- ids :: id < Pow10(10) }

  /** What the query's key condition admits: rows whose text key is above the cursor's. */
  predicate Beyond(id: nat, cursor: nat) { Less(Key(cursor), Key(id)) }

  /** A page: rows past the cursor in text order, none skipped, at most limit of them, some when there are some. */
  ghost predicate IsPage(page: seq<nat>, visible: set<nat>, cursor: nat, limit: nat) {
    && |page| <= limit
    && (forall id <- page :: id in visible && Beyond(id, cursor))
    && (forall i, j :: 0 <= i < j < |page| ==> Less(Key(page[i]), Key(page[j])))
    && (forall id <- visible | Beyond(id, cursor) && id !in page ::
          page != [] && forall k <- page :: Less(Key(k), Key(id)))
  }

  /**
   pulled lists the events of pages whose cursor was saved; inbox holds every event applied, also those of a
   page cut short before its cursor was saved. missed records the events published at or below the cursor.
   */
  datatype State = State(counter: nat, inFlight: set<nat>, visible: set<nat>,
                         cursor: nat, pulled: seq<nat>, inbox: set<nat>, missed: set<nat>)

  datatype Step =
    | Number                              // put_event takes the next id
    | Publish(id: nat)                    // ... and its row becomes readable
    | Abandon(id: nat)                    // ... or the writer dies in between
    | Pull(page: seq<nat>, limit: nat)
    | PullCut(page: seq<nat>, limit: nat, done: nat)

  ghost predicate Enabled(s: State, t: Step) {
    match t
    case Number => s.counter + 1 < Pow10(10)
    case Publish(id) => id in s.inFlight
    case Abandon(id) => id in s.inFlight
    case Pull(page, limit) => limit > 0 && IsPage(page, s.visible, s.cursor, limit)
    case PullCut(page, limit, done) => limit > 0 && IsPage(page, s.visible, s.cursor, limit) && done <= |page|
  }

  function Items(page: seq<nat>): set<nat> { set id | id in page }

  function Apply(s: State, t: Step): State {
    match t
    case Number => s.(counter := s.counter + 1, inFlight := s.inFlight + {s.counter + 1})
    case Publish(id) =>
      s.(inFlight := s.inFlight - {id}, visible := s.visible + {id},
         missed := if id <= s.cursor then s.missed + {id} else s.missed)
    case Abandon(id) => s.(inFlight := s.inFlight - {id})
    case Pull(page, _) => Pulled(s, page)
    case PullCut(page, _, done) =>
      s.(inbox := s.inbox + Items(if done <= |page| then page[..done] else page))
  }

  predicate Init(s: State) { s == State(0, {}, {}, 0, [], {}, {}) }

  ghost predicate Next(s: State, s': State) { exists t :: Enabled(s, t) && s' == Apply(s, t) }

  ghost predicate Run(tr: seq<State>) {
    && |tr| > 0 && Init(tr[0])
    && forall i :: 0 <= i < |tr| - 1 ==> StepAt(tr, i)
  }

  ghost predicate StepAt(tr: seq<State>, i: nat)
    requires i + 1 < |tr|
  {
    Next(tr[i], tr[i + 1])
  }

  predicate Ascending(p: seq<nat>) { forall i, j :: 0 <= i < j < |p| ==> p[i] < p[j] }

  /** What repeated pulls keep: everything readable at or below the cursor was pulled once, or was missed. */
  ghost predicate Inv(s: State) {
    && (forall id <- s.inFlight + s.visible :: id <= s.counter) && s.inFlight !! s.visible
    && s.counter < Pow10(10) && s.cursor <= s.counter
    && Ascending(s.pulled)
    && s.missed <= s.visible && s.missed !! Items(s.pulled)
    && (forall id <- s.pulled :: id in s.visible && id <= s.cursor)
    && (forall id <- s.missed :: id <= s.cursor)
    && (forall id <- s.visible | id <= s.cursor :: id in s.pulled || id in s.missed)
    && Items(s.pulled) <= s.inbox <= s.visible
  }

  lemma KeyOrder(m: nat, n: nat)
    requires m < Pow10(10) && n < Pow10(10)
    ensures Less(Key(m), Key(n)) <==> m < n
  {
    PaddedOrderExact(10, if m < n then n else m);
  }

  ghost predicate NumericPage(page: seq<nat>, visible: set<nat>, cursor: nat) {
    && Ascending(page)
    && (forall id <- page :: id in visible && cursor < id)
    && (forall id <- visible | cursor < id && id !in page :: page != [] && page[|page| - 1] < id)
  }

  /** Below 10^10 a page is the next visible ids in numeric order. */
  lemma PageIsNumeric(page: seq<nat>, visible: set<nat>, cursor: nat, limit: nat)
    requires IsPage(page, visible, cursor, limit) && Numbered(visible) && cursor < Pow10(10)
    ensures NumericPage(page, visible, cursor)
  {
    forall i, j | 0 <= i < j < |page| ensures page[i] < page[j] { KeyOrder(page[i], page[j]); }
    forall id | id in page ensures cursor < id { KeyOrder(cursor, id); }
    forall id | id in visible && cursor < id && id !in page ensures page != [] && page[|page| - 1] < id {
      KeyOrder(cursor, id);
      assert Less(Key(page[|page| - 1]), Key(id));
      KeyOrder(page[|page| - 1], id);
    }
  }

  /** A whole page moves the cursor to its last id. */
  function Pulled(s: State, page: seq<nat>): State {
    s.(cursor := if page == [] then s.cursor else page[|page| - 1],
       pulled := s.pulled + page, inbox := s.inbox + Items(page))
  }

  lemma PullKeepsInv(s: State, page: seq<nat>)
    requires Inv(s) && NumericPage(page, s.visible, s.cursor)
    ensures Inv(Pulled(s, page)) && s.cursor <= Pulled(s, page).cursor
  {
    var s' := Pulled(s, page);
    forall i, j | 0 <= i < j < |s'.pulled| ensures s'.pulled[i] < s'.pulled[j] {
      assert i < |s.pulled| ==> s.pulled[i] in s.pulled;
      assert j >= |s.pulled| ==> page[j - |s.pulled|] in page;
    }
    if page != [] {
      assert page[|page| - 1] in page;
      assert forall id <- page :: id <= s'.cursor;
    }
    assert forall id <- s.visible | id <= s'.cursor :: s.cursor < id ==> id in page;
  }

  lemma NextKeepsInv(s: State, s': State)
    requires Inv(s) && Next(s, s')
    ensures Inv(s') && s.missed <= s'.missed && s.pulled <= s'.pulled && s.cursor <= s'.cursor
  {
    var t :| Enabled(s, t) && s' == Apply(s, t);
    if t.Pull? {
      PageIsNumeric(t.page, s.visible, s.cursor, t.limit);
      PullKeepsInv(s, t.page);
    } else if t.PullCut? {
      assert Items(t.page[..t.done]) <= s.visible;
    }
  }

  lemma {:induction false} RunInv(tr: seq<State>, i: nat)
    requires Run(tr) && i < |tr|
    ensures Inv(tr[i])
  {
    if i > 0 {
      RunInv(tr, i - 1);
      InvStep(tr, i - 1, tr[i - 1], tr[i]);
    }
  }

  lemma InvStep(tr: seq<State>, i: nat, s: State, s': State)
    requires Run(tr) && i + 1 < |tr| && s == tr[i] && s' == tr[i + 1] && Inv(s)
    ensures Inv(s') && s.missed <= s'.missed && s.pulled <= s'.pulled && s.cursor <= s'.cursor
  {
    assert StepAt(tr, i);
    NextKeepsInv(s, s');
  }

  lemma {:induction false} RunGrows(tr: seq<State>, i: nat, j: nat)
    requires Run(tr) && i <= j < |tr|
    ensures tr[i].missed <= tr[j].missed && tr[i].pulled <= tr[j].pulled && tr[i].cursor <= tr[j].cursor
    decreases j
  {
    if i < j {
      RunGrows(tr, i, j - 1);
      StepGrows(tr, j - 1, tr[j - 1], tr[j]);
    }
  }

  lemma StepGrows(tr: seq<State>, i: nat, s: State, s': State)
    requires Run(tr) && i + 1 < |tr| && s == tr[i] && s' == tr[i + 1]
    ensures s.missed <= s'.missed && s.pulled <= s'.pulled && s.cursor <= s'.cursor
  {
    RunInv(tr, i);
    InvStep(tr, i, s, s');
  }

  /** What a step made readable lies above the cursor. */
  predicate PublishesAhead(s: State, s': State) {
    forall id <- s'.visible :: id in s.visible || s.cursor < id
  }

  /** What a step made readable lies above everything readable before. */
  predicate PublishesInOrder(s: State, s': State) {
    forall id, before :: id in s'.visible && before in s.visible ==> id in s.visible || before < id
  }

  predicate NoGap(s: State) {
    forall id <- s.visible :: id <= s.cursor ==> id in s.pulled
  }

  /** A step that publishes only ahead of the cursor misses nothing. */
  lemma AheadMissesNothing(tr: seq<State>, i: nat, s: State, s': State)
    requires Run(tr) && i + 1 < |tr| && s == tr[i] && s' == tr[i + 1] && PublishesAhead(s, s')
    ensures s'.missed == s.missed
  {
    RunInv(tr, i);
    assert StepAt(tr, i);
  }

  lemma NewIsAheadOrMissed(tr: seq<State>, i: nat, s: State, s': State, id: nat)
    requires Run(tr) && i + 1 < |tr| && s == tr[i] && s' == tr[i + 1] && id in s'.visible && id !in s.visible
    ensures s.cursor < id || id in s'.missed
  {
    assert StepAt(tr, i);
  }

  lemma GapFreeStep(tr: seq<State>, i: nat, s: State, s': State)
    requires Run(tr) && i + 1 < |tr| && s == tr[i] && s' == tr[i + 1] && NoGap(s')
    ensures PublishesAhead(s, s')
  {
    RunInv(tr, i + 1);
    StepGrows(tr, i, s, s');
    forall id | id in s'.visible && id !in s.visible ensures s.cursor < id {
      NewIsAheadOrMissed(tr, i, s, s', id);
      assert id in s'.pulled ==> id in Items(s'.pulled);
    }
  }

  lemma {:induction false} MissedOnlyBehind(tr: seq<State>, k: nat)
    requires Run(tr) && k < |tr|
    requires forall i :: 0 <= i < |tr| - 1 ==> PublishesAhead(tr[i], tr[i + 1])
    ensures tr[k].missed == {}
  {
    if k > 0 {
      MissedOnlyBehind(tr, k - 1);
      assert PublishesAhead(tr[k - 1], tr[k - 1 + 1]);
      AheadMissesNothing(tr, k - 1, tr[k - 1], tr[k]);
    }
  }

  /** Pulling never leaves a gap exactly when no event becomes readable behind the cursor of its moment. */
  lemma GapFreeExactly(tr: seq<State>)
    requires Run(tr)
    ensures (forall i :: 0 <= i < |tr| ==> NoGap(tr[i])) <==> (forall i :: 0 <= i < |tr| - 1 ==> PublishesAhead(tr[i], tr[i + 1]))
  {
    if forall i :: 0 <= i < |tr| - 1 ==> PublishesAhead(tr[i], tr[i + 1]) {
      forall i | 0 <= i < |tr| ensures NoGap(tr[i]) {
        RunInv(tr, i);
        MissedOnlyBehind(tr, i);
      }
    }
    if forall i :: 0 <= i < |tr| ==> NoGap(tr[i]) {
      forall i | 0 <= i < |tr| - 1 ensures PublishesAhead(tr[i], tr[i + 1]) {
        GapFreeStep(tr, i, tr[i], tr[i + 1]);
      }
    }
  }

  /** An event published behind the cursor is never pulled. */
  lemma MissedForGood(tr: seq<State>, i: nat, j: nat, id: nat)
    requires Run(tr) && 0 < i <= j < |tr| && id in tr[i].visible && id !in tr[i - 1].visible && id <= tr[i - 1].cursor
    ensures id <= tr[j].cursor && id !in tr[j].pulled
  {
    NewIsAheadOrMissed(tr, i - 1, tr[i - 1], tr[i], id);
    RunInv(tr, j);
    RunGrows(tr, i - 1, i);
    RunGrows(tr, i, j);
    assert id !in Items(tr[j].pulled);
  }

  predicate CursorReadable(s: State) { (s.cursor == 0 || s.cursor in s.visible) && 0 !in s.inFlight + s.visible }

  lemma CursorStep(tr: seq<State>, i: nat, s: State, s': State)
    requires Run(tr) && i + 1 < |tr| && s == tr[i] && s' == tr[i + 1] && CursorReadable(s)
    ensures CursorReadable(s')
  {
    RunInv(tr, i);
    assert StepAt(tr, i);
  }

  lemma {:induction false} CursorIsReadable(tr: seq<State>, i: nat)
    requires Run(tr) && i < |tr|
    ensures CursorReadable(tr[i])
  {
    if i > 0 {
      CursorIsReadable(tr, i - 1);
      CursorStep(tr, i - 1, tr[i - 1], tr[i]);
    }
  }

  lemma DropLast(p: seq<nat>)
    requires p != [] && Ascending(p)
    ensures Items(p[..|p| - 1]) == Items(p) - {p[|p| - 1]}
  {
  }

  /** Two enumerations of one set in ascending order are the same. */
  lemma {:induction false} AscendingUnique(p: seq<nat>, q: seq<nat>)
    requires Ascending(p) && Ascending(q) && Items(p) == Items(q)
    ensures p == q
  {
    assert p != [] ==> p[|p| - 1] in Items(q);
    assert q != [] ==> q[|q| - 1] in Items(p);
    if p != [] {
      assert p[|p| - 1] == q[|q| - 1];
      DropLast(p);
      DropLast(q);
      AscendingUnique(p[..|p| - 1], q[..|q| - 1]);
      assert p == p[..|p| - 1] + [p[|p| - 1]] && q == q[..|q| - 1] + [q[|q| - 1]];
    }
  }

  lemma InOrderIsAhead(s: State, s': State)
    requires CursorReadable(s) && CursorReadable(s') && PublishesInOrder(s, s')
    ensures PublishesAhead(s, s')
  {
  }

  /**
   When ids become readable in order, pulls enumerate the log exactly once with no gap, whatever the page
   sizes and however often a page is cut short: once a pull returns nothing, pulled is the sorted log.
   */
  lemma InOrderLogIsEnumerated(tr: seq<State>, log: seq<nat>, limit: nat)
    requires Run(tr) && forall i :: 0 <= i < |tr| - 1 ==> PublishesInOrder(tr[i], tr[i + 1])
    requires Ascending(log) && Items(log) == tr[|tr| - 1].visible
    requires IsPage([], tr[|tr| - 1].visible, tr[|tr| - 1].cursor, limit)
    ensures tr[|tr| - 1].pulled == log && tr[|tr| - 1].inbox == Items(log)
  {
    forall i | 0 <= i < |tr| - 1 ensures PublishesAhead(tr[i], tr[i + 1]) {
      CursorIsReadable(tr, i);
      CursorIsReadable(tr, i + 1);
      InOrderIsAhead(tr[i], tr[i + 1]);
    }
    var s := tr[|tr| - 1];
    RunInv(tr, |tr| - 1);
    MissedOnlyBehind(tr, |tr| - 1);
    PageIsNumeric([], s.visible, s.cursor, limit);
    assert Items(s.pulled) == s.visible;
    AscendingUnique(s.pulled, log);
  }

  /** Numbering and writing an event are two steps, so two writers can leave a gap: 2 is pulled before 1 is readable. */
  lemma TwoWritersLeaveAGap() returns (tr: seq<State>)
    ensures Run(tr) && !NoGap(tr[|tr| - 1]) && tr[|tr| - 1].pulled == [2] && tr[|tr| - 1].visible == {1, 2}
  {
    var s0 := State(0, {}, {}, 0, [], {}, {});
    var s1 := Apply(s0, Number);
    var s2 := Apply(s1, Number);
    var s3 := Apply(s2, Publish(2));
    KeyOrder(0, 2);
    assert IsPage([2], s3.visible, s3.cursor, 500);
    assert Enabled(s3, Pull([2], 500));
    var s4 := Apply(s3, Pull([2], 500));
    var s5 := Apply(s4, Publish(1));
    assert s5.visible == {1, 2};
    tr := RunOn([s0], s0, Number, s1);
    tr := RunOn(tr, s1, Number, s2);
    tr := RunOn(tr, s2, Publish(2), s3);
    tr := RunOn(tr, s3, Pull([2], 500), s4);
    tr := RunOn(tr, s4, Publish(1), s5);
  }

  /** One more step makes a longer run. */
  lemma RunOn(tr: seq<State>, s: State, t: Step, s': State) returns (longer: seq<State>)
    requires Run(tr) && tr[|tr| - 1] == s && Enabled(s, t) && s' == Apply(s, t)
    ensures Run(longer) && longer == tr + [s']
  {
    longer := tr + [s'];
    assert Next(s, s');
    forall i | 0 <= i < |longer| - 1 ensures StepAt(longer, i) {
      if i < |tr| - 1 { assert StepAt(tr, i); }
    }
  }
}
