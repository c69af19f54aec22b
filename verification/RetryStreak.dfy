/** The scheduler's 24-hour rule: how the streak of unexpected launch errors is rebuilt from audit rows, and when it fails a campaign. */
module RetryStreak {
  import opened PackIds

  const Second := 1_000_000                    // clock readings are microseconds
  const Day := 86_400                          // in seconds
  const GiveUpAfter := 86_400_000_000          // 24 hours in microseconds

  /** streakStart is in whole seconds; a row written for a retryable refusal, or one that does not parse, has none. */
  datatype Details = Details(error: string, streakStart: Option<int>, updatedAt: int)

  /** One "retrying" audit row and the second it was written. */
  datatype Row = Row(details: Details, at: int)

  datatype Failure = Failure(error: string, marked: bool)

  datatype Status = Scheduled | Failed | Other

  datatype Camp = Camp(status: Status, scheduledFor: Option<int>, updatedAt: int, retries: seq<Row>, failures: seq<Failure>)

  datatype Kind = Retryable | Refusal | Unexpected

  /** A launch attempt that raised: the kind and text of the error, the scheduler's clock, the database's clock, and the new updated_at should it be written. */
  datatype Attempt = Attempt(kind: Kind, reason: string, now: int, dbNow: int, stamp: int)

  function Floor(t: int): int { t / Second }

  /** The newest row that carries a streak. */
  function Newest(rows: seq<Row>): Option<Details> {
    if rows == [] then None
    else if rows[|rows| - 1].details.streakStart.Some? then Some(rows[|rows| - 1].details)
    else Newest(rows[..|rows| - 1])
  }

  /** When the current streak began. */
  function Begun(c: Camp, now: int): int {
    match Newest(c.retries)
    case Some(d) => if d.updatedAt == c.updatedAt && d.streakStart.Some? then d.streakStart.value * Second else now
    case None => now
  }

  predicate Seen(rows: seq<Row>, d: Details, dbNow: int) { exists r <- rows :: r.details == d && r.at >= dbNow - Day }

  function Noted(c: Camp, d: Details, dbNow: int): Camp {
    if Seen(c.retries, d, dbNow) then c else c.(retries := c.retries + [Row(d, dbNow)])
  }

  predicate Due(c: Camp, dbNow: int) { c.status == Scheduled && c.scheduledFor.Some? && c.scheduledFor.value <= dbNow }

  function Refused(c: Camp, error: string, since: Option<int>, dbNow: int, stamp: int): Camp {
    var moved := Due(c, dbNow) && (since.None? || c.updatedAt == since.value);
    var c' := if moved then c.(status := Failed, updatedAt := stamp) else c;
    c'.(failures := c'.failures + [Failure(error, moved)])
  }

  /** What one failed attempt does to the campaign. */
  function Handled(c: Camp, a: Attempt): Camp {
    if a.kind == Refusal || c.status != Scheduled then Refused(c, a.reason, None, a.dbNow, a.stamp)
    else if a.kind == Retryable then Noted(c, Details(a.reason, None, c.updatedAt), a.dbNow)
    else if a.now - Begun(c, a.now) >= GiveUpAfter then Refused(c, a.reason, Some(c.updatedAt), a.dbNow, a.stamp)
    else Noted(c, Details(a.reason, Some(Floor(Begun(c, a.now))), c.updatedAt), a.dbNow)
  }

  class CampaignRows {
    var status: Status
    var scheduledFor: Option<int>
    var updatedAt: int
    var retries: seq<Row>
    var failures: seq<Failure>

    function View(): Camp
      reads this
    {
      Camp(status, scheduledFor, updatedAt, retries, failures)
    }

    constructor (c: Camp)
      ensures View() == c
    {
      status, scheduledFor, updatedAt, retries, failures := c.status, c.scheduledFor, c.updatedAt, c.retries, c.failures;
    }

    method Streak(now: int) returns (begun: int, since: int)
      ensures begun == Begun(View(), now) && since == updatedAt
    {
      since := updatedAt;
      var i := |retries|;
      assert retries[..i] == retries;
      while i > 0
        invariant 0 <= i <= |retries|
        invariant Newest(retries) == Newest(retries[..i])
      {
        assert retries[..i][..i - 1] == retries[..i - 1];
        var d := retries[i - 1].details;
        if d.streakStart.Some? {
          return if d.updatedAt == since then d.streakStart.value * Second else now, since;
        }
        i := i - 1;
      }
      return now, since;
    }

    method NoteRetry(d: Details, dbNow: int)
      modifies this`retries
      ensures View() == Noted(old(View()), d, dbNow)
    {
      if !(exists r <- retries :: r.details == d && r.at >= dbNow - Day) {
        retries := retries + [Row(d, dbNow)];
      }
    }

    method Refuse(error: string, since: Option<int>, dbNow: int, stamp: int) returns (moved: bool)
      modifies this
      ensures View() == Refused(old(View()), error, since, dbNow, stamp)
      ensures moved <==> old(status) == Scheduled && old(scheduledFor).Some? && old(scheduledFor).value <= dbNow
                         && (since.None? || old(updatedAt) == since.value)
      ensures if moved then status == Failed && updatedAt == stamp else status == old(status) && updatedAt == old(updatedAt)
      ensures failures == old(failures) + [Failure(error, moved)] && retries == old(retries) && scheduledFor == old(scheduledFor)
    {
      moved := status == Scheduled && scheduledFor.Some? && scheduledFor.value <= dbNow && (since.None? || updatedAt == since.value);
      if moved {
        status, updatedAt := Failed, stamp;
      }
      failures := failures + [Failure(error, moved)];
    }

    method OnError(a: Attempt)
      modifies this
      ensures View() == Handled(old(View()), a)
    {
      var retry := a.kind == Retryable || a.kind == Unexpected;
      if retry && status == Scheduled {
        if a.kind == Retryable {
          var _, since := Streak(a.now);
          NoteRetry(Details(a.reason, None, since), a.dbNow);
        } else {
          var begun, since := Streak(a.now);
          if a.now - begun >= GiveUpAfter {
            var _ := Refuse(a.reason, Some(since), a.dbNow, a.stamp);
          } else {
            NoteRetry(Details(a.reason, Some(Floor(begun)), since), a.dbNow);
          }
        }
      } else {
        var _ := Refuse(a.reason, None, a.dbNow, a.stamp);
      }
    }
  }

  // Runs of ticks

  /** A tick only launches a campaign that is scheduled and due. */
  function Tick(c: Camp, a: Attempt): Camp { if Due(c, a.dbNow) then Handled(c, a) else c }

  function Ticks(c: Camp, run: seq<Attempt>): Camp {
    if run == [] then c else Tick(Ticks(c, run[..|run| - 1]), run[|run| - 1])
  }

  function FirstUnexpected(run: seq<Attempt>): Option<int> {
    if run == [] then None
    else
      var t := FirstUnexpected(run[..|run| - 1]);
      if t.Some? then t else if run[|run| - 1].kind == Unexpected then Some(run[|run| - 1].now) else None
  }

  /** The i-th attempt is an unexpected error at least 24 hours after the second in which the first one happened. */
  predicate GivesUp(run: seq<Attempt>, i: nat)
    requires i < |run|
  {
    && run[i].kind == Unexpected && FirstUnexpected(run[..i]).Some?
    && run[i].now >= Floor(FirstUnexpected(run[..i]).value) * Second + GiveUpAfter
  }

  /** Attempts between operator actions, on a campaign that is due throughout. */
  ghost predicate Undisturbed(c: Camp, run: seq<Attempt>) {
    && c.status == Scheduled && c.scheduledFor.Some?
    && (forall r <- c.retries :: r.details.streakStart.Some? ==> r.details.updatedAt != c.updatedAt)
    && (forall a <- run :: a.kind != Refusal && c.scheduledFor.value <= a.dbNow)
  }

  lemma {:induction false} NewestIsARow(rows: seq<Row>)
    ensures Newest(rows).Some? ==> Newest(rows).value.streakStart.Some? && exists r :: r in rows && r.details == Newest(rows).value
    ensures Newest(rows).None? ==> forall r <- rows :: r.details.streakStart.None?
  {
    if rows != [] {
      var last := rows[|rows| - 1];
      assert rows == rows[..|rows| - 1] + [last];
      NewestIsARow(rows[..|rows| - 1]);
      assert last in rows;
      if last.details.streakStart.None? && Newest(rows).Some? {
        var r :| r in rows[..|rows| - 1] && r.details == Newest(rows).value;
        assert r in rows;
      }
    }
  }

  /** The state the audit rows keep while the campaign is retried: every streak row of this updated_at names the first error's second. */
  ghost predicate Waiting(c: Camp, c0: Camp, first: Option<int>) {
    && c.status == Scheduled && c.scheduledFor == c0.scheduledFor && c.updatedAt == c0.updatedAt && c.failures == c0.failures
    && (first.None? ==> forall r <- c.retries :: r.details.streakStart.Some? ==> r.details.updatedAt != c.updatedAt)
    && (first.Some? ==>
          && Newest(c.retries).Some? && Newest(c.retries).value.updatedAt == c.updatedAt
          && Newest(c.retries).value.streakStart == Some(Floor(first.value)))
  }

  lemma BegunWhileWaiting(c: Camp, c0: Camp, first: Option<int>, now: int)
    requires Waiting(c, c0, first)
    ensures Begun(c, now) == if first.Some? then Floor(first.value) * Second else now
  {
    NewestIsARow(c.retries);
  }

  /** A retryable refusal neither starts nor moves the streak. */
  lemma RetryableKeepsWaiting(c: Camp, c0: Camp, first: Option<int>, a: Attempt)
    requires Waiting(c, c0, first) && a.kind == Retryable
    ensures Waiting(Handled(c, a), c0, first)
  {
  }

  lemma UnexpectedStep(c: Camp, c0: Camp, first: Option<int>, a: Attempt)
    requires Waiting(c, c0, first) && a.kind == Unexpected && Due(c, a.dbNow)
    ensures var begun := if first.Some? then Floor(first.value) * Second else a.now;
      if a.now - begun >= GiveUpAfter
      then Handled(c, a).status == Failed && Handled(c, a).failures == c0.failures + [Failure(a.reason, true)]
      else Waiting(Handled(c, a), c0, if first.Some? then first else Some(a.now))
  {
    BegunWhileWaiting(c, c0, first, a.now);
    var begun := Begun(c, a.now);
    if a.now - begun < GiveUpAfter {
      var d := Details(a.reason, Some(Floor(begun)), c.updatedAt);
      var c' := Noted(c, d, a.dbNow);
      assert Handled(c, a) == c';
      assert first.None? ==> !Seen(c.retries, d, a.dbNow);
      if c' != c { assert c'.retries[..|c'.retries| - 1] == c.retries; }
    }
  }

  function FirstGiveUp(run: seq<Attempt>): (r: Option<nat>)
    ensures r.Some? ==> r.value < |run|
  {
    if run == [] then None
    else
      var r := FirstGiveUp(run[..|run| - 1]);
      if r.Some? then r else if GivesUp(run, |run| - 1) then Some(|run| - 1) else None
  }

  lemma GivesUpInPrefix(run: seq<Attempt>, n: nat, i: nat)
    requires i < n <= |run|
    ensures GivesUp(run[..n], i) == GivesUp(run, i)
  {
    assert run[..n][..i] == run[..i];
  }

  lemma {:induction false} FirstGiveUpIsLeast(run: seq<Attempt>)
    ensures match FirstGiveUp(run)
      case Some(i) => GivesUp(run, i) && forall j: nat :: j < i ==> !GivesUp(run, j)
      case None => forall j: nat :: j < |run| ==> !GivesUp(run, j)
  {
    if run != [] {
      var n := |run| - 1;
      FirstGiveUpIsLeast(run[..n]);
      forall j: nat | j < n ensures GivesUp(run[..n], j) == GivesUp(run, j) { GivesUpInPrefix(run, n, j); }
    }
  }

  /**
   While nobody touches the campaign, the streak rebuilt from the rows starts in the second of the first
   unexpected error; the campaign is failed, with one marked failure row, by the first attempt that gives up, and by no other.
   */
  lemma {:induction false} TwentyFourHourRule(c0: Camp, run: seq<Attempt>)
    requires Undisturbed(c0, run)
    ensures match FirstGiveUp(run)
      case Some(i) => Ticks(c0, run).status == Failed && Ticks(c0, run).failures == c0.failures + [Failure(run[i].reason, true)]
      case None => Waiting(Ticks(c0, run), c0, FirstUnexpected(run))
  {
    if run != [] {
      var n := |run| - 1;
      var before, a := Ticks(c0, run[..n]), run[n];
      TwentyFourHourRule(c0, run[..n]);
      if FirstGiveUp(run[..n]).None? {
        assert a in run;
        if a.kind == Retryable {
          RetryableKeepsWaiting(before, c0, FirstUnexpected(run[..n]), a);
        } else {
          UnexpectedStep(before, c0, FirstUnexpected(run[..n]), a);
        }
      }
    }
  }

  lemma {:induction false} FailedStaysFailed(c: Camp, run: seq<Attempt>)
    requires c.status == Failed
    ensures Ticks(c, run) == c
  {
    if run != [] { FailedStaysFailed(c, run[..|run| - 1]); }
  }

  lemma {:induction false} TicksJoin(c: Camp, run: seq<Attempt>, more: seq<Attempt>)
    ensures Ticks(c, run + more) == Ticks(Ticks(c, run), more)
  {
    if more == [] {
      assert run + more == run;
    } else {
      assert (run + more)[..|run + more| - 1] == run + more[..|more| - 1];
      TicksJoin(c, run, more[..|more| - 1]);
    }
  }

  /**
   An attempt the launch refuses fails the campaign at once, whatever streak there is: with its reason, one marked
   failure row and no retry row; whatever comes later changes nothing any more.
   */
  lemma RefusalFailsAtOnce(c0: Camp, run: seq<Attempt>, a: Attempt, more: seq<Attempt>)
    requires Undisturbed(c0, run) && FirstGiveUp(run).None? && a.kind == Refusal
    requires c0.scheduledFor.Some? && c0.scheduledFor.value <= a.dbNow
    ensures var c := Ticks(c0, run + [a] + more);
      && c.status == Failed && c.updatedAt == a.stamp && c.failures == c0.failures + [Failure(a.reason, true)]
      && c.retries == Ticks(c0, run).retries
  {
    TwentyFourHourRule(c0, run);
    TicksJoin(c0, run + [a], more);
    assert (run + [a])[..|run|] == run;
    FailedStaysFailed(Ticks(c0, run + [a]), more);
  }

  /** A retry is noted unless the same was noted less than a day, or a day to the second, before. */
  lemma NotedExactly(c: Camp, d: Details, dbNow: int)
    ensures var c' := Noted(c, d, dbNow);
      && (c' == c.(retries := c.retries + [Row(d, dbNow)]) <==> forall r <- c.retries :: r.details == d ==> dbNow - r.at > 86_400)
      && (c' == c <==> exists r <- c.retries :: r.details == d && dbNow - r.at <= 86_400)
  {
    assert c.retries + [Row(d, dbNow)] != c.retries;
  }

  /**
   Every attempt that does not fail the campaign is on record, then or from less than a day before: with its error, and
   for an unexpected error with the second of the first one.
   */
  lemma AttemptIsNoted(c0: Camp, run: seq<Attempt>, a: Attempt)
    requires Undisturbed(c0, run + [a]) && FirstGiveUp(run + [a]).None?
    ensures exists r <- Ticks(c0, run + [a]).retries ::
      && r.details.error == a.reason && r.details.updatedAt == c0.updatedAt && a.dbNow - r.at <= 86_400
      && r.details.streakStart == if a.kind == Unexpected then Some(FirstUnexpected(run + [a]).value / 1_000_000) else None
  {
    var all := run + [a];
    assert all[..|run|] == run && a in all && forall x <- run :: x in all;
    TwentyFourHourRule(c0, run);
    WaitingNotes(Ticks(c0, run), c0, FirstUnexpected(run), a);
  }

  lemma WaitingNotes(c: Camp, c0: Camp, first: Option<int>, a: Attempt)
    requires Waiting(c, c0, first) && Due(c, a.dbNow) && a.kind != Refusal
    requires a.kind == Unexpected && first.Some? ==> a.now < Floor(first.value) * Second + GiveUpAfter
    ensures exists r <- Handled(c, a).retries ::
      && r.details.error == a.reason && r.details.updatedAt == c0.updatedAt && a.dbNow - r.at <= 86_400
      && r.details.streakStart == if a.kind == Unexpected then Some((if first.Some? then first.value else a.now) / 1_000_000) else None
  {
    BegunWhileWaiting(c, c0, first, a.now);
    var d := Details(a.reason, if a.kind == Unexpected then Some(Floor(Begun(c, a.now))) else None, c.updatedAt);
    assert Handled(c, a) == Noted(c, d, a.dbNow);
    NotedIsThere(c, d, a.dbNow);
  }

  lemma NotedIsThere(c: Camp, d: Details, dbNow: int)
    ensures exists r <- Noted(c, d, dbNow).retries :: r.details == d && dbNow - r.at <= 86_400
  {
    if !Seen(c.retries, d, dbNow) { assert Row(d, dbNow) in Noted(c, d, dbNow).retries; }
  }

  function OnlyUnexpected(run: seq<Attempt>): seq<Attempt> {
    if run == [] then []
    else OnlyUnexpected(run[..|run| - 1]) + if run[|run| - 1].kind == Unexpected then [run[|run| - 1]] else []
  }

  lemma {:induction false} RetryablesDropOut(run: seq<Attempt>)
    requires forall a <- run :: a.kind != Refusal
    ensures FirstUnexpected(OnlyUnexpected(run)) == FirstUnexpected(run)
    ensures FirstGiveUp(OnlyUnexpected(run)).Some? <==> FirstGiveUp(run).Some?
    ensures FirstGiveUp(run).Some? ==> OnlyUnexpected(run)[FirstGiveUp(OnlyUnexpected(run)).value] == run[FirstGiveUp(run).value]
    ensures forall a <- OnlyUnexpected(run) :: a in run
  {
    if run != [] {
      var n := |run| - 1;
      RetryablesDropOut(run[..n]);
      var short, a := OnlyUnexpected(run[..n]), run[n];
      assert a in run;
      if a.kind == Unexpected {
        assert OnlyUnexpected(run)[..|short|] == short;
      } else {
        assert OnlyUnexpected(run) == short;
      }
    }
  }

  /** Retryable refusals neither start, reset nor end the streak: without them the campaign ends the same way. */
  lemma RetryablesDoNotMatter(c0: Camp, run: seq<Attempt>)
    requires Undisturbed(c0, run)
    ensures Ticks(c0, OnlyUnexpected(run)).status == Ticks(c0, run).status
    ensures Ticks(c0, OnlyUnexpected(run)).failures == Ticks(c0, run).failures
  {
    RetryablesDropOut(run);
    TwentyFourHourRule(c0, run);
    TwentyFourHourRule(c0, OnlyUnexpected(run));
  }

  /** Giving up takes 24 hours from the first unexpected error, less at most the part of a second it was floored by. */
  lemma GivesUpAtADay(run: seq<Attempt>, i: nat, t0: int)
    requires i < |run| && run[i].kind == Unexpected && FirstUnexpected(run[..i]) == Some(t0)
    ensures run[i].now - t0 >= GiveUpAfter ==> GivesUp(run, i)
    ensures GivesUp(run, i) <==> run[i].now - t0 >= GiveUpAfter - t0 % Second
  {
  }

  /** So a campaign can be failed before 24 hours are over: a first error at 0.9 s, a second at 24 hours sharp. */
  lemma FailsEarly(c0: Camp) returns (run: seq<Attempt>)
    requires c0.status == Scheduled && c0.scheduledFor == Some(0) && c0.retries == []
    ensures |run| == 2 && run[1].now - run[0].now < GiveUpAfter && Ticks(c0, run).status == Failed
  {
    var a, b := Attempt(Unexpected, "boom", 900_000, 0, 0), Attempt(Unexpected, "boom", 86_400_000_000, Day, Day);
    run := [a, b];
    assert run[..1] == [a] && [a][..0] == [];
    assert FirstUnexpected([]) == None && FirstUnexpected([a]) == Some(900_000);
    assert GivesUp(run, 1);
    assert FirstGiveUp(run).Some?;
    TwentyFourHourRule(c0, run);
  }

  /** Rows that say the same are more than a day apart. */
  predicate Spaced(rows: seq<Row>) {
    forall i, j :: 0 <= i < j < |rows| && rows[i].details == rows[j].details ==> rows[i].at + Day < rows[j].at
  }

  lemma {:induction false} NotedOnceADay(c0: Camp, run: seq<Attempt>)
    requires Spaced(c0.retries)
    ensures Spaced(Ticks(c0, run).retries)
  {
    if run != [] {
      var before, a := Ticks(c0, run[..|run| - 1]), run[|run| - 1];
      NotedOnceADay(c0, run[..|run| - 1]);
      if Due(before, a.dbNow) { HandledKeepsSpacing(before, a); }
    }
  }

  lemma HandledKeepsSpacing(c: Camp, a: Attempt)
    requires Spaced(c.retries)
    ensures Spaced(Handled(c, a).retries)
  {
  }

  // Edits between reading the streak and refusing

  /** An operator edit: whatever it sets, it stamps updated_at with the second it happens in. */
  datatype Edit = Edit(status: Status, scheduledFor: Option<int>, stamp: int)

  function Edited(c: Camp, es: seq<Edit>): Camp {
    if es == [] then c
    else
      var e := es[|es| - 1];
      Edited(c, es[..|es| - 1]).(status := e.status, scheduledFor := e.scheduledFor, updatedAt := e.stamp)
  }

  lemma GivingUpIsLate(c0: Camp, run: seq<Attempt>, a: Attempt)
    requires Undisturbed(c0, run + [a]) && FirstGiveUp(run).None? && GivesUp(run + [a], |run|)
    requires forall x <- run + [a] :: c0.updatedAt <= Floor(x.now)
    ensures var c := Ticks(c0, run);
      Waiting(c, c0, FirstUnexpected(run)) && Due(c, a.dbNow) && c.updatedAt + Day <= Floor(a.now)
  {
    assert (run + [a])[..|run|] == run && a in run + [a];
    assert forall x <- run :: x in run + [a];
    TwentyFourHourRule(c0, run);
    FirstUnexpectedHappened(run);
  }

  lemma {:induction false} FirstUnexpectedHappened(run: seq<Attempt>)
    ensures FirstUnexpected(run).Some? ==> exists a <- run :: a.now == FirstUnexpected(run).value
  {
    if run != [] {
      FirstUnexpectedHappened(run[..|run| - 1]);
      assert run[|run| - 1] in run && forall a <- run[..|run| - 1] :: a in run;
    }
  }

  /**
   When an attempt gives up after its day of errors, any operator edit made between the scheduler's reading of the
   streak and its refusal wins: the campaign stays as edited and only the failure row says it was not marked. Without
   an edit the refusal marks it.
   */
  lemma EditWins(c0: Camp, run: seq<Attempt>, a: Attempt, es: seq<Edit>)
    requires Undisturbed(c0, run + [a]) && FirstGiveUp(run).None? && GivesUp(run + [a], |run|)
    requires forall x <- run + [a] :: c0.updatedAt <= Floor(x.now)
    requires forall e <- es :: Floor(a.now) <= e.stamp
    ensures var c := Ticks(c0, run);
      Refused(Edited(c, es), a.reason, Some(c.updatedAt), a.dbNow, a.stamp) ==
        if es == [] then c.(status := Failed, updatedAt := a.stamp, failures := c.failures + [Failure(a.reason, true)])
        else Edited(c, es).(failures := c.failures + [Failure(a.reason, false)])
  {
    GivingUpIsLate(c0, run, a);
    EditsKeepFailures(Ticks(c0, run), es);
    if es != [] { assert es[|es| - 1] in es; }
  }

  lemma {:induction false} EditsKeepFailures(c: Camp, es: seq<Edit>)
    ensures Edited(c, es).failures == c.failures
  {
    if es != [] { EditsKeepFailures(c, es[..|es| - 1]); }
  }
}
