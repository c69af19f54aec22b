/**
 One batch from approval to loaded: plan, close the suppressed, schedule, salt, mark the dispatch started, push,
 record, load. The marker left by a dispatch that broke is what later tells "finish it" from "send it again".
 */
module BatchDispatch {
  import opened PackIds
  import opened PackStore
  import opened Desk
  import opened Terminal
  import opened Recovery
  import opened BatchBuild
  import SS = SendSchedule

  datatype BatchStatus = Waiting | Sending | Drained

  /** marker: dispatch_started_at is set. */
  datatype Batch = Batch(status: BatchStatus, marker: bool, window: Option<(int, int)>)

  /** What a press brings: the campaign's state as checked first, the seeds, the schedule, the fate of its requests. */
  datatype Press = Press(archived: bool, sendable: bool, seeds: seq<nat>, cfg: SS.Config, draws: SS.Draws, after: int,
                         chunk: ChunkSize, fate: nat -> Fate, commits: bool, now: int)

  datatype Report =
    | CampaignClosed | NobodyQueued | NotSendable          // refused before any write
    | Emptied(recorded: nat, suppressed: nat)
    | Loaded(recipients: nat, suppressed: nat, ack: Ack)
    | PushFailed

  /** A queued contact filtered at dispatch is closed. */
  function MarkSuppressed(recips: Recips, campaign: nat, rows: seq<(nat, string)>): Recips {
    if rows == [] then recips
    else
      var marked := MarkSuppressed(recips, campaign, rows[..|rows| - 1]);
      var who := (campaign, rows[|rows| - 1].0);
      if who in marked then marked[who := MarkedCancelled] else marked
  }

  /** Nothing left to push: what was handed over drains, an all-suppressed batch closes at once. */
  function CloseEmpty(b: Batch, handedOver: bool, now: int): Batch {
    if handedOver then Batch(Sending, false, Some((now, now))) else Batch(Drained, false, None)
  }

  function WindowOf(sendAts: seq<int>): Option<(int, int)> {
    if sendAts == [] then None else Some((sendAts[0], sendAts[|sendAts| - 1]))
  }

  function SendAts(x: Press, n: nat): seq<int> { SS.Floors(SS.SendTimes(x.cfg, x.draws, n, x.after)) }

  function PacksFor(j: Job, sends: seq<(Candidate, PackId)>, x: Press): seq<PackIn> {
    Paired(j.campaign, Salted(Ids(sends), x.seeds), SendAts(x, |sends| + |x.seeds|))
  }

  function Closed(j: Job, d: Rows): Rows { d.(recips := MarkSuppressed(d.recips, j.campaign, j.PlanNow(d).suppressed)) }

  /** Everything a press of the batch does. */
  function Dispatch(j: Job, b: Batch, d: Rows, m: Packs, x: Press): (Batch, Rows, Packs, Report) {
    if x.archived then (b, d, m, CampaignClosed)
    else if j.Candidates(d, j.roster) == [] && !b.marker then (b, d, m, NobodyQueued)
    else if !x.sendable then (b, d, m, NotSendable)
    else DispatchPlan(j, b, d, m, x, j.PlanNow(d))
  }

  function DispatchPlan(j: Job, b: Batch, d: Rows, m: Packs, x: Press, plan: Plan): (Batch, Rows, Packs, Report) {
    var closed := d.(recips := MarkSuppressed(d.recips, j.campaign, plan.suppressed));
    if plan.sends == [] then
      (CloseEmpty(b, plan.recorded > 0 || b.marker, x.now), closed, m, Emptied(plan.recorded, |plan.suppressed|))
    else
      LoadedPlan(j, b, closed, m, x, plan)
  }

  function LoadedPlan(j: Job, b: Batch, closed: Rows, m: Packs, x: Press, plan: Plan): (Batch, Rows, Packs, Report) {
    Loading(b, PressEffect(closed, m, j.campaign, PacksFor(j, plan.sends, x), x.chunk, x.fate, x.commits, x.now),
            WindowOf(SendAts(x, |plan.sends| + |x.seeds|)), |plan.sends|, |plan.suppressed|)
  }

  /** The marker is set before the push and cleared only when the batch is loaded. */
  function Loading(b: Batch, effect: (Rows, Packs, PressResult), window: Option<(int, int)>, sends: nat, suppressed: nat)
      : (Batch, Rows, Packs, Report)
  {
    match effect.2
    case Done(ack) => (Batch(Sending, false, window), effect.0, effect.1, Loaded(sends, suppressed, ack))
    case Failure => (b.(marker := true), effect.0, effect.1, PushFailed)
  }

  // What a press of a batch comes to, told by what it found

  /** Some member of the batch still waits to be mailed. */
  predicate SomeoneWaits(j: Job, d: Rows) { exists x <- j.roster :: Waits(j, d, x.0) }

  predicate Waits(j: Job, d: Rows, contact: nat) {
    && (j.campaign, contact) in d.recips
    && (if j.relaunch then d.recips[(j.campaign, contact)] !in {Delivered, MarkedCancelled} else d.recips[(j.campaign, contact)] == Queued)
  }

  lemma {:induction false} WaitersAreSelected(j: Job, d: Rows, xs: seq<(nat, nat)>)
    ensures j.Candidates(d, xs) != [] <==> exists x <- xs :: Waits(j, d, x.0)
  {
    if xs != [] {
      WaitersAreSelected(j, d, xs[..|xs| - 1]);
      assert xs == xs[..|xs| - 1] + [xs[|xs| - 1]];
    }
  }

  /** Why a press is refused; nothing was written then. */
  predicate RefusedAs(j: Job, b: Batch, d: Rows, x: Press, report: Report) {
    && (report == CampaignClosed <==> x.archived)
    && (report == NobodyQueued <==> !x.archived && !SomeoneWaits(j, d) && !b.marker)
    && (report == NotSendable <==> !x.archived && (SomeoneWaits(j, d) || b.marker) && !x.sendable)
  }

  predicate TurnedAway(report: Report) { report in {CampaignClosed, NobodyQueued, NotSendable} }

  /** What became of the batch row. */
  predicate BatchAfter(b: Batch, b': Batch, x: Press, report: Report) {
    match report
    case Emptied(recorded, _) =>
      && !b'.marker && b'.status in {Sending, Drained}
      && (b'.status == Drained <==> recorded == 0 && !b.marker)
      && b'.window == (if b'.status == Drained then None else Some((x.now, x.now)))
    case Loaded(_, _, _) => b'.status == Sending && !b'.marker
    case PushFailed => b' == b.(marker := true)
    case _ => b' == b
  }

  lemma DispatchExactly(j: Job, b: Batch, d: Rows, m: Packs, x: Press)
    ensures var (b', d', m', report) := Dispatch(j, b, d, m, x);
      && RefusedAs(j, b, d, x, report) && BatchAfter(b, b', x, report)
      && (TurnedAway(report) ==> b' == b && d' == d && m' == m)
  {
    WaitersAreSelected(j, d, j.roster);
    PlanMovesBatch(j, b, d, m, x, j.PlanNow(d));
  }

  lemma PlanMovesBatch(j: Job, b: Batch, d: Rows, m: Packs, x: Press, plan: Plan)
    ensures var r := DispatchPlan(j, b, d, m, x, plan); !TurnedAway(r.3) && BatchAfter(b, r.0, x, r.3)
  {
  }

  lemma LoadedPlanIs(j: Job, b: Batch, closed: Rows, m: Packs, x: Press, plan: Plan, packs: seq<PackIn>, window: Option<(int, int)>)
    requires packs == PacksFor(j, plan.sends, x) && window == WindowOf(SendAts(x, |plan.sends| + |x.seeds|))
    ensures LoadedPlan(j, b, closed, m, x, plan)
         == Loading(b, PressEffect(closed, m, j.campaign, packs, x.chunk, x.fate, x.commits, x.now), window, |plan.sends|, |plan.suppressed|)
  {
  }

  class BatchDesk {
    var batch: Batch
    const desktop: Desktop
    const table: PackTable

    constructor (b: Batch, d: Desktop, t: PackTable)
      ensures batch == b && desktop == d && table == t
    {
      batch, desktop, table := b, d, t;
    }

    method CloseSuppressed(campaign: nat, rows: seq<(nat, string)>)
      modifies desktop`recips
      ensures desktop.recips == MarkSuppressed(old(desktop.recips), campaign, rows)
    {
      for i := 0 to |rows|
        invariant desktop.recips == MarkSuppressed(old(desktop.recips), campaign, rows[..i])
      {
        assert rows[..i + 1][..i] == rows[..i];
        var who := (campaign, rows[i].0);
        if who in desktop.recips {
          desktop.recips := desktop.recips[who := MarkedCancelled];
        }
      }
      assert rows[..|rows|] == rows;
    }

    method TimesFor(x: Press, n: nat) returns (sendAts: seq<int>)
      requires x.cfg.cal.Valid() && x.cfg.Usable() && x.draws.For(x.cfg) && n > 0
      ensures sendAts == SendAts(x, n)
    {
      var times := SS.EmitTimes(x.cfg, x.draws, n, x.after);
      sendAts := times.value;
    }

    method Load(j: Job, x: Press, packs: seq<PackIn>, window: Option<(int, int)>, sends: nat, suppressed: nat) returns (report: Report)
      requires desktop.CountersPositive()
      modifies this`batch, desktop, table
      ensures (batch, desktop.Now(), table.packs, report) ==
        Loading(old(batch),
                PressEffect(old(desktop.Now()), old(table.packs), j.campaign, packs, x.chunk, x.fate, x.commits, x.now),
                window, sends, suppressed)
      ensures desktop.pushing == old(desktop.pushing)
    {
      batch := batch.(marker := true);
      var r := desktop.PushAndRecord(table, j.campaign, packs, x.chunk, x.fate, x.commits, x.now);
      match r {
        case Done(ack) =>
          batch := Batch(Sending, false, window);
          report := Loaded(sends, suppressed, ack);
        case Failure =>
          report := PushFailed;
      }
    }

    /** The press, write by write, does what Dispatch says, and leaves the in-flight counters as they were. */
    method DispatchBatch(j: Job, x: Press) returns (report: Report)
      requires desktop.CountersPositive() && x.cfg.cal.Valid() && x.cfg.Usable() && x.draws.For(x.cfg)
      modifies this`batch, desktop, table
      ensures (batch, desktop.Now(), table.packs, report) == Dispatch(j, old(batch), old(desktop.Now()), old(table.packs), x)
      ensures desktop.pushing == old(desktop.pushing)
      ensures RefusedAs(j, old(batch), old(desktop.Now()), x, report) && BatchAfter(old(batch), batch, x, report)
      ensures TurnedAway(report) ==> batch == old(batch) && desktop.Now() == old(desktop.Now()) && table.packs == old(table.packs)
      ensures batch != old(batch) || desktop.Now() != old(desktop.Now()) || table.packs != old(table.packs) ==>
        !x.archived && x.sendable && (SomeoneWaits(j, old(desktop.Now())) || old(batch).marker)
    {
      DispatchExactly(j, batch, desktop.Now(), table.packs, x);
      if x.archived {
        return CampaignClosed;
      }
      var recips := j.Candidates(desktop.Now(), j.roster);
      if recips == [] && !batch.marker {
        return NobodyQueued;
      }
      var planned := PlanSends(JobsOf(desktop.jobs, j.campaign), j.blocked, j.campaign, j.key, recips);
      var plan := planned.value;
      if !x.sendable {
        return NotSendable;
      }
      report := Carry(j, x, plan);
    }

    /** From the plan on: close the suppressed, then load the batch or close it empty. */
    method Carry(j: Job, x: Press, plan: Plan) returns (report: Report)
      requires desktop.CountersPositive() && x.cfg.cal.Valid() && x.cfg.Usable() && x.draws.For(x.cfg)
      modifies this`batch, desktop, table
      ensures (batch, desktop.Now(), table.packs, report)
           == DispatchPlan(j, old(batch), old(desktop.Now()), old(table.packs), x, plan)
      ensures desktop.pushing == old(desktop.pushing)
    {
      CloseSuppressed(j.campaign, plan.suppressed);
      if plan.sends == [] {
        batch := CloseEmpty(batch, plan.recorded > 0 || batch.marker, x.now);
        return Emptied(plan.recorded, |plan.suppressed|);
      }
      report := LoadPlan(j, x, plan);
    }

    method LoadPlan(j: Job, x: Press, plan: Plan) returns (report: Report)
      requires desktop.CountersPositive() && x.cfg.cal.Valid() && x.cfg.Usable() && x.draws.For(x.cfg) && plan.sends != []
      modifies this`batch, desktop, table
      ensures (batch, desktop.Now(), table.packs, report) ==
        LoadedPlan(j, old(batch), old(desktop.Now()), old(table.packs), x, plan)
      ensures desktop.pushing == old(desktop.pushing)
    {
      var packs, window := BuildBatch(j, plan.sends, x);
      assert batch == old(batch) && desktop.Now() == old(desktop.Now()) && table.packs == old(table.packs);
      ghost var effect := PressEffect(desktop.Now(), table.packs, j.campaign, packs, x.chunk, x.fate, x.commits, x.now);
      report := Load(j, x, packs, window, |plan.sends|, |plan.suppressed|);
      assert (batch, desktop.Now(), table.packs, report) == Loading(old(batch), effect, window, |plan.sends|, |plan.suppressed|);
      LoadedPlanIs(j, old(batch), old(desktop.Now()), old(table.packs), x, plan, packs, window);
    }

    method BuildBatch(j: Job, sends: seq<(Candidate, PackId)>, x: Press) returns (packs: seq<PackIn>, window: Option<(int, int)>)
      requires x.cfg.cal.Valid() && x.cfg.Usable() && x.draws.For(x.cfg) && sends != []
      ensures packs == PacksFor(j, sends, x) && window == WindowOf(SendAts(x, |sends| + |x.seeds|))
    {
      var sendAts := TimesFor(x, |sends| + |x.seeds|);
      packs := SaltAndPair(j, sends, x, sendAts);
      window := WindowOf(sendAts);
    }

    method SaltAndPair(j: Job, sends: seq<(Candidate, PackId)>, x: Press, sendAts: seq<int>) returns (packs: seq<PackIn>)
      requires sendAts == SendAts(x, |sends| + |x.seeds|)
      ensures packs == PacksFor(j, sends, x)
    {
      var targets := SaltSeeds(Ids(sends), x.seeds);
      packs := BuildPacks(j.campaign, targets, sendAts);
    }
  }

  // Closing the suppressed does not disturb the send

  lemma {:induction false} MarkSuppressedExact(recips: Recips, campaign: nat, rows: seq<(nat, string)>)
    ensures var marked := MarkSuppressed(recips, campaign, rows);
            && marked.Keys == recips.Keys
            && forall who <- recips ::
                 marked[who] == if who.0 == campaign && Lists(rows, who.1) then MarkedCancelled else recips[who]
  {
    if rows != [] {
      var rest, last := rows[..|rows| - 1], rows[|rows| - 1];
      MarkSuppressedExact(recips, campaign, rest);
      assert rows == rest + [last];
      forall contact ensures Lists(rows, contact) <==> Lists(rest, contact) || last.0 == contact { ListsSnoc(rest, last, contact); }
    }
  }

  predicate Lists(rows: seq<(nat, string)>, contact: nat) { exists e <- rows :: e.0 == contact }

  lemma ListsSnoc(rest: seq<(nat, string)>, last: (nat, string), contact: nat)
    ensures Lists(rest + [last], contact) <==> Lists(rest, contact) || last.0 == contact
  {
    assert last in rest + [last];
    assert forall e :: e in rest + [last] <==> e in rest || e == last;
  }

  /** Only candidates whose address is blocked are listed as suppressed. */
  lemma {:induction false} SuppressedAreBlocked(jobs: Jobs, blocked: map<nat, string>, campaign: nat, key: SendKey, cands: seq<Candidate>, e: (nat, string))
      returns (r: Candidate)
    requires e in PlanOf(jobs, blocked, campaign, key, cands).suppressed
    ensures r in cands && r.contact == e.0 && r.hash in blocked
  {
    var last := cands[|cands| - 1];
    var rest := cands[..|cands| - 1];
    if e in PlanOf(jobs, blocked, campaign, key, rest).suppressed {
      r := SuppressedAreBlocked(jobs, blocked, campaign, key, rest, e);
    } else {
      r := last;
    }
  }

  predicate SameUnblocked(j: Job, d: Rows, d': Rows) {
    && d'.jobs == d.jobs && d'.recips.Keys == d.recips.Keys
    && forall x <- j.roster :: (j.campaign, x.0) in d.recips && x.1 !in j.blocked ==>
         d'.recips[(j.campaign, x.0)] == d.recips[(j.campaign, x.0)]
  }

  lemma ClosedSameUnblocked(j: Job, d: Rows)
    requires j.Valid()
    ensures SameUnblocked(j, d, Closed(j, d))
    ensures forall who <- d.recips :: Closed(j, d).recips[who] == d.recips[who] || Closed(j, d).recips[who] == MarkedCancelled
  {
    var rows := j.PlanNow(d).suppressed;
    MarkSuppressedExact(d.recips, j.campaign, rows);
    forall x | x in j.roster && (j.campaign, x.0) in d.recips && x.1 !in j.blocked
      ensures Closed(j, d).recips[(j.campaign, x.0)] == d.recips[(j.campaign, x.0)]
    {
      forall e | e in rows ensures e.0 != x.0 { NotThisContact(j, d, e, x); }
    }
  }

  lemma NotThisContact(j: Job, d: Rows, e: (nat, string), x: (nat, nat))
    requires j.Valid() && e in j.PlanNow(d).suppressed && x in j.roster && x.1 !in j.blocked
    ensures e.0 != x.0
  {
    var cands := j.Candidates(d, j.roster);
    CandidatesExact(j, d, j.roster);
    var r := SuppressedAreBlocked(JobsOf(d.jobs, j.campaign), j.blocked, j.campaign, j.key, cands, e);
    assert (r.contact, r.hash) in j.roster;
    var a :| 0 <= a < |j.roster| && j.roster[a] == x;
    var b :| 0 <= b < |j.roster| && j.roster[b] == (r.contact, r.hash);
    assert a != b;
  }

  lemma ClosingIsUndisturbed(j: Job, d: Rows, m: Packs)
    requires j.Valid()
    ensures j.Undisturbed(d, m, Closed(j, d), m)
  {
    ClosedSameUnblocked(j, d);
    assert forall x <- j.roster :: j.Due(d, x) ==> x.1 !in j.blocked;
    forall x | x in j.roster && j.Due(d, x) && j.Taken(d.jobs, x.0) > 0
      ensures var last := IdOf(j.SlotFor(x.0), j.Taken(d.jobs, x.0) - 1); last in d.jobs && Retryable(d.jobs[last])
    {
      LastIsRetryable(j, d, x);
    }
  }

  lemma LastIsRetryable(j: Job, d: Rows, x: (nat, nat))
    requires j.Due(d, x) && j.Taken(d.jobs, x.0) > 0
    ensures var last := IdOf(j.SlotFor(x.0), j.Taken(d.jobs, x.0) - 1); last in d.jobs && Retryable(d.jobs[last])
  {
  }

  function SendsOf(j: Job, d: Rows, xs: seq<(nat, nat)>): seq<(Candidate, PackId)> {
    PlanOf(JobsOf(d.jobs, j.campaign), j.blocked, j.campaign, j.key, j.Candidates(d, xs)).sends
  }

  lemma SendsSnoc(j: Job, d: Rows, xs: seq<(nat, nat)>, x: (nat, nat))
    ensures SendsOf(j, d, xs + [x]) ==
      if (j.campaign, x.0) in d.recips && j.Selects(d.recips[(j.campaign, x.0)]) then
        var c := Candidate(x.0, d.recips[(j.campaign, x.0)], x.1);
        match Judge(JobsOf(d.jobs, j.campaign), j.blocked, j.campaign, j.key, c)
        case Send(id) => SendsOf(j, d, xs) + [(c, id)]
        case _ => SendsOf(j, d, xs)
      else SendsOf(j, d, xs)
  {
    assert (xs + [x])[..|xs|] == xs;
    var cs := j.Candidates(d, xs);
    if (j.campaign, x.0) in d.recips && j.Selects(d.recips[(j.campaign, x.0)]) {
      var c := Candidate(x.0, d.recips[(j.campaign, x.0)], x.1);
      assert (cs + [c])[..|cs|] == cs;
    }
  }

  /** What is sent does not depend on the rows of blocked recipients. */
  lemma {:induction false} SendsSame(j: Job, d: Rows, d': Rows, xs: seq<(nat, nat)>)
    requires SameUnblocked(j, d, d') && forall x <- xs :: x in j.roster
    ensures SendsOf(j, d', xs) == SendsOf(j, d, xs)
  {
    if xs != [] {
      var rest, x := xs[..|xs| - 1], xs[|xs| - 1];
      assert xs == rest + [x];
      SendsSame(j, d, d', rest);
      SendsSnoc(j, d, rest, x);
      SendsSnoc(j, d', rest, x);
    }
  }

  /** The settings make sense, and leave the schedule a time for each of n targets. */
  ghost predicate Usable(x: Press, n: nat) {
    x.cfg.cal.Valid() && x.cfg.Usable() && x.draws.For(x.cfg) && SS.Enough(x.cfg.senderCount, x.cfg.dailyCap, n)
  }

  function Targets(j: Job, d: Rows, x: Press): nat { |j.PlanNow(d).sends| + |x.seeds| }

  function AttemptOf(j: Job, d: Rows, x: Press): Attempt {
    Attempt(PacksFor(j, j.PlanNow(d).sends, x), x.chunk, x.fate, x.commits, x.now)
  }

  lemma DispatchPresses(j: Job, d: Rows, x: Press)
    requires j.Valid() && Usable(x, Targets(j, d, x)) && j.PlanNow(d).sends != []
    ensures Presses(j, Closed(j, d), AttemptOf(j, d, x))
  {
    TimesEnough(x, Targets(j, d, x));
    ScheduledPresses(j, d, x, Targets(j, d, x));
  }

  lemma ScheduledPresses(j: Job, d: Rows, x: Press, n: nat)
    requires j.Valid() && n == Targets(j, d, x) && |SendAts(x, n)| == n && j.PlanNow(d).sends != []
    ensures Presses(j, Closed(j, d), AttemptOf(j, d, x))
  {
    var sends := j.PlanNow(d).sends;
    SameSends(j, d);
    TimedPresses(j, Closed(j, d), sends, x, SendAts(x, n), PacksFor(j, sends, x));
  }

  lemma TimesEnough(x: Press, n: nat)
    requires Usable(x, n)
    ensures |SendAts(x, n)| == n
  {
    ScheduleIsLongEnough(x.cfg, x.draws, n, x.after);
  }

  lemma TimedPresses(j: Job, closed: Rows, sends: seq<(Candidate, PackId)>, x: Press, sendAts: seq<int>, packs: seq<PackIn>)
    requires j.Valid() && sends == j.PlanNow(closed).sends && |sendAts| == |sends| + |x.seeds|
    requires packs == Paired(j.campaign, Salted(Ids(sends), x.seeds), sendAts)
    ensures Presses(j, closed, Attempt(packs, x.chunk, x.fate, x.commits, x.now))
  {
    PairedPressesPlan(j, closed, x.seeds, sendAts, x.chunk, x.fate, x.commits, x.now);
  }

  /** The contact is a blocked member of the batch that still waits. */
  predicate BlockedWaiter(j: Job, d: Rows, contact: nat) { exists x <- j.roster :: x.0 == contact && x.1 in j.blocked && Waits(j, d, contact) }

  /** Closing before the send marks exactly the blocked members that wait as cancelled. */
  lemma ClosedExactly(j: Job, d: Rows)
    requires j.Valid()
    ensures Closed(j, d).jobs == d.jobs && Closed(j, d).recips.Keys == d.recips.Keys
    ensures forall who <- d.recips ::
      Closed(j, d).recips[who] == if who.0 == j.campaign && BlockedWaiter(j, d, who.1) then MarkedCancelled else d.recips[who]
  {
    var rows := j.PlanNow(d).suppressed;
    MarkSuppressedExact(d.recips, j.campaign, rows);
    forall contact: nat ensures Lists(rows, contact) <==> BlockedWaiter(j, d, contact) {
      ListsBlocked(j, d, contact);
    }
  }

  lemma ListsBlocked(j: Job, d: Rows, contact: nat)
    requires j.Valid()
    ensures Lists(j.PlanNow(d).suppressed, contact) <==> BlockedWaiter(j, d, contact)
  {
    var cands, rows := j.Candidates(d, j.roster), j.PlanNow(d).suppressed;
    CandidatesExact(j, d, j.roster);
    PlanExactly(JobsOf(d.jobs, j.campaign), j.blocked, j.campaign, j.key, cands);
    if e :| e in rows && e.0 == contact {
      var r :| r in cands && r.hash in j.blocked && e == (r.contact, j.blocked[r.hash]);
      assert (r.contact, r.hash) in j.roster;
    }
    if x :| x in j.roster && x.0 == contact && x.1 in j.blocked && Waits(j, d, contact) {
      var r := Candidate(x.0, d.recips[(j.campaign, x.0)], x.1);
      assert r in cands && (r.contact, j.blocked[r.hash]) in rows;
    }
  }

  /** A press that gets as far as its plan closes those members first; of an empty batch that is all it does to the rows. */
  lemma EmptiedCloses(j: Job, b: Batch, d: Rows, m: Packs, x: Press)
    requires Dispatch(j, b, d, m, x).3.Emptied?
    ensures Dispatch(j, b, d, m, x).1 == Closed(j, d) && Dispatch(j, b, d, m, x).2 == m
  {
    PlanReports(j, b, d, m, x, j.PlanNow(d));
  }

  /** The members of xs still waiting, and of these the blocked ones. */
  function Waiting(j: Job, d: Rows, xs: seq<(nat, nat)>): (n: (nat, nat)) {
    if xs == [] then (0, 0)
    else
      var n, x := Waiting(j, d, xs[..|xs| - 1]), xs[|xs| - 1];
      if !Waits(j, d, x.0) then n else (n.0 + 1, if x.1 in j.blocked then n.1 + 1 else n.1)
  }

  lemma {:induction false} WaitingCounts(j: Job, d: Rows, xs: seq<(nat, nat)>)
    ensures |j.Candidates(d, xs)| == Waiting(j, d, xs).0
    ensures |PlanOf(JobsOf(d.jobs, j.campaign), j.blocked, j.campaign, j.key, j.Candidates(d, xs)).suppressed| == Waiting(j, d, xs).1
  {
    if xs != [] {
      var rest, x := xs[..|xs| - 1], xs[|xs| - 1];
      WaitingCounts(j, d, rest);
      if Waits(j, d, x.0) {
        var cs, c := j.Candidates(d, rest), Candidate(x.0, d.recips[(j.campaign, x.0)], x.1);
        assert (cs + [c])[..|cs|] == cs;
        JudgeExactly(JobsOf(d.jobs, j.campaign), j.blocked, j.campaign, j.key, c);
      }
    }
  }

  /** What a press reports: as suppressed the blocked members, as recipients the due packs, and in an empty batch everyone else as recorded. */
  lemma DispatchReports(j: Job, b: Batch, d: Rows, m: Packs, x: Press)
    requires j.Valid()
    ensures match Dispatch(j, b, d, m, x).3
      case Emptied(recorded, suppressed) => (recorded + suppressed, suppressed) == Waiting(j, d, j.roster)
      case Loaded(recipients, suppressed, _) => recipients == |j.DueIds(d)| && suppressed == Waiting(j, d, j.roster).1
      case _ => true
  {
    PlanCounts(j, d);
    PlanReports(j, b, d, m, x, j.PlanNow(d));
  }

  lemma PlanCounts(j: Job, d: Rows)
    requires j.Valid()
    ensures var plan := j.PlanNow(d);
      && |plan.sends| == |j.DueIds(d)| && |plan.suppressed| == Waiting(j, d, j.roster).1
      && |plan.sends| + plan.recorded + |plan.suppressed| == Waiting(j, d, j.roster).0
  {
    WaitingCounts(j, d, j.roster);
    PlanExactly(JobsOf(d.jobs, j.campaign), j.blocked, j.campaign, j.key, j.Candidates(d, j.roster));
    PlanIsDue(j, d);
    SizeOf(Ids(j.PlanNow(d).sends), j.DueIds(d));
  }

  lemma {:induction false} SizeOf<T>(s: seq<T>, all: set<T>)
    requires (forall x :: x in s <==> x in all) && forall a, b :: 0 <= a < b < |s| ==> s[a] != s[b]
    ensures |s| == |all|
  {
    if s == [] {
      assert all == {};
    } else {
      var n := |s| - 1;
      assert s == s[..n] + [s[n]] && s[n] !in s[..n];
      SizeOf(s[..n], all - {s[n]});
    }
  }

  lemma PlanReports(j: Job, b: Batch, d: Rows, m: Packs, x: Press, plan: Plan)
    ensures match DispatchPlan(j, b, d, m, x, plan).3
      case Emptied(recorded, suppressed) => plan.sends == [] && recorded == plan.recorded && suppressed == |plan.suppressed|
      case Loaded(recipients, suppressed, _) => recipients == |plan.sends| && suppressed == |plan.suppressed|
      case _ => true
  {
  }

  /** A loaded batch shows the time of its first and of its last send. */
  lemma LoadedWindow(j: Job, b: Batch, d: Rows, m: Packs, x: Press)
    requires Dispatch(j, b, d, m, x).3.Loaded? && Usable(x, Targets(j, d, x))
    ensures var (window, ts) := (Dispatch(j, b, d, m, x).0.window, SendAts(x, Targets(j, d, x)));
      window.Some? && window.value.0 in ts && window.value.1 in ts && forall t <- ts :: window.value.0 <= t <= window.value.1
  {
    LoadedSetsWindow(j, b, d, m, x);
    TimesAscend(x, Targets(j, d, x));
    WindowEnds(SendAts(x, Targets(j, d, x)));
  }

  lemma LoadedSetsWindow(j: Job, b: Batch, d: Rows, m: Packs, x: Press)
    requires Dispatch(j, b, d, m, x).3.Loaded?
    ensures Dispatch(j, b, d, m, x).0.window == WindowOf(SendAts(x, Targets(j, d, x))) && Targets(j, d, x) > 0
  {
    LoadedByPlan(j, b, d, m, x);
    PlanSetsWindow(j, b, d, m, x, j.PlanNow(d));
  }

  lemma LoadedByPlan(j: Job, b: Batch, d: Rows, m: Packs, x: Press)
    requires Dispatch(j, b, d, m, x).3.Loaded?
    ensures Dispatch(j, b, d, m, x) == DispatchPlan(j, b, d, m, x, j.PlanNow(d))
  {
  }

  lemma PlanSetsWindow(j: Job, b: Batch, d: Rows, m: Packs, x: Press, plan: Plan)
    requires DispatchPlan(j, b, d, m, x, plan).3.Loaded?
    ensures DispatchPlan(j, b, d, m, x, plan).0.window == WindowOf(SendAts(x, |plan.sends| + |x.seeds|)) && plan.sends != []
  {
    LoadedPlanSetsWindow(j, b, d.(recips := MarkSuppressed(d.recips, j.campaign, plan.suppressed)), m, x, plan,
                         WindowOf(SendAts(x, |plan.sends| + |x.seeds|)));
  }

  lemma LoadedPlanSetsWindow(j: Job, b: Batch, closed: Rows, m: Packs, x: Press, plan: Plan, window: Option<(int, int)>)
    requires window == WindowOf(SendAts(x, |plan.sends| + |x.seeds|))
    ensures LoadedPlan(j, b, closed, m, x, plan).3.Loaded? ==> LoadedPlan(j, b, closed, m, x, plan).0.window == window
  {
    LoadedPlanIs(j, b, closed, m, x, plan, PacksFor(j, plan.sends, x), window);
  }

  lemma TimesAscend(x: Press, n: nat)
    requires Usable(x, n)
    ensures SS.Ascending(SendAts(x, n)) && |SendAts(x, n)| == n
  {
    TimesEnough(x, n);
    SS.FlooredTimesFit(x.cfg, x.draws, n, x.after);
  }

  lemma WindowEnds(ts: seq<int>)
    requires SS.Ascending(ts) && ts != []
    ensures WindowOf(ts).Some? && WindowOf(ts).value.0 in ts && WindowOf(ts).value.1 in ts
    ensures forall t <- ts :: WindowOf(ts).value.0 <= t <= WindowOf(ts).value.1
  {
  }

  lemma SameSends(j: Job, d: Rows)
    requires j.Valid()
    ensures j.PlanNow(Closed(j, d)).sends == j.PlanNow(d).sends
  {
    ClosedSameUnblocked(j, d);
    SendsSame(j, d, Closed(j, d), j.roster);
  }

  // A batch pressed again and again

  /** The world as a press finds it, and the press. */
  datatype Turn = Turn(rows: Rows, packs: Packs, press: Press)

  function AfterTurn(j: Job, b: Batch, t: Turn): (Batch, Rows, Packs, Report) { Dispatch(j, b, t.rows, t.packs, t.press) }

  /** The ids a press handed to the network, should it have got that far. */
  function Pushed(j: Job, b: Batch, t: Turn): set<PackId> {
    if AfterTurn(j, b, t).3.Loaded? || AfterTurn(j, b, t).3.PushFailed? then j.DueIds(t.rows) else {}
  }

  /** What the presses so far left, and the ids they handed over. */
  datatype Moment = Moment(batch: Batch, rows: Rows, packs: Packs, pushed: set<PackId>)

  function Then(j: Job, s: Moment, t: Turn): Moment {
    var r := AfterTurn(j, s.batch, t);
    Moment(r.0, r.1, r.2, s.pushed + Pushed(j, s.batch, t))
  }

  /** The next press finds the world moved on; whatever landed in between, an earlier press had handed over. */
  ghost predicate Follows(j: Job, s: Moment, t: Turn) {
    && Usable(t.press, Targets(j, t.rows, t.press)) && j.Undisturbed(s.rows, s.packs, t.rows, t.packs)
    && j.Own(t.packs.Keys) <= j.Own(s.packs.Keys) + s.pushed
  }

  ghost predicate Series(j: Job, ms: seq<Moment>, turns: seq<Turn>) {
    && |ms| == |turns| + 1 && ms[0].pushed == {}
    && forall i :: 0 <= i < |turns| ==> Follows(j, ms[i], turns[i]) && ms[i + 1] == Then(j, ms[i], turns[i])
  }

  /** A send that starts clean: every pack of it is booked. */
  predicate CleanStart(j: Job, s: Moment) { j.Calm(s.rows) && j.Own(s.packs.Keys) <= j.Own(s.rows.jobs.Keys) && s.pushed == {} }

  /** A pack of this send is in the cloud without a job. */
  predicate Unrecorded(j: Job, d: Rows, m: Packs) { !(j.Own(m.Keys) <= j.Own(d.jobs.Keys)) }

  /** Ids pushed and still due, and packs without a job, are there only while the marker is set. */
  predicate Kept(j: Job, s0: Moment, s: Moment) {
    && Accounted(j, s0.rows, s0.packs, s.rows, s.packs)
    && (Unrecorded(j, s.rows, s.packs) ==> s.batch.marker) && (s.pushed * j.DueIds(s.rows) != {} ==> s.batch.marker)
  }

  lemma MovedKept(j: Job, s0: Moment, s: Moment, d: Rows, m: Packs)
    requires j.Valid() && Kept(j, s0, s) && j.Undisturbed(s.rows, s.packs, d, m)
    requires j.Own(m.Keys) <= j.Own(s.packs.Keys) + s.pushed
    ensures Kept(j, s0, s.(rows := d, packs := m))
  {
    AccountedMove(j, s0.rows, s0.packs, s.rows, s.packs, d, m);
    UndisturbedKeepsDue(j, s.rows, s.packs, d, m);
    forall id | id in j.Own(m.Keys) && id !in j.Own(s.packs.Keys) ensures id in s.pushed * j.DueIds(s.rows) {}
  }

  /** With nothing due, everything that landed is recorded. */
  lemma NothingDueNothingUnrecorded(j: Job, d0: Rows, m0: Packs, d: Rows, m: Packs)
    requires Accounted(j, d0, m0, d, m) && j.DueIds(d) == {} && j.Own(m0.Keys) <= j.Own(d0.jobs.Keys)
    ensures !Unrecorded(j, d, m)
  {
    assert j.DueIds(d0) - j.DueIds(d) == j.DueIds(d0);
  }

  lemma EmptyPlanNothingDue(j: Job, d: Rows)
    requires j.Valid() && j.PlanNow(d).sends == []
    ensures j.DueIds(d) == {}
  {
    PlanIsDue(j, d);
    var ids := Ids(j.PlanNow(d).sends);
    forall id ensures id !in j.DueIds(d) { assert id !in ids; }
  }

  lemma EmptiedKept(j: Job, d0: Rows, m0: Packs, t: Turn)
    requires j.Valid() && Accounted(j, d0, m0, t.rows, t.packs) && j.Own(m0.Keys) <= j.Own(d0.jobs.Keys)
    requires j.PlanNow(t.rows).sends == []
    ensures Accounted(j, d0, m0, Closed(j, t.rows), t.packs)
    ensures j.DueIds(Closed(j, t.rows)) == {} && !Unrecorded(j, Closed(j, t.rows), t.packs)
  {
    var d := t.rows;
    ClosingIsUndisturbed(j, d, t.packs);
    AccountedMove(j, d0, m0, d, t.packs, Closed(j, d), t.packs);
    EmptyPlanNothingDue(j, d);
    UndisturbedKeepsDue(j, d, t.packs, Closed(j, d), t.packs);
    NothingDueNothingUnrecorded(j, d0, m0, Closed(j, d), t.packs);
  }

  lemma PushedKept(j: Job, d0: Rows, m0: Packs, t: Turn) returns (leg: Leg)
    requires j.Valid() && Usable(t.press, Targets(j, t.rows, t.press)) && Accounted(j, d0, m0, t.rows, t.packs) && j.Own(m0.Keys) <= j.Own(d0.jobs.Keys)
    requires j.PlanNow(t.rows).sends != []
    ensures leg == Leg(Closed(j, t.rows), t.packs, AttemptOf(j, t.rows, t.press))
    ensures var (r1, m1, res) := AfterLeg(j, leg);
      Accounted(j, d0, m0, r1, m1) && (res.Done? ==> j.DueIds(r1) == {} && !Unrecorded(j, r1, m1))
  {
    var d := t.rows;
    ClosingIsUndisturbed(j, d, t.packs);
    AccountedMove(j, d0, m0, d, t.packs, Closed(j, d), t.packs);
    DispatchPresses(j, d, t.press);
    leg := Leg(Closed(j, d), t.packs, AttemptOf(j, d, t.press));
    LegAccounted(j, d0, m0, leg);
    var (r1, m1, res) := AfterLeg(j, leg);
    if res.Done? { NothingDueNothingUnrecorded(j, d0, m0, r1, m1); }
  }

  predicate Carried(x: Report) { x.Emptied? || x.Loaded? || x.PushFailed? }

  lemma TurnRefused(j: Job, b: Batch, t: Turn)
    requires !Carried(AfterTurn(j, b, t).3)
    ensures AfterTurn(j, b, t).0 == b && AfterTurn(j, b, t).1 == t.rows && AfterTurn(j, b, t).2 == t.packs
  {
    PlanIsCarried(j, b, t.rows, t.packs, t.press, j.PlanNow(t.rows));
  }

  lemma PlanIsCarried(j: Job, b: Batch, d: Rows, m: Packs, x: Press, plan: Plan)
    ensures Carried(DispatchPlan(j, b, d, m, x, plan).3)
    ensures DispatchPlan(j, b, d, m, x, plan).3.Emptied? <==> plan.sends == []
  {
  }

  lemma PlanPushed(j: Job, b: Batch, d: Rows, m: Packs, x: Press, leg: Leg)
    requires j.PlanNow(d).sends != [] && leg == Leg(Closed(j, d), m, AttemptOf(j, d, x))
    ensures var r := DispatchPlan(j, b, d, m, x, j.PlanNow(d));
      && r.1 == AfterLeg(j, leg).0 && r.2 == AfterLeg(j, leg).1
      && (r.3.Loaded? <==> AfterLeg(j, leg).2.Done?) && (r.0.marker <==> r.3.PushFailed?)
  {
    var plan := j.PlanNow(d);
  }

  lemma TurnKept(j: Job, s0: Moment, s: Moment, t: Turn)
    requires j.Valid() && CleanStart(j, s0) && Usable(t.press, Targets(j, t.rows, t.press))
    requires Kept(j, s0, s.(rows := t.rows, packs := t.packs))
    ensures Kept(j, s0, Then(j, s, t))
    ensures var r := AfterTurn(j, s.batch, t); r.3.Emptied? || r.3.Loaded? ==> j.DueIds(r.1) == {} && !r.0.marker
  {
    if Carried(AfterTurn(j, s.batch, t).3) {
      CarriedTurnKept(j, s0, s, t);
    } else {
      TurnRefused(j, s.batch, t);
    }
  }

  lemma CarriedTurnKept(j: Job, s0: Moment, s: Moment, t: Turn)
    requires j.Valid() && CleanStart(j, s0) && Usable(t.press, Targets(j, t.rows, t.press))
    requires Kept(j, s0, s.(rows := t.rows, packs := t.packs)) && Carried(AfterTurn(j, s.batch, t).3)
    ensures Kept(j, s0, Then(j, s, t))
    ensures var r := AfterTurn(j, s.batch, t); r.3.Emptied? || r.3.Loaded? ==> j.DueIds(r.1) == {} && !r.0.marker
  {
    PlanIsCarried(j, s.batch, t.rows, t.packs, t.press, j.PlanNow(t.rows));
    if j.PlanNow(t.rows).sends == [] {
      EmptiedKept(j, s0.rows, s0.packs, t);
    } else {
      var leg := PushedKept(j, s0.rows, s0.packs, t);
      PlanPushed(j, s.batch, t.rows, t.packs, t.press, leg);
    }
  }

  lemma NextTurnKept(j: Job, s0: Moment, s: Moment, t: Turn)
    requires j.Valid() && CleanStart(j, s0) && Kept(j, s0, s) && Follows(j, s, t)
    ensures Kept(j, s0, Then(j, s, t))
    ensures var r := AfterTurn(j, s.batch, t); r.3.Emptied? || r.3.Loaded? ==> j.DueIds(r.1) == {} && !r.0.marker
  {
    MovedKept(j, s0, s, t.rows, t.packs);
    TurnKept(j, s0, s, t);
  }

  lemma StartKept(j: Job, s: Moment)
    requires CleanStart(j, s)
    ensures Kept(j, s, s)
  {
    assert j.DueIds(s.rows) - j.DueIds(s.rows) == {};
  }

  lemma {:induction false} SeriesKept(j: Job, ms: seq<Moment>, turns: seq<Turn>, i: nat)
    requires j.Valid() && Series(j, ms, turns) && CleanStart(j, ms[0]) && i <= |turns|
    ensures Kept(j, ms[0], ms[i])
  {
    if i == 0 {
      StartKept(j, ms[0]);
    } else {
      SeriesKept(j, ms, turns, i - 1);
      NextTurnKept(j, ms[0], ms[i - 1], turns[i - 1]);
      assert ms[i - 1 + 1] == Then(j, ms[i - 1], turns[i - 1]);
    }
  }

  /** However presses break, a pack of the batch that is in the cloud but not booked means its marker is set. */
  lemma UnrecordedIsMarked(j: Job, ms: seq<Moment>, turns: seq<Turn>, i: nat, id: PackId)
    requires j.Valid() && Series(j, ms, turns) && CleanStart(j, ms[0]) && i <= |turns|
    requires j.Owns(id) && id in ms[i].packs && id !in ms[i].rows.jobs
    ensures ms[i].batch.marker
  {
    SeriesKept(j, ms, turns, i);
    assert id in j.Own(ms[i].packs.Keys) && id !in j.Own(ms[i].rows.jobs.Keys);
  }

  /** The press that loads or closes the batch clears the marker, and by then exactly the ids due at the start have been added and booked. */
  lemma LoadedIsComplete(j: Job, ms: seq<Moment>, turns: seq<Turn>, i: nat)
    requires j.Valid() && Series(j, ms, turns) && CleanStart(j, ms[0]) && i < |turns|
    requires j.Own(ms[0].packs.Keys) == j.Own(ms[0].rows.jobs.Keys)
    requires AfterTurn(j, ms[i].batch, turns[i]).3.Loaded? || AfterTurn(j, ms[i].batch, turns[i]).3.Emptied?
    ensures var s0, s := ms[0], ms[i + 1];
            && !s.batch.marker && j.DueIds(s.rows) == {}
            && j.Own(s.packs.Keys) == j.Own(s0.packs.Keys) + j.DueIds(s0.rows)
            && j.Own(s.rows.jobs.Keys) == j.Own(s0.rows.jobs.Keys) + j.DueIds(s0.rows)
  {
    SeriesKept(j, ms, turns, i);
    NextTurnKept(j, ms[0], ms[i], turns[i]);
    KeptIsComplete(j, ms[0], ms[i + 1]);
  }

  lemma KeptIsComplete(j: Job, s0: Moment, s: Moment)
    requires Kept(j, s0, s) && !s.batch.marker && j.DueIds(s.rows) == {}
    requires j.Own(s0.packs.Keys) == j.Own(s0.rows.jobs.Keys)
    ensures j.Own(s.packs.Keys) == j.Own(s0.packs.Keys) + j.DueIds(s0.rows)
    ensures j.Own(s.rows.jobs.Keys) == j.Own(s0.rows.jobs.Keys) + j.DueIds(s0.rows)
  {
    assert j.DueIds(s0.rows) - j.DueIds(s.rows) == j.DueIds(s0.rows);
  }

  /** A batch closes as drained only with nothing planned, nothing recorded in this generation among its queued members, and no dispatch under way. */
  lemma DrainedMeansUntouched(j: Job, b: Batch, t: Turn)
    requires j.Valid() && AfterTurn(j, b, t).3.Emptied? && AfterTurn(j, b, t).0.status == Drained
    ensures !b.marker
    ensures forall x <- j.roster :: (j.campaign, x.0) in t.rows.recips && j.Selects(t.rows.recips[(j.campaign, x.0)]) ==> x.1 in j.blocked
  {
    var cands := j.Candidates(t.rows, j.roster);
    CandidatesExact(j, t.rows, j.roster);
    NoOneJudged(JobsOf(t.rows.jobs, j.campaign), j.blocked, j.campaign, j.key, cands);
  }

  lemma {:induction false} NoOneJudged(jobs: Jobs, blocked: map<nat, string>, campaign: nat, key: SendKey, cands: seq<Candidate>)
    requires PlanOf(jobs, blocked, campaign, key, cands).sends == [] && PlanOf(jobs, blocked, campaign, key, cands).recorded == 0
    ensures forall r <- cands :: r.hash in blocked
  {
    if cands != [] {
      var rest, last := cands[..|cands| - 1], cands[|cands| - 1];
      assert cands == rest + [last];
      assert Judge(jobs, blocked, campaign, key, last).Suppressed?;
      NoOneJudged(jobs, blocked, campaign, key, rest);
    }
  }
}
