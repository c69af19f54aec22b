/**
 When does a contact get a second pack in one generation? The planner means it only for a recipient the
 operator put back to 'queued'. It happens without that exactly when a press plans from a row it read as queued
 before another press recorded, and the pack recorded since has failed (a Re-launch awaits the cloud between the two).
 */
module RetryDiscipline {
  import opened PackIds
  import opened PackStore
  import opened Desk
  import opened SendProtocol
  import CM = CloudMachine

  predicate Plans(s: State, t: Step) {
    t.PlanStep? && (PressAt(s, t.p).BatchSelected? || PressAt(s, t.p).StageSelected? || PressAt(s, t.p).RelaunchOpened?)
  }

  /** The candidate was read as queued, is not blocked, and by now its first pack is recorded as failed or cancelled. */
  predicate StaleFor(s: State, t: Step, r: Candidate)
    requires Plans(s, t)
  {
    var x := PressAt(s, t.p);
    var first := IdOf(Slot(x.c, SendKeyOf(s, x), r.contact), 0);
    r.hash !in t.blocked && r.status == Queued && first in s.rows.jobs && Retryable(s.rows.jobs[first])
  }

  predicate Stale(s: State, t: Step) { Plans(s, t) && exists r <- PressAt(s, t.p).cands :: StaleFor(s, t, r) }

  predicate PlansSecond(s: State, t: Step) {
    Enabled(s, t) && t.PlanStep? && exists id <- Apply(s, t).presses[t.p].plan :: id.ContactPack? && id.ordinal > 0
  }

  /** A press plans only contacts still queued among those it read as queued. */
  predicate FreshReads(s: State, t: Step) {
    Plans(s, t) ==>
      var x := PressAt(s, t.p);
      forall r <- x.cands :: r.status == Queued ==>
        (x.c, r.contact) in s.rows.recips && s.rows.recips[(x.c, r.contact)] == Queued
  }

  /** A run, with its steps, in which nobody presses Retry failed. */
  predicate Quietly(tr: seq<State>, ts: seq<Step>) {
    && |tr| == |ts| + 1 && Init(tr[0])
    && forall i :: 0 <= i < |ts| ==> QuietStepAt(tr, ts, i)
  }

  predicate QuietStepAt(tr: seq<State>, ts: seq<Step>, i: nat)
    requires i < |ts| && |tr| == |ts| + 1
  {
    Enabled(tr[i], ts[i]) && tr[i + 1] == Apply(tr[i], ts[i]) && !ts[i].RetryFailedStep?
  }

  predicate RowsOf(s: State, c: nat, cands: seq<Candidate>) {
    forall r <- cands :: (c, r.contact) in s.rows.recips
  }

  predicate PressQuiet(s: State, x: Press) {
    match x
    case BatchSelected(c, cands) => RowsOf(s, c, cands)
    case StageSelected(c, _, cands) => RowsOf(s, c, cands)
    case RelaunchSelected(c, cands) => RowsOf(s, c, cands)
    case RelaunchOpened(c, _, cands) => RowsOf(s, c, cands)
    case Pushing(c, _, _, plan, _, _) =>
      forall id <- plan :: id.ContactPack? && id.ordinal == 0 && id.slot.campaign == c && (c, id.slot.contact) in s.rows.recips
    case _ => true
  }

  predicate Quiet(s: State) {
    && (forall id <- s.rows.jobs :: id.ContactPack? && id.ordinal == 0
          && (id.slot.campaign, id.slot.contact) in s.rows.recips
          && s.rows.recips[(id.slot.campaign, id.slot.contact)] != Queued)
    && (forall id <- s.wire :: id.ContactPack? && id.ordinal == 0)
    && (forall p <- s.presses :: PressQuiet(s, s.presses[p]))
  }

  lemma RowsGrow(s: State, s': State, x: Press)
    requires PressQuiet(s, x) && s.rows.recips.Keys <= s'.rows.recips.Keys
    ensures PressQuiet(s', x)
  {
  }

  /** A planned id is a pack of the campaign for one of the candidates. */
  lemma PlannedIsCandidate(jobs: Jobs, blocked: map<nat, string>, c: nat, key: SendKey, cands: seq<Candidate>, id: PackId)
    requires id in Ids(PlanOf(jobs, blocked, c, key, cands).sends)
    ensures id.ContactPack? && id.slot.campaign == c && exists r <- cands :: r.contact == id.slot.contact
  {
    PlanPartitions(jobs, blocked, c, key, cands);
    var sends := PlanOf(jobs, blocked, c, key, cands).sends;
    var i :| 0 <= i < |sends| && Ids(sends)[i] == id;
    assert sends[i] in sends && sends[i].0 in cands;
  }

  lemma PlanIsQuiet(s: State, t: Step)
    requires Quiet(s) && Enabled(s, t) && t.PlanStep? && !PlansSecond(s, t)
    ensures PressQuiet(s, Apply(s, t).presses[t.p])
  {
    var x := PressAt(s, t.p);
    var jobs := JobsOf(s.rows.jobs, x.c);
    var key := SendKeyOf(s, x);
    var ids := Ids(PlanOf(jobs, t.blocked, x.c, key, x.cands).sends);
    assert PressQuiet(s, x) && RowsOf(s, x.c, x.cands);
    assert Apply(s, t).presses[t.p] == Pushing(x.c, key, x.RelaunchOpened?, ids, 0, 0);
    forall id | id in ids
      ensures id.ContactPack? && id.ordinal == 0 && id.slot.campaign == x.c && (x.c, id.slot.contact) in s.rows.recips
    {
      PlannedIsCandidate(jobs, t.blocked, x.c, key, x.cands, id);
    }
  }

  /** While only first packs are recorded, the next ordinal is 1 for a recorded slot and 0 for any other. */
  lemma OneOrNone(s: State, c: nat, slot: Slot)
    requires Quiet(s) && slot.campaign == c
    ensures NextOrdinal(JobsOf(s.rows.jobs, c), slot) == if IdOf(slot, 0) in s.rows.jobs then 1 else 0
  {
    var jobs := JobsOf(s.rows.jobs, c);
    assert IdOf(slot, 1) !in s.rows.jobs;
    NextOrdinalIs(jobs, slot, if IdOf(slot, 0) in s.rows.jobs then 1 else 0);
  }

  lemma StalePlansSecond(s: State, t: Step, r: Candidate)
    requires Quiet(s) && Enabled(s, t) && Plans(s, t) && r in PressAt(s, t.p).cands && StaleFor(s, t, r)
    ensures PlansSecond(s, t)
  {
    var x := PressAt(s, t.p);
    var jobs, key := JobsOf(s.rows.jobs, x.c), SendKeyOf(s, x);
    var slot := Slot(x.c, key, r.contact);
    OneOrNone(s, x.c, slot);
    PlanPartitions(jobs, t.blocked, x.c, key, x.cands);
    assert Judge(jobs, t.blocked, x.c, key, r) == Send(IdOf(slot, 1));
    var sends := PlanOf(jobs, t.blocked, x.c, key, x.cands).sends;
    var i :| 0 <= i < |sends| && sends[i] == (r, IdOf(slot, 1));
    assert Ids(sends)[i] == IdOf(slot, 1);
    assert IdOf(slot, 1) in Apply(s, t).presses[t.p].plan;
  }

  lemma SecondIsStale(s: State, t: Step, id: PackId)
    requires Quiet(s) && Enabled(s, t) && Plans(s, t) && id in Apply(s, t).presses[t.p].plan && id.ContactPack? && id.ordinal > 0
    ensures Stale(s, t)
  {
    var x := PressAt(s, t.p);
    var jobs, key := JobsOf(s.rows.jobs, x.c), SendKeyOf(s, x);
    PlanPartitions(jobs, t.blocked, x.c, key, x.cands);
    var sends := PlanOf(jobs, t.blocked, x.c, key, x.cands).sends;
    var i :| 0 <= i < |sends| && Ids(sends)[i] == id;
    var r := sends[i].0;
    assert sends[i] in sends && r in x.cands && Judge(jobs, t.blocked, x.c, key, r) == Send(id);
    OneOrNone(s, x.c, Slot(x.c, key, r.contact));
    assert StaleFor(s, t, r);
  }

  /** In a state with first packs only, a press plans a second pack exactly when it holds a stale candidate. */
  lemma StaleExactly(s: State, t: Step)
    requires Quiet(s) && Enabled(s, t)
    ensures PlansSecond(s, t) <==> Stale(s, t)
  {
    if Stale(s, t) {
      var r :| r in PressAt(s, t.p).cands && StaleFor(s, t, r);
      StalePlansSecond(s, t, r);
    }
    if PlansSecond(s, t) {
      var id :| id in Apply(s, t).presses[t.p].plan && id.ContactPack? && id.ordinal > 0;
      SecondIsStale(s, t, id);
    }
  }

  /** Reads that still hold are not stale: a recorded contact is not queued. */
  lemma FreshIsNotStale(s: State, t: Step)
    requires Quiet(s) && FreshReads(s, t)
    ensures !Stale(s, t)
  {
  }

  lemma RecordIsQuiet(s: State, p: nat)
    requires Quiet(s) && Enabled(s, Record(p))
    ensures Quiet(Apply(s, Record(p)))
  {
    var s' := Apply(s, Record(p));
    var x := PressAt(s, p);
    assert PressQuiet(s, x);
    var ids := x.plan[..x.acked];
    RecordAllExact(s.rows, x.c, ids);
    if RecordAll(s.rows, x.c, ids).Some? {
      forall id | id in s'.rows.jobs
        ensures id.ContactPack? && id.ordinal == 0
          && (id.slot.campaign, id.slot.contact) in s'.rows.recips
          && s'.rows.recips[(id.slot.campaign, id.slot.contact)] != Queued
      {
        if id in s.rows.jobs {
        } else {
          assert id in ids && id in x.plan;
          assert Marks(x.c, ids, (x.c, id.slot.contact));
        }
      }
      forall q | q in s'.presses && q != p ensures PressQuiet(s', s'.presses[q]) {
        RowsGrow(s, s', s.presses[q]);
      }
    }
  }

  predicate TouchesRows(t: Step) { t.AddRecipient? || t.TouchRecipient? || t.DeliverOutcome? }

  lemma RowStepIsQuiet(s: State, t: Step)
    requires Quiet(s) && Enabled(s, t) && TouchesRows(t)
    ensures Quiet(Apply(s, t))
  {
  }

  lemma PushStepIsQuiet(s: State, t: Step, p: nat)
    requires Quiet(s) && Enabled(s, t) && (t == Step.Ack(p) || t == OpenRelaunch(p) || (t.SendChunk? && t.p == p))
    ensures Quiet(Apply(s, t))
  {
  }

  lemma QuietKept(s: State, t: Step)
    requires Quiet(s) && Enabled(s, t) && !t.RetryFailedStep? && !PlansSecond(s, t)
    ensures Quiet(Apply(s, t))
  {
    if t.Record? {
      RecordIsQuiet(s, t.p);
    } else if t.PlanStep? {
      PlanIsQuiet(s, t);
    } else if t.SendChunk? || t.OpenRelaunch? || t.Ack? {
      PushStepIsQuiet(s, t, t.p);
    } else if TouchesRows(t) {
      RowStepIsQuiet(s, t);
    } else {
      OtherStepIsQuiet(s, t);
    }
  }

  lemma OtherStepIsQuiet(s: State, t: Step)
    requires Quiet(s) && Enabled(s, t) && !t.RetryFailedStep? && !TouchesRows(t)
    requires !t.Record? && !t.PlanStep? && !t.SendChunk? && !t.OpenRelaunch? && !t.Ack?
    ensures Quiet(Apply(s, t))
  {
  }

  lemma {:induction false} QuietUntilSecond(tr: seq<State>, ts: seq<Step>, k: nat)
    requires Quietly(tr, ts) && k <= |ts| && forall i :: 0 <= i < k ==> !PlansSecond(tr[i], ts[i])
    ensures Quiet(tr[k])
  {
    if k > 0 {
      QuietUntilSecond(tr, ts, k - 1);
      QuietStep(tr, ts, k - 1, tr[k - 1], tr[k]);
    }
  }

  lemma QuietStep(tr: seq<State>, ts: seq<Step>, i: nat, s: State, s': State)
    requires Quietly(tr, ts) && i < |ts| && s == tr[i] && s' == tr[i + 1] && Quiet(s) && !PlansSecond(s, ts[i])
    ensures Quiet(s')
  {
    assert QuietStepAt(tr, ts, i);
    QuietKept(s, ts[i]);
  }

  lemma {:induction false} QuietWithoutStale(tr: seq<State>, ts: seq<Step>, k: nat)
    requires Quietly(tr, ts) && k <= |ts| && forall i :: 0 <= i < k ==> !Stale(tr[i], ts[i])
    ensures Quiet(tr[k]) && forall i :: 0 <= i < k ==> !PlansSecond(tr[i], ts[i])
  {
    if k > 0 {
      QuietWithoutStale(tr, ts, k - 1);
      NotStaleStep(tr, ts, k - 1, tr[k - 1]);
      QuietStep(tr, ts, k - 1, tr[k - 1], tr[k]);
    }
  }

  lemma NotStaleStep(tr: seq<State>, ts: seq<Step>, i: nat, s: State)
    requires Quietly(tr, ts) && i < |ts| && s == tr[i] && Quiet(s)
    ensures PlansSecond(s, ts[i]) <==> Stale(s, ts[i])
  {
    assert QuietStepAt(tr, ts, i);
    StaleExactly(s, ts[i]);
  }

  /** Without Retry failed, a run plans a second pack for some contact exactly when some press plans from a stale read. */
  lemma SecondPackExactly(tr: seq<State>, ts: seq<Step>)
    requires Quietly(tr, ts)
    ensures (exists i :: 0 <= i < |ts| && PlansSecond(tr[i], ts[i])) <==> (exists i :: 0 <= i < |ts| && Stale(tr[i], ts[i]))
  {
    if forall i :: 0 <= i < |ts| ==> !Stale(tr[i], ts[i]) { QuietWithoutStale(tr, ts, |ts|); }
    if forall i :: 0 <= i < |ts| ==> !PlansSecond(tr[i], ts[i]) {
      forall i | 0 <= i < |ts| ensures !Stale(tr[i], ts[i]) {
        QuietUntilSecond(tr, ts, i);
        NotStaleStep(tr, ts, i, tr[i]);
      }
    }
  }

  lemma QuietlyIsRun(tr: seq<State>, ts: seq<Step>)
    requires Quietly(tr, ts)
    ensures Run(tr)
  {
    forall i | 0 <= i < |tr| - 1 ensures StepAt(tr, i) { assert QuietStepAt(tr, ts, i); }
  }

  /** Without a stale read and without Retry failed, no contact ever holds a second pack in a generation, delivered or not. */
  lemma OnePackWithoutStale(tr: seq<State>, ts: seq<Step>, k: nat, id: PackId)
    requires Quietly(tr, ts) && k <= |ts| && forall i :: 0 <= i < k ==> !Stale(tr[i], ts[i])
    requires id in tr[k].cloud.packs && id.ContactPack?
    ensures id.ordinal == 0
  {
    QuietWithoutStale(tr, ts, k);
    QuietlyIsRun(tr, ts);
    RunInv(tr, k);
  }

  lemma {:induction false} FreshRunIsNotStale(tr: seq<State>, ts: seq<Step>, k: nat)
    requires Quietly(tr, ts) && k <= |ts| && forall i :: 0 <= i < k ==> FreshReads(tr[i], ts[i])
    ensures forall i :: 0 <= i < k ==> !Stale(tr[i], ts[i])
  {
    if k > 0 {
      FreshRunIsNotStale(tr, ts, k - 1);
      QuietWithoutStale(tr, ts, k - 1);
      FreshIsNotStale(tr[k - 1], ts[k - 1]);
    }
  }

  /** In particular when every contact a press read as queued is still queued as it plans. */
  lemma OnePackWithoutRetry(tr: seq<State>, ts: seq<Step>, k: nat, id: PackId)
    requires Quietly(tr, ts) && k <= |ts| && forall i :: 0 <= i < k ==> FreshReads(tr[i], ts[i])
    requires id in tr[k].cloud.packs && id.ContactPack?
    ensures id.ordinal == 0
  {
    FreshRunIsNotStale(tr, ts, k);
    OnePackWithoutStale(tr, ts, k, id);
  }

  // The failing run: two Re-launch presses read the same queued contact. While the second waits for its key, the
  // first opens the generation, plans, pushes and records, and breaks off before it closes; its pack fails; then
  // the second goes on.

  ghost predicate Steps(s: State, ts: seq<Step>, s': State)
    decreases |ts|
  {
    if ts == [] then s == s'
    else Enabled(s, ts[0]) && Steps(Apply(s, ts[0]), ts[1..], s')
  }

  lemma {:induction false} StepsAppend(s: State, ts: seq<Step>, m: State, us: seq<Step>, s': State)
    requires Steps(s, ts, m) && Steps(m, us, s')
    ensures Steps(s, ts + us, s')
    decreases |ts|
  {
    if ts == [] {
      assert ts + us == us;
    } else {
      StepsAppend(Apply(s, ts[0]), ts[1..], m, us, s');
      assert (ts + us)[1..] == ts[1..] + us;
    }
  }

  lemma OneStep(s: State, t: Step, s': State)
    requires Enabled(s, t) && s' == Apply(s, t)
    ensures Steps(s, [t], s')
  {
  }

  /** Steps from a run's last state extend the run. */
  lemma {:induction false} StepsExtendRun(start: seq<State>, ts: seq<Step>, s': State) returns (tr: seq<State>)
    requires Run(start) && Steps(start[|start| - 1], ts, s')
    ensures Run(tr) && tr[|tr| - 1] == s'
    decreases |ts|
  {
    if ts == [] {
      tr := start;
    } else {
      var next := Apply(start[|start| - 1], ts[0]);
      var longer := start + [next];
      assert Next(start[|start| - 1], next);
      forall i | 0 <= i < |longer| - 1 ensures StepAt(longer, i) {
        if i < |start| - 1 { assert StepAt(start, i); }
      }
      tr := StepsExtendRun(longer, ts[1..], s');
    }
  }

  predicate Calm(ts: seq<Step>) { forall t <- ts :: !t.RetryFailedStep? && !t.OpenRelaunch? }

  /** Nobody presses Retry failed, and a press that opens a generation plans in the very next step. */
  predicate AsTheTerminalSteps(ts: seq<Step>) {
    && (forall t <- ts :: !t.RetryFailedStep?)
    && (forall i :: 0 <= i < |ts| && ts[i].OpenRelaunch? ==> i + 1 < |ts| && ts[i + 1].PlanStep? && ts[i + 1].p == ts[i].p)
  }

  lemma AppendSteps(ts: seq<Step>, us: seq<Step>)
    requires AsTheTerminalSteps(ts) && AsTheTerminalSteps(us)
    ensures AsTheTerminalSteps(ts + us)
  {
  }

  lemma OpensThenPlans(rest: seq<Step>)
    requires Calm(rest) && |rest| > 0 && rest[0] == PlanStep(1, map[])
    ensures AsTheTerminalSteps([OpenRelaunch(1)] + rest)
  {
  }

  const NO_CLOUD: CM.Cloud := CM.Cloud(map[], map[], [], [], [])
  const ONLY: Candidate := Candidate(7, Queued, 70)
  const TARGET: Slot := Slot(1, Relaunch(1), 7)
  const FIRST: PackId := ContactPack(TARGET, 0)
  const SECOND: PackId := ContactPack(TARGET, 1)
  const WAITING: Rows := Rows(map[], map[(1, 7) := Queued])

  function Quiesce(camp: Camp, presses: map<nat, Press>): State {
    State(NO_CLOUD, WAITING, map[1 := camp], presses, {}, {})
  }

  /** Press `p` bumps the seq and reads contact 7 as queued. */
  lemma PressReads(camp: Camp, others: map<nat, Press>, p: nat) returns (ts: seq<Step>)
    requires p !in others
    ensures Steps(Quiesce(camp, others), ts,
                  Quiesce(camp.(seq_ := camp.seq_ + 1), others[p := RelaunchSelected(1, [ONLY])]))
    ensures Calm(ts)
  {
    var s0 := Quiesce(camp, others);
    var s1 := Quiesce(camp.(seq_ := camp.seq_ + 1), others[p := Pressed(1)]);
    var s2 := Quiesce(camp.(seq_ := camp.seq_ + 1), others[p := RelaunchSelected(1, [ONLY])]);
    OneStep(s0, ClaimRelaunch(p, 1, None), s1);
    assert others[p := Pressed(1)][p := RelaunchSelected(1, [ONLY])] == others[p := RelaunchSelected(1, [ONLY])];
    OneStep(s1, SelectRelaunch(p, [ONLY]), s2);
    ts := [ClaimRelaunch(p, 1, None)] + [SelectRelaunch(p, [ONLY])];
    StepsAppend(s0, [ClaimRelaunch(p, 1, None)], s1, [SelectRelaunch(p, [ONLY])], s2);
  }

  const OPENED: map<nat, Press> := map[1 := RelaunchOpened(1, 1, [ONLY]), 2 := RelaunchSelected(1, [ONLY])]

  lemma CampaignSetUp() returns (ts: seq<Step>)
    ensures Steps(State(NO_CLOUD, Rows(map[], map[]), map[], map[], {}, {}), ts, Quiesce(Camp(0, false, 0, {}, []), map[]))
    ensures Calm(ts)
  {
    var start := State(NO_CLOUD, Rows(map[], map[]), map[], map[], {}, {});
    var s1 := State(NO_CLOUD, Rows(map[], map[]), map[1 := Camp(0, false, 0, {}, [])], map[], {}, {});
    var s2 := Quiesce(Camp(0, false, 0, {}, []), map[]);
    OneStep(start, AddCampaign(1), s1);
    OneStep(s1, AddRecipient(1, 7), s2);
    StepsAppend(start, [AddCampaign(1)], s1, [AddRecipient(1, 7)], s2);
    ts := [AddCampaign(1)] + [AddRecipient(1, 7)];
  }

  function BothRead(): State {
    Quiesce(Camp(0, false, 2, {}, []), map[1 := RelaunchSelected(1, [ONLY]), 2 := RelaunchSelected(1, [ONLY])])
  }

  lemma FirstOpens()
    ensures Steps(BothRead(), [OpenRelaunch(1)], Quiesce(Camp(1, true, 2, {}, []), OPENED))
  {
    OneStep(BothRead(), OpenRelaunch(1), Quiesce(Camp(1, true, 2, {}, []), OPENED));
  }

  /** Both presses read contact 7 as queued. */
  lemma TwoPressesRead() returns (ts: seq<Step>)
    ensures Steps(State(NO_CLOUD, Rows(map[], map[]), map[], map[], {}, {}), ts, BothRead())
    ensures Calm(ts)
  {
    var start := State(NO_CLOUD, Rows(map[], map[]), map[], map[], {}, {});
    var s2 := Quiesce(Camp(0, false, 0, {}, []), map[]);
    ts := CampaignSetUp();
    var read1 := PressReads(Camp(0, false, 0, {}, []), map[], 1);
    var s3 := Quiesce(Camp(0, false, 1, {}, []), map[1 := RelaunchSelected(1, [ONLY])]);
    StepsAppend(start, ts, s2, read1, s3);
    var read2 := PressReads(Camp(0, false, 1, {}, []), map[1 := RelaunchSelected(1, [ONLY])], 2);
    StepsAppend(start, ts + read1, s3, read2, BothRead());
    ts := ts + read1 + read2;
  }

  lemma PlanForOne(jobs: Jobs, a: nat)
    requires forall i: nat :: i < a ==> IdOf(TARGET, i) in jobs
    requires IdOf(TARGET, a) !in jobs
    requires a == 0 || Retryable(jobs[IdOf(TARGET, a - 1)])
    ensures Ids(PlanOf(JobsOf(jobs, 1), map[], 1, Relaunch(1), [ONLY]).sends) == [IdOf(TARGET, a)]
  {
    var own := JobsOf(jobs, 1);
    NextOrdinalIs(own, TARGET, a);
    assert [ONLY][..0] == [];
    assert PlanOf(own, map[], 1, Relaunch(1), [ONLY][..0]) == Plan([], 0, []);
    assert Judge(own, map[], 1, Relaunch(1), ONLY) == Send(IdOf(TARGET, a));
    var p := PlanOf(own, map[], 1, Relaunch(1), [ONLY]);
    assert p.sends == [(ONLY, IdOf(TARGET, a))];
    assert p.sends[..0] == [];
  }

  function Held(status: PackStatus, claimedAt: Option<int>, resolvedAt: Option<int>, payload: bool): Packs {
    map[FIRST := Pack(1, status, 0, 0, claimedAt, resolvedAt, payload)]
  }

  function At(camp: Camp, packs: Packs, workers: map<nat, CM.Worker>, rows: Rows, first: Press,
              seen: set<(PackId, PackStatus)>): State {
    State(CM.Cloud(packs, workers, [], [], []), rows, map[1 := camp],
          map[1 := first, 2 := RelaunchSelected(1, [ONLY])], {FIRST}, seen)
  }

  function Sending(sent: nat, acked: nat): Press { Pushing(1, Relaunch(1), true, [FIRST], sent, acked) }

  const RECORDED: Rows := Rows(map[FIRST := Dispatched], map[(1, 7) := MarkedSent])
  const FAILED: Rows := Rows(map[FIRST := JobFailed], map[(1, 7) := MarkedFailed])

  const STORED: Packs := map[FIRST := Pack(1, Pending, 0, 0, None, None, true)]

  function Early(k: Camp, packs: Packs, first: Press): State { At(k, packs, map[], WAITING, first, {}) }

  lemma StepPlans(k: Camp)
    ensures var s := Quiesce(k, OPENED);
            Steps(s, [PlanStep(1, map[])], Quiesce(k, OPENED[1 := Sending(0, 0)]))
  {
    PlanForOne(map[], 0);
    OneStep(Quiesce(k, OPENED), PlanStep(1, map[]), Quiesce(k, OPENED[1 := Sending(0, 0)]));
  }

  lemma StepSends(k: Camp)
    ensures Steps(Quiesce(k, OPENED[1 := Sending(0, 0)]), [SendChunk(1, 1)], Early(k, map[], Sending(1, 0)))
  {
    assert [FIRST][..1] == [FIRST];
    assert (set id | id in [FIRST]) == {FIRST};
    OneStep(Quiesce(k, OPENED[1 := Sending(0, 0)]), SendChunk(1, 1), Early(k, map[], Sending(1, 0)));
  }

  lemma StepLandsAndAcks(k: Camp)
    ensures Steps(Early(k, map[], Sending(1, 0)), [Land(FIRST, 0, 0)], Early(k, STORED, Sending(1, 0)))
    ensures Steps(Early(k, STORED, Sending(1, 0)), [Ack(1)], Early(k, STORED, Sending(1, 1)))
  {
    OneStep(Early(k, map[], Sending(1, 0)), Land(FIRST, 0, 0), Early(k, STORED, Sending(1, 0)));
    OneStep(Early(k, STORED, Sending(1, 0)), Ack(1), Early(k, STORED, Sending(1, 1)));
  }

  lemma StepRecords(k: Camp)
    ensures Steps(Early(k, STORED, Sending(1, 1)), [Record(1)],
                  At(k, STORED, map[], RECORDED, Finished(1, Relaunch(1), true), {}))
  {
    assert [FIRST][..0] == [] && [FIRST][..1] == [FIRST];
    assert RecordAll(WAITING, 1, [FIRST][..0]) == Some(WAITING);
    assert WAITING.recips[(1, 7) := MarkedSent] == RECORDED.recips;
    assert RecordOne(WAITING, 1, FIRST) == RECORDED;
    assert RecordAll(WAITING, 1, [FIRST]) == Some(RECORDED);
    OneStep(Early(k, STORED, Sending(1, 1)), Record(1), At(k, STORED, map[], RECORDED, Finished(1, Relaunch(1), true), {}));
  }

  lemma StepBreaksOff(k: Camp)
    ensures Steps(At(k, STORED, map[], RECORDED, Finished(1, Relaunch(1), true), {}), [Drop(1)],
                  At(k, STORED, map[], RECORDED, Press.Idle, {}))
  {
    OneStep(At(k, STORED, map[], RECORDED, Finished(1, Relaunch(1), true), {}), Drop(1),
            At(k, STORED, map[], RECORDED, Press.Idle, {}));
  }

  lemma FirstPackLands(k: Camp) returns (ts: seq<Step>)
    ensures Steps(Quiesce(k, OPENED), ts, Early(k, STORED, Sending(1, 0)))
    ensures Calm(ts) && |ts| > 0 && ts[0] == PlanStep(1, map[])
  {
    StepPlans(k);
    StepSends(k);
    StepLandsAndAcks(k);
    var s0 := Quiesce(k, OPENED);
    ts := [PlanStep(1, map[])];
    StepsAppend(s0, ts, Quiesce(k, OPENED[1 := Sending(0, 0)]), [SendChunk(1, 1)], Early(k, map[], Sending(1, 0)));
    ts := ts + [SendChunk(1, 1)];
    StepsAppend(s0, ts, Early(k, map[], Sending(1, 0)), [Land(FIRST, 0, 0)], Early(k, STORED, Sending(1, 0)));
    ts := ts + [Land(FIRST, 0, 0)];
  }

  lemma FirstPackIsRecorded(k: Camp) returns (ts: seq<Step>)
    ensures Steps(Early(k, STORED, Sending(1, 0)), ts, At(k, STORED, map[], RECORDED, Press.Idle, {}))
    ensures Calm(ts)
  {
    StepLandsAndAcks(k);
    StepRecords(k);
    StepBreaksOff(k);
    var s0, s1 := Early(k, STORED, Sending(1, 0)), At(k, STORED, map[], RECORDED, Finished(1, Relaunch(1), true), {});
    StepsAppend(s0, [Ack(1)], Early(k, STORED, Sending(1, 1)), [Record(1)], s1);
    ts := [Ack(1)] + [Record(1)];
    StepsAppend(s0, ts, s1, [Drop(1)], At(k, STORED, map[], RECORDED, Press.Idle, {}));
    ts := ts + [Drop(1)];
  }

  /** Press 1 opens, plans, pushes and records contact 7; its closing write fails, so the generation stays open. */
  lemma FirstPressRuns(k: Camp) returns (ts: seq<Step>)
    requires k == Camp(1, true, 2, {}, [])
    ensures Steps(BothRead(), ts, At(k, STORED, map[], RECORDED, Press.Idle, {}))
    ensures AsTheTerminalSteps(ts)
  {
    var lands := FirstPackLands(k);
    var recorded := FirstPackIsRecorded(k);
    var s1, s2 := Early(k, STORED, Sending(1, 0)), At(k, STORED, map[], RECORDED, Press.Idle, {});
    FirstOpens();
    StepsAppend(BothRead(), [OpenRelaunch(1)], Quiesce(k, OPENED), lands, s1);
    StepsAppend(BothRead(), [OpenRelaunch(1)] + lands, s1, recorded, s2);
    OpensThenPlans(lands);
    AppendSteps([OpenRelaunch(1)] + lands, recorded);
    ts := [OpenRelaunch(1)] + lands + recorded;
  }

  function GivenUp(k: Camp, done: Press): State {
    At(k, Held(Failed, Some(0), Some(0), false), map[0 := CM.Worker.Idle], RECORDED, done, {})
  }

  lemma DispatcherGivesUp(k: Camp, done: Press) returns (ts: seq<Step>)
    ensures Steps(At(k, Held(Pending, None, None, true), map[], RECORDED, done, {}), ts, GivenUp(k, done))
    ensures Calm(ts)
  {
    var s0 := At(k, Held(Pending, None, None, true), map[], RECORDED, done, {});
    var t1 := CloudStep(CM.ClaimStep(0, FIRST, 0));
    var s1 := At(k, Held(PackStatus.Claimed, Some(0), None, true), map[0 := CM.Holding(FIRST)], RECORDED, done, {});
    OneStep(s0, t1, s1);
    var t2 := CloudStep(CM.GiveUpStep(0, Failed, false, 0));
    OneStep(s1, t2, GivenUp(k, done));
    StepsAppend(s0, [t1], s1, [t2], GivenUp(k, done));
    ts := [t1] + [t2];
  }

  function Observed(k: Camp, done: Press): State {
    At(k, Held(Failed, Some(0), Some(0), false), map[0 := CM.Worker.Idle], RECORDED, done, {(FIRST, Failed)})
  }

  lemma StepObserves(k: Camp, done: Press)
    ensures Steps(GivenUp(k, done), [Observe(FIRST)], Observed(k, done))
  {
    OneStep(GivenUp(k, done), Observe(FIRST), Observed(k, done));
  }

  lemma StepDelivers(k: Camp, done: Press)
    ensures Steps(Observed(k, done), [DeliverOutcome(FIRST, Failed)], Late(k, done))
  {
    OneStep(Observed(k, done), DeliverOutcome(FIRST, Failed), Late(k, done));
  }

  lemma FailureArrives(k: Camp, done: Press) returns (ts: seq<Step>)
    ensures Steps(GivenUp(k, done), ts, Late(k, done))
    ensures Calm(ts)
  {
    StepObserves(k, done);
    StepDelivers(k, done);
    StepsAppend(GivenUp(k, done), [Observe(FIRST)], Observed(k, done), [DeliverOutcome(FIRST, Failed)], Late(k, done));
    ts := [Observe(FIRST)] + [DeliverOutcome(FIRST, Failed)];
  }

  /** The dispatcher cannot decrypt the pack, and the failure reaches the terminal. */
  lemma FirstPackFails(k: Camp, done: Press) returns (ts: seq<Step>)
    ensures Steps(At(k, Held(Pending, None, None, true), map[], RECORDED, done, {}), ts, Late(k, done))
    ensures Calm(ts)
  {
    var t1 := DispatcherGivesUp(k, done);
    var t2 := FailureArrives(k, done);
    StepsAppend(At(k, Held(Pending, None, None, true), map[], RECORDED, done, {}), t1, GivenUp(k, done), t2, Late(k, done));
    ts := t1 + t2;
  }

  function Late(k: Camp, done: Press): State {
    At(k, Held(Failed, Some(0), Some(0), false), map[0 := CM.Worker.Idle], FAILED, done, {(FIRST, Failed)})
  }

  /** Press 2 has its key and finishes the open generation. */
  function Resumed(k: Camp, done: Press): State {
    SetPress(Late(k, done), 2, RelaunchOpened(1, k.gen, [ONLY]))
  }

  lemma StepOpensAgain(k: Camp, done: Press)
    requires k.open
    ensures Steps(Late(k, done), [OpenRelaunch(2)], Resumed(k, done))
  {
    OneStep(Late(k, done), OpenRelaunch(2), Resumed(k, done));
  }

  function Second(sent: nat): Press { Pushing(1, Relaunch(1), true, [SECOND], sent, 0) }

  lemma StepPlansAgain(k: Camp, done: Press)
    requires k.gen == 1
    ensures Steps(Resumed(k, done), [PlanStep(2, map[])], SetPress(Late(k, done), 2, Second(0)))
  {
    PlanForOne(FAILED.jobs, 1);
    assert Late(k, done).presses[2 := RelaunchOpened(1, 1, [ONLY])][2 := Second(0)] == Late(k, done).presses[2 := Second(0)];
    OneStep(Resumed(k, done), PlanStep(2, map[]), SetPress(Late(k, done), 2, Second(0)));
  }

  lemma StepSendsAgain(k: Camp, done: Press)
    ensures Steps(SetPress(Late(k, done), 2, Second(0)), [SendChunk(2, 1)],
                  SetPress(Late(k, done), 2, Second(1)).(wire := {FIRST, SECOND}))
  {
    assert [SECOND][..1] == [SECOND];
    assert (set id | id in [SECOND]) == {SECOND};
    var s1 := SetPress(Late(k, done), 2, Second(0));
    var s2 := SetPress(Late(k, done), 2, Second(1)).(wire := {FIRST, SECOND});
    assert s1.presses[2 := Second(1)] == s2.presses;
    OneStep(s1, SendChunk(2, 1), s2);
  }

  /** Press 2 still believes contact 7 is queued: it finishes generation 1 and pushes the next ordinal. */
  lemma SecondPackLands(k: Camp, done: Press) returns (ts: seq<Step>, s': State)
    requires k.open && k.gen == 1
    ensures Steps(Late(k, done), ts, s')
    ensures AsTheTerminalSteps(ts)
    ensures SECOND in s'.cloud.packs
  {
    StepOpensAgain(k, done);
    StepPlansAgain(k, done);
    StepSendsAgain(k, done);
    StepsAppend(Late(k, done), [OpenRelaunch(2)], Resumed(k, done), [PlanStep(2, map[])], SetPress(Late(k, done), 2, Second(0)));
    var s1 := SetPress(Late(k, done), 2, Second(0));
    var s2 := SetPress(Late(k, done), 2, Second(1)).(wire := {FIRST, SECOND});
    ts := [OpenRelaunch(2)] + [PlanStep(2, map[])];
    StepsAppend(Late(k, done), ts, s1, [SendChunk(2, 1)], s2);
    ts := ts + [SendChunk(2, 1)];
    s' := Apply(s2, Land(SECOND, 0, 0));
    OneStep(s2, Land(SECOND, 0, 0), s');
    StepsAppend(Late(k, done), ts, s2, [Land(SECOND, 0, 0)], s');
    ts := ts + [Land(SECOND, 0, 0)];
  }

  /**
   A second pack in one generation with nobody having pressed Retry failed: one stale read suffices, even though a
   press that opens a generation plans before anything else happens.
   */
  lemma StaleReadSendsAgain() returns (ts: seq<Step>, tr: seq<State>)
    ensures Run(tr) && Steps(tr[0], ts, tr[|tr| - 1])
    ensures AsTheTerminalSteps(ts)
    ensures SECOND in tr[|tr| - 1].cloud.packs
  {
    var start := State(NO_CLOUD, Rows(map[], map[]), map[], map[], {}, {});
    var k := Camp(1, true, 2, {}, []);
    var done := Press.Idle;
    var ts1 := TwoPressesRead();
    var ts2 := FirstPressRuns(k);
    var m2 := At(k, Held(Pending, None, None, true), map[], RECORDED, done, {});
    StepsAppend(start, ts1, BothRead(), ts2, m2);
    AppendSteps(ts1, ts2);
    var ts3 := FirstPackFails(k, done);
    var m3 := At(k, Held(Failed, Some(0), Some(0), false), map[0 := CM.Worker.Idle], FAILED, done, {(FIRST, Failed)});
    StepsAppend(start, ts1 + ts2, m2, ts3, m3);
    AppendSteps(ts1 + ts2, ts3);
    var ts4, s' := SecondPackLands(k, done);
    StepsAppend(start, ts1 + ts2 + ts3, m3, ts4, s');
    AppendSteps(ts1 + ts2 + ts3, ts4);
    ts := ts1 + ts2 + ts3 + ts4;
    tr := StepsExtendRun([start], ts, s');
    RunStart(tr);
  }

  lemma RunStart(tr: seq<State>)
    requires Run(tr)
    ensures tr[0] == State(NO_CLOUD, Rows(map[], map[]), map[], map[], {}, {})
  {
  }
}
