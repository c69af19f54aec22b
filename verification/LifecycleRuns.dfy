/**
 Campaigns, stages and presses side by side. The scheduler works from lists it selected earlier while operators
 archive, cancel, edit and press; a press that passed its checks pushes later, in parts.
 */
module LifecycleRuns {
  import opened PackIds
  import opened Lifecycle
  import Desk

  /** A launch reads the status, then waits for the key before it writes; a cleared press may push. */
  datatype Press = Idle | LaunchRead(c: nat) | Cleared(c: nat)

  datatype Sched =
    | Resting
    | Cancelling(todo: seq<(nat, nat, CampStatus)>)      // stage, campaign, the status it was selected with
    | Staging(due: seq<nat>)
    | Live(stage: nat, c: nat, due: seq<nat>)            // a stage launch past its checks
    | FailingBad(bad: seq<nat>)

  datatype State = State(w: World, packs: set<PackId>, presses: map<nat, Press>, sched: Sched)

  datatype Step =
    | AddCampaign(c: nat)
    | AddStage(c: nat, due: Due)
    | EditStage(id: nat, due: Due)
    | DeleteStage(id: nat)
    | Archive(c: nat)
    | Cancel(c: nat)
    | MarkTested(c: nat)
    | Schedule(c: nat)
    | Pause(c: nat)
    | Resume(c: nat)
    | RetryFailed(c: nat)
    | RefuseCampaign(c: nat)
    | BeginLaunch(p: nat, c: nat)
    | GoLaunch(p: nat)
    | BeginOpen(p: nat, c: nat)                          // approve, Re-launch and the batch finish
    | Push(p: nat, ids: set<PackId>)
    | EndPress(p: nat)
    | SelectClosed(todo: seq<(nat, nat, CampStatus)>)
    | CancelNext
    | SelectDue(chosen: seq<nat>)
    | StageNext
    | StagePush(ids: set<PackId>)
    | StageEnd(o: Outcome)
    | SelectBad(bad: seq<nat>)
    | BadNext
    | Rest                                               // the pass ends, or the terminal stops at any point

  function PressAt(s: State, p: nat): Press { if p in s.presses then s.presses[p] else Idle }

  function StatusOf(s: State, c: nat): CampStatus { if c in s.w.camps then s.w.camps[c].status else Draft }

  predicate Of(id: PackId, c: nat) { id.ContactPack? && id.slot.campaign == c }

  predicate OfStage(id: PackId, c: nat, stage: nat) { Of(id, c) && id.slot.key == Stage(stage) }

  predicate Enabled(s: State, t: Step)
    requires WellFormed(s.w)
  {
    match t
    case AddCampaign(c) => c !in s.w.camps
    case AddStage(c, _) => c in s.w.camps
    case EditStage(id, _) => id in s.w.stages
    case DeleteStage(id) => id in s.w.stages
    case Archive(c) => c in s.w.camps
    case Cancel(c) => c in s.w.camps
    case MarkTested(c) => c in s.w.camps
    case Schedule(c) => StatusOf(s, c) == Tested && c in s.w.camps && s.w.camps[c].tested
    case Pause(c) => StatusOf(s, c) in {Scheduled, Dispatched, Tested} && c in s.w.camps
    case Resume(c) => StatusOf(s, c) == Paused
    case RetryFailed(c) => c in s.w.camps
    case RefuseCampaign(c) => StatusOf(s, c) == Scheduled
    case BeginLaunch(p, c) => PressAt(s, p).Idle? && StatusOf(s, c) in {Tested, Scheduled} && c in s.w.camps && s.w.camps[c].tested
    case GoLaunch(p) => PressAt(s, p).LaunchRead? && PressAt(s, p).c in s.w.camps
    case BeginOpen(p, c) => PressAt(s, p).Idle? && c in s.w.camps && StatusOf(s, c) != Archived
    case Push(p, ids) => PressAt(s, p).Cleared? && forall id <- ids :: Of(id, PressAt(s, p).c) && !id.slot.key.Stage?
    case EndPress(p) => true
    case SelectClosed(todo) =>
      && s.sched.Resting?
      && (forall e <- todo :: ToCancel(s.w, e.0) && s.w.stages[e.0].campaign == e.1 && e.2 == CampOf(s.w, e.0).status)
      && (forall id <- s.w.stages | ToCancel(s.w, id) :: (id, s.w.stages[id].campaign, CampOf(s.w, id).status) in todo)
    case CancelNext => s.sched.Cancelling? && s.sched.todo != []
    case SelectDue(due) => s.sched == Cancelling([]) && forall id <- due :: id in s.w.stages && StillDue(s.w, id) && CampOf(s.w, id).tested
    case StageNext => s.sched.Staging? && s.sched.due != []
    case StagePush(ids) => s.sched.Live? && forall id <- ids :: OfStage(id, s.sched.c, s.sched.stage)
    case StageEnd(_) => s.sched.Live?
    case SelectBad(bad) => s.sched == Staging([]) && forall id <- bad :: ToFail(s.w, id)
    case BadNext => s.sched.FailingBad? && s.sched.bad != []
    case Rest => true
  }

  function SetStatus(w: World, c: nat, status: CampStatus): World
    requires c in w.camps
  {
    w.(camps := w.camps[c := w.camps[c].(status := status)])
  }

  function Apply(s: State, t: Step): State
    requires WellFormed(s.w) && Enabled(s, t)
  {
    match t
    case AddCampaign(c) => s.(w := s.w.(camps := s.w.camps[c := Camp(Draft, false)]))
    case AddStage(c, due) =>
      s.(w := s.w.(stages := s.w.stages[s.w.lastStage + 1 := StageRow(c, Pending, due)], lastStage := s.w.lastStage + 1))
    case EditStage(id, due) => s.(w := s.w.(stages := s.w.stages[id := s.w.stages[id].(due := due)]))
    case DeleteStage(id) => s.(w := s.w.(stages := s.w.stages - {id}))
    case Archive(c) => s.(w := SetStatus(s.w, c, Archived))
    case Cancel(c) => s.(w := SetStatus(s.w, c, Cancelled))
    case MarkTested(c) =>
      s.(w := s.w.(camps := s.w.camps[c := Camp(if s.w.camps[c].status == Scheduled then Scheduled else Tested, true)]))
    case Schedule(c) => s.(w := SetStatus(s.w, c, Scheduled))
    case Pause(c) => s.(w := SetStatus(s.w, c, Paused))
    case Resume(c) => s.(w := SetStatus(s.w, c, if s.w.camps[c].tested then Tested else Draft))
    case RetryFailed(c) => s.(w := SetStatus(s.w, c, Tested))
    case RefuseCampaign(c) => s.(w := SetStatus(s.w, c, CampFailed))
    case BeginLaunch(p, c) => s.(presses := s.presses[p := LaunchRead(c)])
    case GoLaunch(p) =>
      var c := PressAt(s, p).c;
      s.(w := SetStatus(s.w, c, Dispatched), presses := s.presses[p := Cleared(c)])
    case BeginOpen(p, c) => s.(presses := s.presses[p := Cleared(c)])
    case Push(p, ids) => s.(packs := s.packs + ids)
    case EndPress(p) => s.(presses := s.presses[p := Idle])
    case SelectClosed(todo) => s.(sched := Cancelling(todo))
    case CancelNext =>
      var e := s.sched.todo[0];
      s.(w := CancelOne(s.w, e.0, e.1, e.2), sched := Cancelling(s.sched.todo[1..]))
    case SelectDue(due) => s.(sched := Staging(due))
    case StageNext =>
      var id := s.sched.due[0];
      if StillDue(s.w, id) then s.(sched := Live(id, s.w.stages[id].campaign, s.sched.due[1..]))
      else s.(sched := Staging(s.sched.due[1..]))
    case StagePush(ids) => s.(packs := s.packs + ids)
    case StageEnd(o) => s.(w := EndStage(s.w, s.sched.stage, o), sched := Staging(s.sched.due))
    case SelectBad(bad) => s.(sched := FailingBad(bad))
    case BadNext => s.(w := FailOne(s.w, s.sched.bad[0], false), sched := FailingBad(s.sched.bad[1..]))
    case Rest => s.(sched := Resting)
  }

  predicate Init(s: State) { s == State(World(map[], map[], 0, []), {}, map[], Resting) }

  /** A stage being launched is still pending, unless it was deleted meanwhile. */
  predicate LiveStage(w: World, id: nat) { 0 < id <= w.lastStage && (id in w.stages ==> w.stages[id].status == Pending) }

  ghost predicate Inv(s: State) {
    && WellFormed(s.w) && CancelsMatch(s.w)
    && (s.sched.Live? ==> LiveStage(s.w, s.sched.stage))
  }

  ghost predicate Next(s: State, s': State) { WellFormed(s.w) && exists t :: Enabled(s, t) && s' == Apply(s, t) }

  ghost predicate Run(tr: seq<State>) {
    && |tr| > 0 && Init(tr[0])
    && forall i :: 0 <= i < |tr| - 1 ==> StepAt(tr, i)
  }

  ghost predicate StepAt(tr: seq<State>, i: nat)
    requires i + 1 < |tr|
  {
    Next(tr[i], tr[i + 1])
  }

  /** Steps that write rows outside the scheduler's stage passes. */
  predicate RowStep(t: Step) {
    t.AddCampaign? || t.AddStage? || t.EditStage? || t.DeleteStage? || t.Archive? || t.Cancel? || t.MarkTested?
    || t.Schedule? || t.Pause? || t.Resume? || t.RetryFailed? || t.RefuseCampaign? || t.GoLaunch?
  }

  lemma RowStepKeepsInv(s: State, t: Step)
    requires Inv(s) && Enabled(s, t) && RowStep(t)
    ensures Inv(Apply(s, t))
  {
    assert Apply(s, t).w.audits == s.w.audits;
  }

  lemma SchedulerKeepsInv(s: State, t: Step)
    requires Inv(s) && Enabled(s, t) && !RowStep(t)
    ensures Inv(Apply(s, t))
  {
    if t.CancelNext? {
      var e := s.sched.todo[0];
      CancelOneKeeps(s.w, e.0, e.1, e.2);
    } else if t.StageEnd? {
      EndStageKeeps(s.w, s.sched.stage, t.o);
    } else if t.BadNext? {
      FailOneKeeps(s.w, s.sched.bad[0], false);
    }
  }

  lemma NextKeepsInv(s: State, s': State)
    requires Inv(s) && Next(s, s')
    ensures Inv(s')
  {
    var t :| Enabled(s, t) && s' == Apply(s, t);
    if RowStep(t) { RowStepKeepsInv(s, t); } else { SchedulerKeepsInv(s, t); }
  }

  lemma {:induction false} RunInv(tr: seq<State>, i: nat)
    requires Run(tr) && i < |tr|
    ensures Inv(tr[i])
  {
    if i > 0 {
      RunInv(tr, i - 1);
      InvStep(tr, i - 1, tr[i - 1], tr[i]);
    }
  }

  lemma InvStep(tr: seq<State>, i: nat, s: State, s': State)
    requires Run(tr) && i + 1 < |tr| && s == tr[i] && s' == tr[i + 1] && Inv(s)
    ensures Inv(s')
  {
    assert StepAt(tr, i);
    NextKeepsInv(s, s');
  }

  /** In every reachable state a stage is cancelled exactly when one stage_cancelled row names it, and no stage has two, deleted ones included. */
  lemma CancelledIffOneRow(tr: seq<State>, i: nat, id: nat)
    requires Run(tr) && i < |tr|
    ensures CancelRows(tr[i].w.audits, id) <= 1
    ensures id in tr[i].w.stages ==> (tr[i].w.stages[id].status == StageCancelled <==> CancelRows(tr[i].w.audits, id) == 1)
  {
    RunInv(tr, i);
  }

  // Cancelled by whom

  /** The cancels still to do are of stages selected while their campaign was archived or cancelled. */
  predicate TodoClosed(s: State) {
    s.sched.Cancelling? ==> forall e <- s.sched.todo ::
      e.2 in {Archived, Cancelled} && 0 < e.0 <= s.w.lastStage && (e.0 in s.w.stages ==> s.w.stages[e.0].campaign == e.1)
  }

  lemma TodoStep(tr: seq<State>, i: nat, s: State, s': State)
    requires Run(tr) && i + 1 < |tr| && s == tr[i] && s' == tr[i + 1] && TodoClosed(s)
    ensures TodoClosed(s')
  {
    RunInv(tr, i);
    assert StepAt(tr, i);
    var t :| Enabled(s, t) && s' == Apply(s, t);
    StepKeepsTodo(s, t);
  }

  lemma StepKeepsTodo(s: State, t: Step)
    requires WellFormed(s.w) && Enabled(s, t) && TodoClosed(s)
    ensures TodoClosed(Apply(s, t))
  {
  }

  lemma {:induction false} RunTodo(tr: seq<State>, i: nat)
    requires Run(tr) && i < |tr|
    ensures TodoClosed(tr[i])
  {
    if i > 0 {
      RunTodo(tr, i - 1);
      TodoStep(tr, i - 1, tr[i - 1], tr[i]);
    }
  }

  /** A stage turns cancelled only at a moment when its campaign is archived or cancelled: an operator who reopened it in between wins. */
  lemma CancelledOnlyWhileClosed(tr: seq<State>, i: nat, id: nat)
    requires Run(tr) && i + 1 < |tr| && id in tr[i].w.stages && id in tr[i + 1].w.stages
    requires tr[i].w.stages[id].status != StageCancelled && tr[i + 1].w.stages[id].status == StageCancelled
    ensures tr[i].w.stages[id].status == Pending && StatusOf(tr[i], tr[i].w.stages[id].campaign) in {Archived, Cancelled}
  {
    RunTodo(tr, i);
    CancelStep(tr, i, tr[i], tr[i + 1], id);
  }

  lemma CancelStep(tr: seq<State>, i: nat, s: State, s': State, id: nat)
    requires Run(tr) && i + 1 < |tr| && s == tr[i] && s' == tr[i + 1] && TodoClosed(s)
    requires id in s.w.stages && id in s'.w.stages && s.w.stages[id].status != StageCancelled && s'.w.stages[id].status == StageCancelled
    ensures s.w.stages[id].status == Pending && StatusOf(s, s.w.stages[id].campaign) in {Archived, Cancelled}
  {
    assert StepAt(tr, i);
    var t :| Enabled(s, t) && s' == Apply(s, t);
    OnlyCancelNextCancels(s, t, id);
  }

  lemma OnlyCancelNextCancels(s: State, t: Step, id: nat)
    requires WellFormed(s.w) && Enabled(s, t) && TodoClosed(s) && id in s.w.stages && id in Apply(s, t).w.stages
    requires s.w.stages[id].status != StageCancelled && Apply(s, t).w.stages[id].status == StageCancelled
    ensures s.w.stages[id].status == Pending && StatusOf(s, s.w.stages[id].campaign) in {Archived, Cancelled}
  {
    if RowStep(t) {
      RowStepCancelsNone(s, t, id);
    } else if !t.CancelNext? {
      OtherStepCancelsNone(s, t, id);
    } else {
      assert s.sched.todo[0] in s.sched.todo;
    }
  }

  lemma RowStepCancelsNone(s: State, t: Step, id: nat)
    requires WellFormed(s.w) && Enabled(s, t) && RowStep(t) && id in s.w.stages && id in Apply(s, t).w.stages
    ensures Apply(s, t).w.stages[id].status == s.w.stages[id].status
  {
  }

  lemma OtherStepCancelsNone(s: State, t: Step, id: nat)
    requires WellFormed(s.w) && Enabled(s, t) && !RowStep(t) && !t.CancelNext? && id in s.w.stages && id in Apply(s, t).w.stages
    ensures Apply(s, t).w.stages[id].status == StageCancelled ==> s.w.stages[id].status == StageCancelled
  {
  }

  // Leaving pending

  /** A stage row once settled keeps its status; a deleted id stays unused; rows never lose their campaign. */
  ghost predicate StageMoves(s: State, s': State) {
    && s.w.lastStage <= s'.w.lastStage
    && (forall id <- s'.w.stages :: id in s.w.stages || id > s.w.lastStage)
    && (forall id <- s'.w.stages :: id in s.w.stages ==>
          && s'.w.stages[id].campaign == s.w.stages[id].campaign
          && (s.w.stages[id].status != Pending ==> s'.w.stages[id].status == s.w.stages[id].status))
  }

  lemma StepMoves(s: State, s': State)
    requires Inv(s) && Next(s, s')
    ensures StageMoves(s, s')
  {
    var t :| Enabled(s, t) && s' == Apply(s, t);
    if !RowStep(t) { SchedulerMoves(s, t); }
  }

  lemma SchedulerMoves(s: State, t: Step)
    requires Inv(s) && Enabled(s, t) && !RowStep(t)
    ensures StageMoves(s, Apply(s, t))
  {
  }

  lemma RunStep(tr: seq<State>, i: nat, s: State, s': State)
    requires Run(tr) && i + 1 < |tr| && s == tr[i] && s' == tr[i + 1]
    ensures WellFormed(s.w) && StageMoves(s, s')
  {
    RunInv(tr, i);
    assert StepAt(tr, i);
    StepMoves(s, s');
  }

  lemma MovesCompose(s: State, t: State, u: State)
    requires StageMoves(s, t) && StageMoves(t, u) && WellFormed(s.w)
    ensures StageMoves(s, u)
  {
  }

  lemma {:induction false} RunMoves(tr: seq<State>, i: nat, j: nat)
    requires Run(tr) && i <= j < |tr|
    ensures WellFormed(tr[i].w) && StageMoves(tr[i], tr[j])
    decreases j
  {
    if i == j {
      RunInv(tr, i);
    } else {
      var k := j - 1;
      RunMoves(tr, i, k);
      RunStep(tr, k, tr[k], tr[j]);
      MovesCompose(tr[i], tr[k], tr[j]);
    }
  }

  /** A stage leaves pending at most once: whatever it left for, it stays, under every interleaving. */
  lemma LeavesPendingOnce(tr: seq<State>, i: nat, j: nat, id: nat)
    requires Run(tr) && i <= j < |tr| && id in tr[i].w.stages && tr[i].w.stages[id].status != Pending
    ensures id in tr[j].w.stages ==> tr[j].w.stages[id].status == tr[i].w.stages[id].status
  {
    RunMoves(tr, i, j);
  }

  /** A deleted stage's id never comes back. */
  lemma DeletedStaysDeleted(tr: seq<State>, i: nat, j: nat, id: nat)
    requires Run(tr) && i <= j < |tr| && id !in tr[i].w.stages && id <= tr[i].w.lastStage
    ensures id !in tr[j].w.stages
  {
    RunMoves(tr, i, j);
  }

  // Tested first

  /** Whoever launches read a test send on record, and so did whoever scheduled. */
  predicate TestsOnRecord(s: State) {
    && (forall p <- s.presses :: s.presses[p].LaunchRead? ==> s.presses[p].c in s.w.camps && s.w.camps[s.presses[p].c].tested)
    && (forall c <- s.w.camps :: s.w.camps[c].status in {Scheduled, Dispatched} ==> s.w.camps[c].tested)
  }

  lemma TestsKept(tr: seq<State>, i: nat, s: State, s': State)
    requires Run(tr) && i + 1 < |tr| && s == tr[i] && s' == tr[i + 1] && TestsOnRecord(s)
    ensures TestsOnRecord(s')
  {
    assert StepAt(tr, i);
    var t :| Enabled(s, t) && s' == Apply(s, t);
    if RowStep(t) { RowStepKeepsTests(s, t); } else { SchedulerKeepsTests(s, t); }
  }

  lemma RowStepKeepsTests(s: State, t: Step)
    requires WellFormed(s.w) && Enabled(s, t) && RowStep(t) && TestsOnRecord(s)
    ensures TestsOnRecord(Apply(s, t))
  {
  }

  lemma SchedulerKeepsTests(s: State, t: Step)
    requires WellFormed(s.w) && Enabled(s, t) && !RowStep(t) && TestsOnRecord(s)
    ensures TestsOnRecord(Apply(s, t))
  {
    assert Apply(s, t).w.camps == s.w.camps;
  }

  /** A campaign is scheduled or dispatched only with a test send on record, whatever presses and edits interleave. */
  lemma {:induction false} DispatchedWasTested(tr: seq<State>, i: nat)
    requires Run(tr) && i < |tr|
    ensures TestsOnRecord(tr[i])
  {
    if i > 0 {
      DispatchedWasTested(tr, i - 1);
      TestsKept(tr, i - 1, tr[i - 1], tr[i]);
    }
  }

  // Closed campaigns

  function PacksOf(s: State, c: nat): set<PackId> { set id <- s.packs | Of(id, c) }

  function StagePacksOf(s: State, c: nat): set<PackId> { set id <- s.packs | Of(id, c) && id.slot.key.Stage? }

  predicate NoStageLive(s: State, c: nat) { !(s.sched.Live? && s.sched.c == c) }

  /** Nothing that passed its checks for the campaign is still under way. */
  predicate NothingUnderWay(s: State, c: nat) {
    NoStageLive(s, c) && forall p <- s.presses :: s.presses[p].Idle? || s.presses[p].c != c
  }

  predicate PressStep(t: Step) { t.BeginLaunch? || t.GoLaunch? || t.BeginOpen? || t.Push? || t.EndPress? }

  lemma ArchivedStepAt(tr: seq<State>, i: nat, s: State, s': State, c: nat)
    requires Run(tr) && i + 1 < |tr| && s == tr[i] && s' == tr[i + 1] && NothingUnderWay(s, c) && StatusOf(s, c) == Archived
    ensures NothingUnderWay(s', c) && PacksOf(s', c) == PacksOf(s, c)
  {
    assert StepAt(tr, i);
    ArchivedStep(s, s', c);
  }

  lemma ArchivedStep(s: State, s': State, c: nat)
    requires Next(s, s') && NothingUnderWay(s, c) && StatusOf(s, c) == Archived
    ensures NothingUnderWay(s', c) && PacksOf(s', c) == PacksOf(s, c)
  {
  }

  /** While a campaign stays archived no action adds a pack for it, once whatever was under way has ended. */
  lemma {:induction false} ArchivedAddsNothing(tr: seq<State>, i: nat, j: nat, c: nat)
    requires Run(tr) && i <= j < |tr| && NothingUnderWay(tr[i], c)
    requires forall k :: i <= k < j ==> StatusOf(tr[k], c) == Archived
    ensures PacksOf(tr[j], c) == PacksOf(tr[i], c) && NothingUnderWay(tr[j], c)
    decreases j
  {
    if i < j {
      var k := j - 1;
      ArchivedAddsNothing(tr, i, k, c);
      ArchivedStepAt(tr, k, tr[k], tr[j], c);
    }
  }

  // Archiving and what is under way

  /** An operator changes the status of the campaign. */
  predicate Reopens(t: Step, c: nat) {
    t == MarkTested(c) || t == Cancel(c) || t == Schedule(c) || t == Pause(c) || t == Resume(c) || t == RetryFailed(c)
  }

  ghost predicate NextClosed(s: State, s': State, c: nat) {
    WellFormed(s.w) && exists t :: Enabled(s, t) && s' == Apply(s, t) && !Reopens(t, c)
  }

  /** What can follow on s while operators leave the campaign's status alone. */
  ghost predicate Onward(tr: seq<State>, s: State, c: nat) {
    && |tr| > 0 && tr[0] == s
    && forall i :: 0 <= i < |tr| - 1 ==> NextClosed(tr[i], tr[i + 1], c)
  }

  lemma NextClosedKeeps(s: State, s': State, c: nat)
    requires NextClosed(s, s', c) && NothingUnderWay(s, c) && StatusOf(s, c) == Archived
    ensures NothingUnderWay(s', c) && StatusOf(s', c) == Archived && PacksOf(s', c) == PacksOf(s, c)
  {
    ArchivedStep(s, s', c);
    var t :| Enabled(s, t) && s' == Apply(s, t) && !Reopens(t, c);
    StatusStays(s, t, c);
  }

  lemma StatusStays(s: State, t: Step, c: nat)
    requires WellFormed(s.w) && Enabled(s, t) && !Reopens(t, c) && NothingUnderWay(s, c) && StatusOf(s, c) == Archived
    ensures StatusOf(Apply(s, t), c) == Archived
  {
    if RowStep(t) {
      RowStatusStays(s, t, c);
    } else {
      assert Apply(s, t).w.camps == s.w.camps;
    }
  }

  lemma RowStatusStays(s: State, t: Step, c: nat)
    requires WellFormed(s.w) && Enabled(s, t) && RowStep(t) && !Reopens(t, c) && NothingUnderWay(s, c) && StatusOf(s, c) == Archived
    ensures StatusOf(Apply(s, t), c) == Archived
  {
    if t.GoLaunch? { assert PressAt(s, t.p).c != c; }
  }

  lemma {:induction false} OnwardKeeps(tr: seq<State>, s: State, c: nat, k: nat)
    requires Onward(tr, s, c) && k < |tr| && NothingUnderWay(s, c) && StatusOf(s, c) == Archived
    ensures NothingUnderWay(tr[k], c) && StatusOf(tr[k], c) == Archived && PacksOf(tr[k], c) == PacksOf(s, c)
  {
    if k > 0 {
      OnwardKeeps(tr, s, c, k - 1);
      assert NextClosed(tr[k - 1], tr[k - 1 + 1], c);
      NextClosedKeeps(tr[k - 1], tr[k], c);
    }
  }

  lemma NewPack(packs: set<PackId>, slot: Slot) returns (id: PackId)
    ensures id.ContactPack? && id.slot == slot && id !in packs
  {
    var ids := Desk.FirstIds(slot, |packs| + 1);
    if ids <= packs { Desk.SubsetSize(ids, packs); }
    id :| id in ids && id !in packs;
  }

  lemma ClearedMails(s: State, c: nat, p: nat) returns (tr: seq<State>)
    requires WellFormed(s.w) && PressAt(s, p) == Cleared(c)
    ensures Onward(tr, s, c) && PacksOf(tr[|tr| - 1], c) > PacksOf(s, c)
  {
    var id := NewPack(s.packs, Slot(c, Main, 1));
    var s' := Apply(s, Push(p, {id}));
    tr := [s, s'];
    assert id in PacksOf(s', c);
  }

  lemma LaunchMails(s: State, c: nat, p: nat) returns (tr: seq<State>)
    requires WellFormed(s.w) && PressAt(s, p) == LaunchRead(c) && c in s.w.camps
    ensures Onward(tr, s, c) && PacksOf(tr[|tr| - 1], c) > PacksOf(s, c)
  {
    var s1 := Apply(s, GoLaunch(p));
    var rest := ClearedMails(s1, c, p);
    tr := [s] + rest;
    forall i | 0 <= i < |tr| - 1 ensures NextClosed(tr[i], tr[i + 1], c) {
      if i > 0 { assert NextClosed(rest[i - 1], rest[i - 1 + 1], c); }
    }
  }

  lemma StageMails(s: State, c: nat) returns (tr: seq<State>)
    requires WellFormed(s.w) && s.sched.Live? && s.sched.c == c
    ensures Onward(tr, s, c) && PacksOf(tr[|tr| - 1], c) > PacksOf(s, c)
  {
    var id := NewPack(s.packs, Slot(c, SendKey.Stage(s.sched.stage), 1));
    var s' := Apply(s, StagePush({id}));
    tr := [s, s'];
    assert id in PacksOf(s', c);
  }

  lemma UnderWayMails(s: State, c: nat) returns (tr: seq<State>)
    requires WellFormed(s.w) && StatusOf(s, c) == Archived && !NothingUnderWay(s, c)
    ensures Onward(tr, s, c) && PacksOf(tr[|tr| - 1], c) > PacksOf(s, c)
  {
    if !NoStageLive(s, c) {
      tr := StageMails(s, c);
    } else {
      var p :| p in s.presses && !(s.presses[p].Idle? || s.presses[p].c != c);
      if s.presses[p].Cleared? {
        tr := ClearedMails(s, c, p);
      } else {
        tr := LaunchMails(s, c, p);
      }
    }
  }

  /**
   Archiving stops a campaign's mail exactly when nothing that passed its checks is still under way: then, and only
   then, no pack is added for it however things go on, as long as operators leave its status alone. The only-if half
   says that whatever is under way can still push in this model, not that it still owes a pack.
   */
  lemma ArchiveStopsMailExactly(s: State, c: nat)
    requires WellFormed(s.w) && StatusOf(s, c) == Archived
    ensures (forall tr :: Onward(tr, s, c) ==> PacksOf(tr[|tr| - 1], c) == PacksOf(s, c)) <==> NothingUnderWay(s, c)
  {
    if NothingUnderWay(s, c) {
      forall tr | Onward(tr, s, c) ensures PacksOf(tr[|tr| - 1], c) == PacksOf(s, c) { OnwardKeeps(tr, s, c, |tr| - 1); }
    } else {
      var tr := UnderWayMails(s, c);
      assert PacksOf(tr[|tr| - 1], c) != PacksOf(s, c);
    }
  }

  /** While a campaign stays cancelled or archived its stages send nothing, once a stage launch under way has ended. */
  lemma ClosedStagesSendNothing(tr: seq<State>, i: nat, j: nat, c: nat)
    requires Run(tr) && i <= j < |tr| && NoStageLive(tr[i], c)
    requires forall k :: i <= k < j ==> StatusOf(tr[k], c) in {Archived, Cancelled}
    ensures StagePacksOf(tr[j], c) == StagePacksOf(tr[i], c) && NoStageLive(tr[j], c)
  {
    HeldStagesSendNothing(tr, i, j, c);
  }

  /** While a campaign stays paused, in draft or closed its stages send nothing, once a stage launch under way has ended. */
  lemma {:induction false} HeldStagesSendNothing(tr: seq<State>, i: nat, j: nat, c: nat)
    requires Run(tr) && i <= j < |tr| && NoStageLive(tr[i], c)
    requires forall k :: i <= k < j ==> StatusOf(tr[k], c) in {Paused, Draft, Archived, Cancelled}
    ensures StagePacksOf(tr[j], c) == StagePacksOf(tr[i], c) && NoStageLive(tr[j], c)
    decreases j
  {
    if i < j {
      var k := j - 1;
      HeldStagesSendNothing(tr, i, k, c);
      HeldStep(tr, k, tr[k], tr[j], c);
    }
  }

  lemma HeldStep(tr: seq<State>, i: nat, s: State, s': State, c: nat)
    requires Run(tr) && i + 1 < |tr| && s == tr[i] && s' == tr[i + 1] && NoStageLive(s, c) && StatusOf(s, c) in {Paused, Draft, Archived, Cancelled}
    ensures NoStageLive(s', c) && StagePacksOf(s', c) == StagePacksOf(s, c)
  {
    assert StepAt(tr, i);
  }

  function PacksOfStage(s: State, stage: nat): set<PackId> { set id <- s.packs | id.ContactPack? && id.slot.key == Stage(stage) }

  /** The stage is over: settled or deleted. */
  predicate Over(s: State, id: nat) {
    0 < id <= s.w.lastStage && (id in s.w.stages ==> s.w.stages[id].status != Pending) && !(s.sched.Live? && s.sched.stage == id)
  }

  lemma OverSched(s: State, t: Step, id: nat)
    requires WellFormed(s.w) && Enabled(s, t) && !PressStep(t) && Over(s, id)
    ensures PacksOfStage(Apply(s, t), id) == PacksOfStage(s, id)
    ensures !(Apply(s, t).sched.Live? && Apply(s, t).sched.stage == id)
  {
  }

  lemma OverStep(tr: seq<State>, i: nat, s: State, s': State, id: nat)
    requires Run(tr) && i + 1 < |tr| && s == tr[i] && s' == tr[i + 1] && Over(s, id)
    ensures Over(s', id) && PacksOfStage(s', id) == PacksOfStage(s, id)
  {
    RunStep(tr, i, s, s');
    assert StepAt(tr, i);
    var t :| Enabled(s, t) && s' == Apply(s, t);
    if !PressStep(t) { OverSched(s, t, id); }
  }

  /** A stage that was cancelled, failed, dispatched or deleted never sends again. */
  lemma {:induction false} OverSendsNothing(tr: seq<State>, i: nat, j: nat, id: nat)
    requires Run(tr) && i <= j < |tr| && Over(tr[i], id)
    ensures Over(tr[j], id) && PacksOfStage(tr[j], id) == PacksOfStage(tr[i], id)
    decreases j
  {
    if i < j {
      var k := j - 1;
      OverSendsNothing(tr, i, k, id);
      OverStep(tr, k, tr[k], tr[j], id);
    }
  }

  /** Archiving between a launch's status check and its write is undone by that write, and the mail goes out. */
  lemma LaunchOverwritesArchive(id: PackId) returns (tr: seq<State>)
    requires id == ContactPack(Slot(1, Main, 1), 0)
    ensures Run(tr) && |tr| == 7
    ensures StatusOf(tr[4], 1) == Archived && PacksOf(tr[4], 1) == {}
    ensures StatusOf(tr[6], 1) == Dispatched && PacksOf(tr[6], 1) == {id}
  {
    var s4 := WithCamp(Camp(Archived, true), {}, map[7 := LaunchRead(1)]);
    var s5 := WithCamp(Camp(Dispatched, true), {}, map[7 := Cleared(1)]);
    var s6 := WithCamp(Camp(Dispatched, true), {id}, map[7 := Cleared(1)]);
    tr := LaunchWrites(s4, s5);
    tr := RunOn(tr, s5, Push(7, {id}), s6);
    OnlyPack(s6, id);
  }

  lemma LaunchWrites(s4: State, s5: State) returns (tr: seq<State>)
    requires s4 == WithCamp(Camp(Archived, true), {}, map[7 := LaunchRead(1)])
    requires s5 == WithCamp(Camp(Dispatched, true), {}, map[7 := Cleared(1)])
    ensures Run(tr) && |tr| == 6 && tr[4] == s4 && tr[5] == s5
  {
    var s3 := WithCamp(Camp(Tested, true), {}, map[7 := LaunchRead(1)]);
    tr := LaunchBegins(s3);
    tr := RunOn(tr, s3, Archive(1), s4);
    tr := RunOn(tr, s4, GoLaunch(7), s5);
  }

  lemma OnlyPack(s: State, id: PackId)
    requires s.packs == {id} && Of(id, 1)
    ensures PacksOf(s, 1) == {id}
  {
  }

  lemma LaunchBegins(s3: State) returns (tr: seq<State>)
    requires s3 == WithCamp(Camp(Tested, true), {}, map[7 := LaunchRead(1)])
    ensures Run(tr) && |tr| == 4 && tr[3] == s3
  {
    var s0 := State(World(map[], map[], 0, []), {}, map[], Resting);
    var s1 := WithCamp(Camp(Draft, false), {}, map[]);
    var s2 := WithCamp(Camp(Tested, true), {}, map[]);
    tr := RunOn([s0], s0, AddCampaign(1), s1);
    tr := RunOn(tr, s1, MarkTested(1), s2);
    tr := RunOn(tr, s2, BeginLaunch(7, 1), s3);
  }

  function WithCamp(k: Camp, packs: set<PackId>, presses: map<nat, Press>): State {
    State(World(map[1 := k], map[], 0, []), packs, presses, Resting)
  }

  /** One more step makes a longer run. */
  lemma RunOn(tr: seq<State>, s: State, t: Step, s': State) returns (longer: seq<State>)
    requires Run(tr) && tr[|tr| - 1] == s && WellFormed(s.w) && Enabled(s, t) && s' == Apply(s, t)
    ensures Run(longer) && longer == tr + [s']
  {
    longer := tr + [s'];
    assert Next(s, s');
    forall i | 0 <= i < |longer| - 1 ensures StepAt(longer, i) {
      if i < |tr| - 1 { assert StepAt(tr, i); }
    }
  }
}
