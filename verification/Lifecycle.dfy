/** Campaign and stage rows, the scheduler's pass over stages, and what each writes. */
module Lifecycle {
  datatype CampStatus = Draft | Tested | Scheduled | Dispatched | Paused | Archived | Cancelled | CampFailed

  /** tested: a test send is on record. */
  datatype Camp = Camp(status: CampStatus, tested: bool)

  datatype StageStatus = Pending | StageDispatched | StageFailed | StageCancelled

  /** due is None for a stored time that cannot be read. */
  datatype Due = At(time: int) | Unreadable

  datatype Stage = StageRow(campaign: nat, status: StageStatus, due: Due)

  datatype Audit =
    | CancelledRow(stage: nat, reason: CampStatus)
    | FailedRow(stage: nat, possiblySent: bool)

  /** Stage ids are drawn from a counter and never reused. */
  datatype World = World(camps: map<nat, Camp>, stages: map<nat, Stage>, lastStage: nat, audits: seq<Audit>)

  predicate ClosedToStages(s: CampStatus) { s in {Archived, Cancelled} }

  /** Statuses under which no stage is selected. */
  predicate Held(s: CampStatus) { s in {Paused, Draft, Archived, Cancelled} }

  predicate WellFormed(w: World) {
    forall id <- w.stages :: 0 < id <= w.lastStage && w.stages[id].campaign in w.camps
  }

  function CampOf(w: World, id: nat): Camp
    requires WellFormed(w) && id in w.stages
  {
    w.camps[w.stages[id].campaign]
  }

  predicate ToCancel(w: World, id: nat)
    requires WellFormed(w)
  {
    id in w.stages && w.stages[id].status == Pending && ClosedToStages(CampOf(w, id).status)
  }

  predicate ToLaunch(w: World, id: nat, now: int)
    requires WellFormed(w)
  {
    && id in w.stages && w.stages[id].status == Pending && w.stages[id].due.At? && w.stages[id].due.time <= now
    && !Held(CampOf(w, id).status) && CampOf(w, id).tested
  }

  predicate ToFail(w: World, id: nat)
    requires WellFormed(w)
  {
    && id in w.stages && w.stages[id].status == Pending && w.stages[id].due.Unreadable?
    && !Held(CampOf(w, id).status) && CampOf(w, id).tested
  }

  predicate StillDue(w: World, id: nat)
    requires WellFormed(w)
  {
    id in w.stages && w.stages[id].status == Pending && !Held(CampOf(w, id).status)
  }

  function SetStage(w: World, id: nat, s: StageStatus): World
    requires id in w.stages
  {
    w.(stages := w.stages[id := w.stages[id].(status := s)])
  }

  /** Guarded on the stage still pending and its campaign still in the status it was selected with. */
  function CancelOne(w: World, id: nat, c: nat, status: CampStatus): World {
    if id in w.stages && w.stages[id].status == Pending && c in w.camps && w.camps[c].status == status
    then SetStage(w, id, StageCancelled).(audits := w.audits + [CancelledRow(id, status)])
    else w
  }

  /** The row is written even if the stage was no longer pending. */
  function FailOne(w: World, id: nat, sent: bool): World {
    var w' := if id in w.stages && w.stages[id].status == Pending then SetStage(w, id, StageFailed) else w;
    w'.(audits := w.audits + [FailedRow(id, sent)])
  }

  /** The end of a stage launch writes without a guard. */
  function MarkDispatched(w: World, id: nat): World { if id in w.stages then SetStage(w, id, StageDispatched) else w }

  datatype Outcome = Launched | Retryable | PushFailed | Refused | Unexpected

  /** What follows a stage launch. */
  function EndStage(w: World, id: nat, o: Outcome): World {
    match o
    case Launched => MarkDispatched(w, id)
    case Retryable => w
    case Refused => FailOne(w, id, false)
    case PushFailed => FailOne(w, id, true)
    case Unexpected => FailOne(w, id, true)
  }

  function CancelRows(audits: seq<Audit>, id: nat): nat {
    if audits == [] then 0
    else
      var last := audits[|audits| - 1];
      CancelRows(audits[..|audits| - 1], id) + if last.CancelledRow? && last.stage == id then 1 else 0
  }

  function FailRows(audits: seq<Audit>, id: nat): nat {
    if audits == [] then 0
    else
      var last := audits[|audits| - 1];
      FailRows(audits[..|audits| - 1], id) + if last.FailedRow? && last.stage == id then 1 else 0
  }

  /** A stage is cancelled exactly when one row says so; no stage ever has two. */
  ghost predicate CancelsMatch(w: World) {
    && (forall id <- w.stages :: CancelRows(w.audits, id) == if w.stages[id].status == StageCancelled then 1 else 0)
    && (forall id: nat :: CancelRows(w.audits, id) <= 1 && (id > w.lastStage ==> CancelRows(w.audits, id) == 0))
  }

  lemma CancelOneKeeps(w: World, id: nat, c: nat, status: CampStatus)
    requires WellFormed(w) && CancelsMatch(w)
    ensures WellFormed(CancelOne(w, id, c, status)) && CancelsMatch(CancelOne(w, id, c, status))
  {
  }

  lemma CancelOneRows(w: World, id: nat, c: nat, status: CampStatus)
    ensures forall k: nat :: FailRows(CancelOne(w, id, c, status).audits, k) == FailRows(w.audits, k)
    ensures CancelOne(w, id, c, status).audits in {w.audits, w.audits + [CancelledRow(id, status)]}
  {
    var rows := w.audits + [CancelledRow(id, status)];
    assert rows[..|rows| - 1] == w.audits;
  }

  lemma FailOneKeeps(w: World, id: nat, sent: bool)
    requires WellFormed(w) && CancelsMatch(w)
    ensures WellFormed(FailOne(w, id, sent)) && CancelsMatch(FailOne(w, id, sent))
  {
  }

  /** The unguarded write is safe for a stage that is still pending, and would break the match for a cancelled one. */
  lemma MarkDispatchedKeepsExactly(w: World, id: nat)
    requires WellFormed(w) && CancelsMatch(w)
    ensures WellFormed(MarkDispatched(w, id))
    ensures CancelsMatch(MarkDispatched(w, id)) <==> id !in w.stages || w.stages[id].status != StageCancelled
  {
  }

  lemma EndStageKeeps(w: World, id: nat, o: Outcome)
    requires WellFormed(w) && CancelsMatch(w) && (id in w.stages ==> w.stages[id].status == Pending)
    ensures WellFormed(EndStage(w, id, o)) && CancelsMatch(EndStage(w, id, o))
  {
    MarkDispatchedKeepsExactly(w, id);
    FailOneKeeps(w, id, false);
    FailOneKeeps(w, id, true);
  }

  // One whole pass, with nobody else at work

  function StatusAfter(o: Outcome): StageStatus {
    match o
    case Launched => StageDispatched
    case Retryable => Pending
    case _ => StageFailed
  }

  /** Only stage statuses and audit rows may differ. */
  ghost predicate SameBut(w: World, w': World) {
    && w'.camps == w.camps && w'.lastStage == w.lastStage && w'.stages.Keys == w.stages.Keys && w.audits <= w'.audits
    && WellFormed(w') && CancelsMatch(w')
  }

  /** The rows written since w. */
  function NewRows(w: World, w': World): seq<Audit> {
    if |w.audits| <= |w'.audits| then w'.audits[|w.audits|..] else []
  }

  predicate CancelAudit(w: World, a: Audit)
    requires WellFormed(w)
  {
    a.CancelledRow? && ToCancel(w, a.stage) && a.reason == CampOf(w, a.stage).status
  }

  predicate LaunchAudit(w: World, a: Audit, now: int, launch: nat -> Outcome)
    requires WellFormed(w)
  {
    && a.FailedRow? && ToLaunch(w, a.stage, now) && launch(a.stage) in {Refused, PushFailed, Unexpected}
    && (a.possiblySent <==> launch(a.stage) != Refused)
  }

  predicate FailAudit(w: World, a: Audit)
    requires WellFormed(w)
  {
    a.FailedRow? && ToFail(w, a.stage) && !a.possiblySent
  }

  ghost predicate CancelPass(w: World, w': World)
    requires WellFormed(w)
  {
    && SameBut(w, w')
    && (forall a <- NewRows(w, w') :: CancelAudit(w, a))
    && (forall id: nat :: FailRows(w'.audits, id) == FailRows(w.audits, id))
    && forall id <- w'.stages :: w'.stages[id] == if ToCancel(w, id) then w.stages[id].(status := StageCancelled) else w.stages[id]
  }

  ghost predicate LaunchPass(w: World, w': World, now: int, launch: nat -> Outcome)
    requires WellFormed(w)
  {
    && SameBut(w, w')
    && (forall a <- NewRows(w, w') :: LaunchAudit(w, a, now, launch))
    && (forall id: nat :: FailRows(w'.audits, id) == FailRows(w.audits, id) +
          if ToLaunch(w, id, now) && launch(id) in {Refused, PushFailed, Unexpected} then 1 else 0)
    && forall id <- w'.stages ::
         w'.stages[id] == if ToLaunch(w, id, now) then w.stages[id].(status := StatusAfter(launch(id))) else w.stages[id]
  }

  ghost predicate FailPass(w: World, w': World)
    requires WellFormed(w)
  {
    && SameBut(w, w')
    && (forall a <- NewRows(w, w') :: FailAudit(w, a))
    && (forall id: nat :: FailRows(w'.audits, id) == FailRows(w.audits, id) + if ToFail(w, id) then 1 else 0)
    && forall id <- w'.stages :: w'.stages[id] == if ToFail(w, id) then w.stages[id].(status := StageFailed) else w.stages[id]
  }

  ghost predicate RowsSoFar(w: World, w': World, done: seq<nat>, launch: nat -> Outcome) {
    && w.audits <= w'.audits
    && (forall a <- NewRows(w, w') :: a.FailedRow? && a.stage in done && launch(a.stage) in {Refused, PushFailed, Unexpected}
                                     && (a.possiblySent <==> launch(a.stage) != Refused))
    && (forall id: nat :: FailRows(w'.audits, id) == FailRows(w.audits, id) +
          if id in done && launch(id) in {Refused, PushFailed, Unexpected} then 1 else 0)
  }

  lemma RowsSoFarStep(w: World, w': World, done: seq<nat>, id: nat, launch: nat -> Outcome)
    requires RowsSoFar(w, w', done, launch) && id !in done
    ensures RowsSoFar(w, EndStage(w', id, launch(id)), done + [id], launch)
  {
    var o, w1 := launch(id), EndStage(w', id, launch(id));
    EndStageAudits(w', id, o);
    assert NewRows(w, w1) == NewRows(w, w') + if o in {Refused, PushFailed, Unexpected} then [FailedRow(id, o != Refused)] else [];
    assert forall k :: k in done + [id] <==> k in done || k == id;
  }

  ghost predicate SoFar(w: World, w': World, done: seq<nat>, launch: nat -> Outcome) {
    && SameBut(w, w') && RowsSoFar(w, w', done, launch)
    && forall id <- w'.stages ::
         w'.stages[id] == if id in done then w.stages[id].(status := StatusAfter(launch(id))) else w.stages[id]
  }

  lemma SoFarStep(w: World, w': World, done: seq<nat>, id: nat, launch: nat -> Outcome)
    requires SoFar(w, w', done, launch) && id !in done && id in w'.stages && w.stages[id].status == Pending
    ensures w'.stages[id] == w.stages[id] && SoFar(w, EndStage(w', id, launch(id)), done + [id], launch)
  {
    EndStageKeeps(w', id, launch(id));
    EndStageSets(w', id, launch(id));
    RowsSoFarStep(w, w', done, id, launch);
  }

  /** A launch that failed, and no other, leaves one row, which says whether mail may have gone out. */
  lemma EndStageAudits(w: World, id: nat, o: Outcome)
    ensures EndStage(w, id, o).audits ==
      w.audits + if o in {Refused, PushFailed, Unexpected} then [FailedRow(id, o != Refused)] else []
    ensures forall k: nat ::
      FailRows(EndStage(w, id, o).audits, k) == FailRows(w.audits, k) + if k == id && o in {Refused, PushFailed, Unexpected} then 1 else 0
  {
    FailOneRows(w, id, o != Refused);
  }

  lemma FailOneRows(w: World, id: nat, sent: bool)
    ensures FailOne(w, id, sent).audits == w.audits + [FailedRow(id, sent)]
    ensures forall k: nat :: FailRows(FailOne(w, id, sent).audits, k) == FailRows(w.audits, k) + if k == id then 1 else 0
  {
    var rows := w.audits + [FailedRow(id, sent)];
    assert rows[..|rows| - 1] == w.audits;
  }

  lemma EndStageSets(w: World, id: nat, o: Outcome)
    requires id in w.stages && w.stages[id].status == Pending
    ensures EndStage(w, id, o).stages == w.stages[id := w.stages[id].(status := StatusAfter(o))]
    ensures EndStage(w, id, o).camps == w.camps && EndStage(w, id, o).lastStage == w.lastStage && w.audits <= EndStage(w, id, o).audits
  {
  }

  lemma SoFarStarts(w: World, launch: nat -> Outcome)
    requires WellFormed(w) && CancelsMatch(w)
    ensures SoFar(w, w, [], launch)
  {
  }

  lemma FailedSoFarStarts(w: World)
    requires WellFormed(w) && CancelsMatch(w)
    ensures FailedSoFar(w, w, [])
  {
  }

  lemma IncreasingFresh(rows: seq<nat>, i: nat)
    requires i < |rows| && forall j, k :: 0 <= j < k < |rows| ==> rows[j] < rows[k]
    ensures rows[i] !in rows[..i] && rows[..i + 1] == rows[..i] + [rows[i]]
  {
  }

  lemma SoFarEnds(w: World, w': World, rows: seq<nat>, now: int, launch: nat -> Outcome)
    requires WellFormed(w) && SoFar(w, w', rows, launch) && forall k: nat :: k in rows <==> ToLaunch(w, k, now)
    ensures LaunchPass(w, w', now, launch)
  {
  }

  lemma FailedSoFarEnds(w: World, w': World, rows: seq<nat>)
    requires WellFormed(w) && FailedSoFar(w, w', rows) && forall k: nat :: k in rows <==> ToFail(w, k)
    ensures FailPass(w, w')
  {
  }

  ghost predicate FailedRowsSoFar(w: World, w': World, done: seq<nat>) {
    && w.audits <= w'.audits
    && (forall a <- NewRows(w, w') :: a.FailedRow? && a.stage in done && !a.possiblySent)
    && (forall id: nat :: FailRows(w'.audits, id) == FailRows(w.audits, id) + if id in done then 1 else 0)
  }

  lemma FailedRowsSoFarStep(w: World, w': World, done: seq<nat>, id: nat)
    requires FailedRowsSoFar(w, w', done) && id !in done
    ensures FailedRowsSoFar(w, FailOne(w', id, false), done + [id])
  {
    var w1 := FailOne(w', id, false);
    FailOneRows(w', id, false);
    assert NewRows(w, w1) == NewRows(w, w') + [FailedRow(id, false)];
    assert forall k :: k in done + [id] <==> k in done || k == id;
  }

  ghost predicate FailedSoFar(w: World, w': World, done: seq<nat>) {
    && SameBut(w, w') && FailedRowsSoFar(w, w', done)
    && forall id <- w'.stages :: w'.stages[id] == if id in done then w.stages[id].(status := StageFailed) else w.stages[id]
  }

  lemma FailedSoFarStep(w: World, w': World, done: seq<nat>, id: nat)
    requires FailedSoFar(w, w', done) && id in w'.stages && w.stages[id].status == Pending && id !in done
    ensures FailedSoFar(w, FailOne(w', id, false), done + [id])
  {
    FailedRowsSoFarStep(w, w', done, id);
  }

  ghost predicate CancelledSoFar(w: World, w': World, done: seq<nat>)
    requires WellFormed(w)
  {
    && SameBut(w, w')
    && (forall a <- NewRows(w, w') :: CancelAudit(w, a))
    && (forall id: nat :: FailRows(w'.audits, id) == FailRows(w.audits, id))
    && forall id <- w'.stages :: w'.stages[id] == if id in done then w.stages[id].(status := StageCancelled) else w.stages[id]
  }

  lemma CancelledSoFarStep(w: World, w': World, done: seq<nat>, id: nat)
    requires WellFormed(w) && CancelledSoFar(w, w', done) && ToCancel(w, id)
    ensures CancelledSoFar(w, CancelOne(w', id, w.stages[id].campaign, CampOf(w, id).status), done + [id])
  {
    var c, status := w.stages[id].campaign, CampOf(w, id).status;
    CancelOneKeeps(w', id, c, status);
    CancelOneRows(w', id, c, status);
    var w1 := CancelOne(w', id, c, status);
    assert w1.audits == w'.audits || NewRows(w, w1) == NewRows(w, w') + [CancelledRow(id, status)];
    assert forall k :: k in done + [id] <==> k in done || k == id;
  }

  /** What a pass makes of a stage. */
  function Fate(w: World, id: nat, now: int, launch: nat -> Outcome): StageStatus
    requires WellFormed(w) && id in w.stages
  {
    if ToCancel(w, id) then StageCancelled
    else if ToLaunch(w, id, now) then StatusAfter(launch(id))
    else if ToFail(w, id) then StageFailed
    else w.stages[id].status
  }

  lemma PassesMakeFate(w: World, w1: World, w2: World, w': World, now: int, launch: nat -> Outcome)
    requires WellFormed(w) && CancelPass(w, w1) && LaunchPass(w1, w2, now, launch) && FailPass(w2, w')
    ensures forall id <- w'.stages :: w'.stages[id] == w.stages[id].(status := Fate(w, id, now, launch))
    ensures forall id <- w'.stages :: !ToCancel(w', id) && !ToFail(w', id)
  {
    forall id | id in w'.stages
      ensures w'.stages[id] == w.stages[id].(status := Fate(w, id, now, launch)) && !ToCancel(w', id) && !ToFail(w', id)
    {
      PassesSettle(w, w1, w2, w', now, launch, id);
    }
  }

  lemma PassesSettle(w: World, w1: World, w2: World, w': World, now: int, launch: nat -> Outcome, id: nat)
    requires WellFormed(w) && CancelPass(w, w1) && LaunchPass(w1, w2, now, launch) && FailPass(w2, w') && id in w'.stages
    ensures w'.stages[id] == w.stages[id].(status := Fate(w, id, now, launch))
    ensures !ToCancel(w', id) && !ToFail(w', id)
  {
    assert id in w1.stages && id in w2.stages;
  }

  // What a pass comes to, told by what it found

  /** What became of one stage. */
  predicate StageTells(w: World, w': World, now: int, launch: nat -> Outcome, id: nat)
    requires WellFormed(w) && id in w.stages && id in w'.stages
  {
    var was, camp := w.stages[id], CampOf(w, id);
    if was.status != Pending || camp.status in {Paused, Draft} then w'.stages[id] == was
    else if camp.status in {Archived, Cancelled} then w'.stages[id] == was.(status := StageCancelled)
    else if !camp.tested then w'.stages[id] == was
    else if was.due == Unreadable then w'.stages[id] == was.(status := StageFailed)
    else if was.due.time > now || launch(id) == Retryable then w'.stages[id] == was
    else w'.stages[id] == was.(status := if launch(id) == Launched then StageDispatched else StageFailed)
  }

  /** Why a pass may write a row. */
  predicate RowTells(w: World, now: int, launch: nat -> Outcome, a: Audit)
    requires WellFormed(w)
  {
    && a.stage in w.stages && w.stages[a.stage].status == Pending
    && var camp := CampOf(w, a.stage);
       match a
       case CancelledRow(_, reason) => reason == camp.status && reason in {Archived, Cancelled}
       case FailedRow(id, possiblySent) =>
         && camp.status !in {Paused, Draft, Archived, Cancelled} && camp.tested
         && match w.stages[id].due
            case Unreadable => !possiblySent
            case At(t) => t <= now && launch(id) in {Refused, PushFailed, Unexpected} && (possiblySent <==> launch(id) != Refused)
  }

  /** A stage has one more failure row exactly if the pass failed it. */
  predicate FailsOnce(w: World, w': World, id: nat)
    requires id in w.stages && id in w'.stages
  {
    FailRows(w'.audits, id) == FailRows(w.audits, id) +
      if w.stages[id].status == Pending && w'.stages[id].status == StageFailed then 1 else 0
  }

  lemma PassFailsOnce(w: World, w1: World, w2: World, w': World, now: int, launch: nat -> Outcome, id: nat)
    requires WellFormed(w) && CancelPass(w, w1) && LaunchPass(w1, w2, now, launch) && FailPass(w2, w') && id in w.stages
    ensures id in w'.stages && FailsOnce(w, w', id)
  {
    assert id in w1.stages && id in w2.stages && id in w'.stages;
    PassTells(w, w1, w2, w', now, launch, id);
    assert FailRows(w1.audits, id) == FailRows(w.audits, id);
    assert FailRows(w'.audits, id) == FailRows(w2.audits, id) + if ToFail(w2, id) then 1 else 0;
  }

  lemma PassTells(w: World, w1: World, w2: World, w': World, now: int, launch: nat -> Outcome, id: nat)
    requires WellFormed(w) && CancelPass(w, w1) && LaunchPass(w1, w2, now, launch) && FailPass(w2, w') && id in w.stages
    ensures id in w'.stages && StageTells(w, w', now, launch, id)
  {
    assert id in w1.stages && id in w2.stages && id in w'.stages;
  }

  lemma PassRowsTell(w: World, w1: World, w2: World, w': World, now: int, launch: nat -> Outcome)
    requires WellFormed(w) && CancelPass(w, w1) && LaunchPass(w1, w2, now, launch) && FailPass(w2, w')
    ensures w.audits <= w'.audits && forall a <- NewRows(w, w') :: RowTells(w, now, launch, a)
  {
    assert NewRows(w, w') == NewRows(w, w1) + NewRows(w1, w2) + NewRows(w2, w');
    forall a | a in NewRows(w, w') ensures RowTells(w, now, launch, a) {
      if a in NewRows(w, w1) {
        assert CancelAudit(w, a);
      } else if a in NewRows(w1, w2) {
        assert LaunchAudit(w1, a, now, launch);
        PassTells(w, w1, w2, w', now, launch, a.stage);
      } else {
        assert FailAudit(w2, a);
        PassTells(w, w1, w2, w', now, launch, a.stage);
      }
    }
  }

  class Scheduler {
    var camps: map<nat, Camp>
    var stages: map<nat, Stage>
    var lastStage: nat
    var audits: seq<Audit>

    function View(): World
      reads this
    {
      World(camps, stages, lastStage, audits)
    }

    constructor (w: World)
      ensures View() == w
    {
      camps, stages, lastStage, audits := w.camps, w.stages, w.lastStage, w.audits;
    }

    method CancelArchivedStage(c: nat, id: nat, status: CampStatus) returns (moved: bool)
      modifies this
      ensures View() == CancelOne(old(View()), id, c, status)
      ensures moved <==> View() != old(View())
    {
      moved := id in stages && stages[id].status == Pending && c in camps && camps[c].status == status;
      if moved {
        stages := stages[id := stages[id].(status := StageCancelled)];
        audits := audits + [CancelledRow(id, status)];
      }
    }

    method FailStage(id: nat, possiblySent: bool)
      modifies this
      ensures View() == FailOne(old(View()), id, possiblySent)
    {
      if id in stages && stages[id].status == Pending {
        stages := stages[id := stages[id].(status := StageFailed)];
      }
      audits := audits + [FailedRow(id, possiblySent)];
    }

    /** The cancel pass: select, then cancel row by row. */
    method CancelClosed()
      requires WellFormed(View()) && CancelsMatch(View())
      modifies this
      ensures CancelPass(old(View()), View())
    {
      ghost var before := View();
      var rows := ClosedStages();
      for i := 0 to |rows|
        invariant CancelledSoFar(before, View(), rows[..i])
      {
        var id := rows[i];
        assert ToCancel(before, id);
        assert rows[..i + 1] == rows[..i] + [id];
        CancelledSoFarStep(before, View(), rows[..i], id);
        var _ := CancelArchivedStage(stages[id].campaign, id, camps[stages[id].campaign].status);
      }
    }

    method ClosedStages() returns (rows: seq<nat>)
      requires WellFormed(View())
      ensures forall k: nat :: k in rows <==> ToCancel(View(), k)
    {
      rows := [];
      for id := 0 to lastStage + 1
        invariant forall k: nat :: k in rows <==> k < id && ToCancel(View(), k)
      {
        if id in stages && stages[id].status == Pending && ClosedToStages(camps[stages[id].campaign].status) {
          rows := rows + [id];
        }
      }
    }

    method DueStages(now: int) returns (rows: seq<nat>)
      requires WellFormed(View())
      ensures forall k: nat :: k in rows <==> ToLaunch(View(), k, now)
      ensures forall i, j :: 0 <= i < j < |rows| ==> rows[i] < rows[j]
    {
      rows := [];
      for id := 0 to lastStage + 1
        invariant forall k: nat :: k in rows <==> k < id && ToLaunch(View(), k, now)
        invariant forall i, j :: 0 <= i < j < |rows| ==> rows[i] < rows[j]
        invariant forall i :: 0 <= i < |rows| ==> rows[i] < id
      {
        if id in stages && stages[id].status == Pending && stages[id].due.At? && stages[id].due.time <= now {
          var c := camps[stages[id].campaign];
          if !Held(c.status) && c.tested {
            rows := rows + [id];
          }
        }
      }
    }

    method FinishLaunch(id: nat, o: Outcome)
      modifies this
      ensures View() == EndStage(old(View()), id, o)
    {
      match o {
        case Launched =>
          if id in stages {
            stages := stages[id := stages[id].(status := StageDispatched)];
          }
        case Retryable =>
        case Refused => FailStage(id, false);
        case PushFailed => FailStage(id, true);
        case Unexpected => FailStage(id, true);
      }
    }

    /** The launch pass: select, then re-read each stage right before its launch. */
    method LaunchDue(now: int, launch: nat -> Outcome)
      requires WellFormed(View()) && CancelsMatch(View())
      modifies this
      ensures LaunchPass(old(View()), View(), now, launch)
    {
      ghost var before := View();
      var rows := DueStages(now);
      SoFarStarts(before, launch);
      for i := 0 to |rows|
        invariant SoFar(before, View(), rows[..i], launch)
      {
        var id := rows[i];
        assert ToLaunch(before, id, now);
        IncreasingFresh(rows, i);
        SoFarStep(before, View(), rows[..i], id, launch);
        if stages[id].status == Pending && !Held(camps[stages[id].campaign].status) {
          FinishLaunch(id, launch(id));
        }
      }
      assert rows[..|rows|] == rows;
      SoFarEnds(before, View(), rows, now, launch);
    }

    method UnreadableStages() returns (rows: seq<nat>)
      requires WellFormed(View())
      ensures forall k: nat :: k in rows <==> ToFail(View(), k)
      ensures forall i, j :: 0 <= i < j < |rows| ==> rows[i] < rows[j]
    {
      rows := [];
      for id := 0 to lastStage + 1
        invariant forall k: nat :: k in rows <==> k < id && ToFail(View(), k)
        invariant forall i, j :: 0 <= i < j < |rows| ==> rows[i] < rows[j]
        invariant forall i :: 0 <= i < |rows| ==> rows[i] < id
      {
        if id in stages && stages[id].status == Pending && stages[id].due.Unreadable? {
          var c := camps[stages[id].campaign];
          if !Held(c.status) && c.tested {
            rows := rows + [id];
          }
        }
      }
    }

    method FailUnreadable()
      requires WellFormed(View()) && CancelsMatch(View())
      modifies this
      ensures FailPass(old(View()), View())
    {
      ghost var before := View();
      var rows := UnreadableStages();
      FailedSoFarStarts(before);
      for i := 0 to |rows|
        invariant FailedSoFar(before, View(), rows[..i])
      {
        assert ToFail(before, rows[i]);
        IncreasingFresh(rows, i);
        FailedSoFarStep(before, View(), rows[..i], rows[i]);
        FailStage(rows[i], false);
      }
      assert rows[..|rows|] == rows;
      FailedSoFarEnds(before, View(), rows);
    }

    /** One pass: every stage meets exactly its fate, cancels keep matching their rows, and nothing else moves. */
    method Pass(now: int, launch: nat -> Outcome)
      requires WellFormed(View()) && CancelsMatch(View())
      modifies this
      ensures SameBut(old(View()), View())
      ensures forall id <- stages :: stages[id] == old(stages)[id].(status := Fate(old(View()), id, now, launch))
      ensures forall id <- stages :: !ToCancel(View(), id) && !ToFail(View(), id)
      ensures forall id <- stages :: StageTells(old(View()), View(), now, launch, id) && FailsOnce(old(View()), View(), id)
      ensures forall a <- NewRows(old(View()), View()) :: RowTells(old(View()), now, launch, a)
    {
      ghost var w := View();
      CancelClosed();
      ghost var w1 := View();
      LaunchDue(now, launch);
      ghost var w2 := View();
      FailUnreadable();
      PassesMakeFate(w, w1, w2, View(), now, launch);
      forall id | id in stages ensures StageTells(w, View(), now, launch, id) && FailsOnce(w, View(), id) {
        PassTells(w, w1, w2, View(), now, launch, id);
        PassFailsOnce(w, w1, w2, View(), now, launch, id);
      }
      PassRowsTell(w, w1, w2, View(), now, launch);
    }
  }
}
