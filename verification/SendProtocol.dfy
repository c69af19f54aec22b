/**
 Terminal and cloud together. Any number of presses (launch, approve, batch finish, stage, Re-launch)
 run side by side, each from its own stale reads; pushes land late, in any order, or only in part;
 recording may fail; outcomes arrive late and more than once; the cloud moves as in CloudMachine.
 */
module SendProtocol {
  import opened PackIds
  import opened PackStore
  import opened Desk
  import CM = CloudMachine

  datatype Camp = Camp(gen: nat, open: bool, seq_: nat,
                       stages: set<nat>,       // every stage id ever created for the campaign
                       carried: seq<nat>)      // the expected_seq of every carried-out press that gave one

  datatype Press =
    | Idle
    | Pressed(c: nat)                                            // a Re-launch press that bumped relaunch_seq
    | BatchSelected(c: nat, cands: seq<Candidate>)
    | StageSelected(c: nat, stage: nat, cands: seq<Candidate>)
    | RelaunchSelected(c: nat, cands: seq<Candidate>)
    | RelaunchOpened(c: nat, gen: nat, cands: seq<Candidate>)
    | Pushing(c: nat, key: SendKey, relaunch: bool, plan: seq<PackId>, sent: nat, acked: nat)
    | Finished(c: nat, key: SendKey, relaunch: bool)

  datatype State = State(
    cloud: CM.Cloud,
    rows: Rows,
    camps: map<nat, Camp>,
    presses: map<nat, Press>,
    wire: set<PackId>,                       // contact packs handed to the network; each may land at any later time
    seen: set<(PackId, PackStatus)>)         // statuses some poll or push answer has read, delivered whenever

  datatype Step =
    | CloudStep(cs: CM.Step)
    | Land(id: PackId, sendAt: int, now: int)
    | Observe(id: PackId)
    | DeliverOutcome(id: PackId, status: PackStatus)
    | SelectBatch(p: nat, c: nat, cands: seq<Candidate>)
    | SelectStage(p: nat, c: nat, stage: nat, cands: seq<Candidate>)
    | ClaimRelaunch(p: nat, c: nat, expected: Option<nat>)
    | SelectRelaunch(p: nat, cands: seq<Candidate>)
    | OpenRelaunch(p: nat)
    | PlanStep(p: nat, blocked: map<nat, string>)
    | SendChunk(p: nat, n: nat)
    | Ack(p: nat)
    | Record(p: nat)
    | CloseRelaunch(p: nat)
    | Drop(p: nat)
    | CancelCampaign(c: nat, clear: bool)
    | RetryFailedStep(c: nat)
    | AddCampaign(c: nat)
    | AddStage(c: nat, stage: nat)
    | AddRecipient(c: nat, contact: nat)
    | TouchRecipient(c: nat, contact: nat, mark: RecipStatus)

  function KeyFor(gen: nat): SendKey { if gen == 0 then Main else Relaunch(gen) }

  function PressAt(s: State, p: nat): Press { if p in s.presses then s.presses[p] else Idle }

  predicate Sendable(r: RecipStatus) { r !in {Delivered, MarkedCancelled} }

  /** What the selection query returns: recipient rows as they are now, one per contact. */
  predicate ReadsRows(s: State, c: nat, cands: seq<Candidate>) {
    && (forall r <- cands :: (c, r.contact) in s.rows.recips && s.rows.recips[(c, r.contact)] == r.status && Sendable(r.status))
    && (forall i, j :: 0 <= i < j < |cands| ==> cands[i].contact != cands[j].contact)
  }

  predicate InFlight(s: State, c: nat) {
    exists p <- s.presses :: s.presses[p].Pushing? && s.presses[p].c == c
  }

  predicate Enabled(s: State, t: Step) {
    match t
    case CloudStep(cs) => CM.Enabled(s.cloud, cs) && (cs.PutStep? ==> cs.id.SeedPack?)
    case Land(id, _, _) => id in s.wire && id.ContactPack?
    case Observe(id) => id in s.cloud.packs
    case DeliverOutcome(id, status) => (id, status) in s.seen && Resolved(status)
    case SelectBatch(p, c, cands) =>
      && PressAt(s, p) in {Idle, Pressed(c)} && c in s.camps
      && ReadsRows(s, c, cands) && (forall r <- cands :: r.status == Queued)
    case SelectStage(p, c, stage, cands) =>
      PressAt(s, p).Idle? && c in s.camps && stage in s.camps[c].stages && ReadsRows(s, c, cands)
    case ClaimRelaunch(p, c, _) => PressAt(s, p).Idle? && c in s.camps
    case SelectRelaunch(p, cands) => PressAt(s, p).Pressed? && ReadsRows(s, PressAt(s, p).c, cands)
    case OpenRelaunch(p) => PressAt(s, p).RelaunchSelected? && PressAt(s, p).c in s.camps
    case PlanStep(p, _) =>
      var x := PressAt(s, p);
      x.BatchSelected? || x.StageSelected? || x.RelaunchOpened?
    case SendChunk(p, n) => PressAt(s, p).Pushing? && PressAt(s, p).sent == PressAt(s, p).acked && 0 < n
    case Ack(p) =>
      var x := PressAt(s, p);
      x.Pushing? && x.acked <= x.sent <= |x.plan| && forall id <- x.plan[x.acked..x.sent] :: id in s.cloud.packs
    case Record(p) => PressAt(s, p).Pushing? && PressAt(s, p).acked <= |PressAt(s, p).plan|
    case CloseRelaunch(p) => PressAt(s, p).Finished? && PressAt(s, p).relaunch && PressAt(s, p).c in s.camps
    case Drop(p) => true
    case CancelCampaign(c, clear) => c in s.camps && (clear ==> !InFlight(s, c))
    case RetryFailedStep(c) => c in s.camps
    case AddCampaign(c) => c !in s.camps
    case AddStage(c, stage) => c in s.camps && stage !in s.camps[c].stages
    case AddRecipient(c, contact) => c in s.camps
    case TouchRecipient(c, contact, mark) => (c, contact) in s.rows.recips && (Engaged(mark) || mark == MarkedCancelled)
  }

  function SendKeyOf(s: State, x: Press): SendKey
    requires x.BatchSelected? || x.StageSelected? || x.RelaunchOpened?
  {
    match x
    case BatchSelected(c, _) => KeyFor(if c in s.camps then s.camps[c].gen else 0)
    case StageSelected(_, stage, _) => Stage(stage)
    case RelaunchOpened(_, gen, _) => KeyFor(gen)
  }

  function SetPress(s: State, p: nat, x: Press): State { s.(presses := s.presses[p := x]) }

  function Apply(s: State, t: Step): State
    requires Enabled(s, t)
  {
    match t
    case CloudStep(cs) => s.(cloud := CM.Apply(s.cloud, cs))
    case Land(id, sendAt, now) =>
      s.(cloud := CM.Apply(s.cloud, CM.PutStep(id, id.slot.campaign, sendAt, now)),
         seen := if id in s.cloud.packs then s.seen + {(id, s.cloud.packs[id].status)} else s.seen)
    case Observe(id) => s.(seen := s.seen + {(id, s.cloud.packs[id].status)})
    case DeliverOutcome(id, status) => s.(rows := ApplyOutcome(s.rows, id, status))
    case SelectBatch(p, c, cands) => SetPress(s, p, BatchSelected(c, cands))
    case SelectStage(p, c, stage, cands) => SetPress(s, p, StageSelected(c, stage, cands))
    case ClaimRelaunch(p, c, expected) =>
      var k := s.camps[c];
      if expected == None || expected == Some(k.seq_) then
        SetPress(s.(camps := s.camps[c := k.(seq_ := k.seq_ + 1,
                                               carried := if expected.Some? then k.carried + [expected.value] else k.carried)]),
                 p, Pressed(c))
      else s
    case SelectRelaunch(p, cands) => SetPress(s, p, RelaunchSelected(PressAt(s, p).c, cands))
    case OpenRelaunch(p) =>
      var x := PressAt(s, p);
      var k := s.camps[x.c];
      if k.open then SetPress(s, p, RelaunchOpened(x.c, k.gen, x.cands))
      else SetPress(s.(camps := s.camps[x.c := k.(gen := k.gen + 1, open := true)]),
                    p, RelaunchOpened(x.c, k.gen + 1, x.cands))
    case PlanStep(p, blocked) =>
      var x := PressAt(s, p);
      var key := SendKeyOf(s, x);
      var plan := PlanOf(JobsOf(s.rows.jobs, x.c), blocked, x.c, key, x.cands);
      SetPress(s, p, Pushing(x.c, key, x.RelaunchOpened?, Ids(plan.sends), 0, 0))
    case SendChunk(p, n) =>
      var x := PressAt(s, p);
      var upto := if x.sent + n <= |x.plan| then x.sent + n else |x.plan|;
      SetPress(s.(wire := s.wire + set id | id in x.plan[..upto]), p, x.(sent := upto))
    case Ack(p) => SetPress(s, p, PressAt(s, p).(acked := PressAt(s, p).sent))
    case Record(p) =>
      var x := PressAt(s, p);
      (match RecordAll(s.rows, x.c, x.plan[..x.acked])
       case None => SetPress(s, p, Idle)
       case Some(rows) => SetPress(s.(rows := rows), p, if x.acked == |x.plan| then Finished(x.c, x.key, x.relaunch) else Idle))
    case CloseRelaunch(p) =>
      var x := PressAt(s, p);
      var k := s.camps[x.c];
      SetPress(s.(camps := if KeyFor(k.gen) == x.key then s.camps[x.c := k.(open := false)] else s.camps), p, Idle)
    case Drop(p) => SetPress(s, p, Idle)
    case CancelCampaign(c, clear) => if clear then s.(camps := s.camps[c := s.camps[c].(open := false)]) else s
    case RetryFailedStep(c) => s.(rows := s.rows.(recips := RetryFailed(s.rows.recips, c)))
    case AddCampaign(c) => s.(camps := s.camps[c := Camp(0, false, 0, {}, [])])
    case AddStage(c, stage) => s.(camps := s.camps[c := s.camps[c].(stages := s.camps[c].stages + {stage})])
    case AddRecipient(c, contact) =>
      if (c, contact) in s.rows.recips then s
      else s.(rows := s.rows.(recips := s.rows.recips[(c, contact) := Queued]))
    case TouchRecipient(c, contact, mark) => s.(rows := s.rows.(recips := s.rows.recips[(c, contact) := mark]))
  }

  predicate Init(s: State) { CM.Init(s.cloud) && s == State(s.cloud, Rows(map[], map[]), map[], map[], {}, {}) }

  ghost predicate Next(s: State, s': State) { exists t :: Enabled(s, t) && s' == Apply(s, t) }

  // The invariant

  /** A recorded job has its pack in the cloud, a failed or cancelled one has a dead pack, a completed one a sent pack. */
  predicate JobsBacked(s: State) {
    forall id <- s.rows.jobs :: id.ContactPack? && id in s.cloud.packs
      && (Retryable(s.rows.jobs[id]) ==> CM.Dead(s.cloud, id))
      && (s.rows.jobs[id] == Completed ==> s.cloud.packs[id].status == Sent)
  }

  predicate Final(st: PackStatus) { st == Sent || DeadStatus(st) }

  /** A final status once read is the status still. */
  predicate SeenHolds(s: State) {
    forall o <- s.seen :: o.0 in s.cloud.packs && (Final(o.1) ==> s.cloud.packs[o.0].status == o.1)
  }

  /** Every smaller ordinal of the slot is recorded, as failed or cancelled. */
  predicate Settled(jobs: Jobs, id: PackId) {
    id.ContactPack? && forall a: nat :: a < id.ordinal ==> IdOf(id.slot, a) in jobs && Retryable(jobs[IdOf(id.slot, a)])
  }

  predicate WireSettled(s: State) { forall id <- s.wire :: Settled(s.rows.jobs, id) }

  predicate CloudFromWire(s: State) { forall id <- s.cloud.packs :: id.ContactPack? ==> id in s.wire }

  predicate PlanOk(s: State, x: Press) {
    x.Pushing? ==>
      && x.acked <= x.sent <= |x.plan|
      && (forall id <- x.plan :: Settled(s.rows.jobs, id) && id.slot.campaign == x.c && id.slot.key == x.key)
      && (forall id <- x.plan[..x.sent] :: id in s.wire)
      && (forall id <- x.plan[..x.acked] :: id in s.cloud.packs)
  }

  predicate PlansOk(s: State) { forall p <- s.presses :: PlanOk(s, s.presses[p]) }

  predicate KeyKnown(camps: map<nat, Camp>, c: nat, key: SendKey) {
    c in camps &&
    match key
    case Main => true
    case Relaunch(g) => 1 <= g <= camps[c].gen
    case Stage(n) => n in camps[c].stages
  }

  predicate PressKnown(camps: map<nat, Camp>, x: Press) {
    match x
    case Idle => true
    case Pressed(c) => c in camps
    case BatchSelected(c, _) => c in camps
    case StageSelected(c, n, _) => c in camps && n in camps[c].stages
    case RelaunchSelected(c, _) => c in camps
    case RelaunchOpened(c, g, _) => c in camps && 1 <= g <= camps[c].gen
    case Pushing(c, key, _, _, _, _) => KeyKnown(camps, c, key)
    case Finished(c, key, _) => KeyKnown(camps, c, key)
  }

  predicate KeysKnown(s: State) {
    && (forall id <- s.wire :: id.ContactPack? && KeyKnown(s.camps, id.slot.campaign, id.slot.key))
    && (forall p <- s.presses :: PressKnown(s.camps, s.presses[p]))
  }

  predicate Increasing(s: seq<nat>, bound: nat) {
    && (forall i, j :: 0 <= i < j < |s| ==> s[i] < s[j])
    && (forall x <- s :: x < bound)
  }

  predicate CampsOk(s: State) {
    forall c <- s.camps :: Increasing(s.camps[c].carried, s.camps[c].seq_) && (s.camps[c].open ==> s.camps[c].gen > 0)
  }

  predicate Inv(s: State) {
    && CM.Inv(s.cloud) && JobsBacked(s) && SeenHolds(s) && WireSettled(s) && CloudFromWire(s)
    && PlansOk(s) && KeysKnown(s) && CampsOk(s)
  }

  // Each step keeps it.

  /** The cloud may move as it likes as long as rows stay and final statuses stay final. */
  predicate CloudGrows(c: CM.Cloud, c': CM.Cloud) {
    && c.packs.Keys <= c'.packs.Keys
    && (forall id <- c.packs :: Final(c.packs[id].status) ==> c'.packs[id].status == c.packs[id].status)
  }

  /** A cloud step adds no row but the one it puts. */
  lemma CloudStepGrows(c: CM.Cloud, cs: CM.Step)
    requires CM.Inv(c) && CM.Enabled(c, cs)
    ensures CM.Inv(CM.Apply(c, cs)) && CloudGrows(c, CM.Apply(c, cs))
    ensures CM.Apply(c, cs).packs.Keys <= c.packs.Keys + if cs.PutStep? then {cs.id} else {}
  {
    CM.NextKeepsInv(c, cs);
    CM.NextFollowsEdges(c, cs);
  }

  lemma CloudMoveKeepsInv(s: State, cs: CM.Step)
    requires Inv(s) && CM.Enabled(s.cloud, cs)
    requires cs.PutStep? && cs.id.ContactPack? ==> cs.id in s.wire
    ensures Inv(s.(cloud := CM.Apply(s.cloud, cs)))
  {
    CloudStepGrows(s.cloud, cs);
    CloudGrowthKeeps(s, CM.Apply(s.cloud, cs), if cs.PutStep? then {cs.id} else {});
  }

  lemma CloudGrowthKeeps(s: State, c: CM.Cloud, added: set<PackId>)
    requires Inv(s) && CM.Inv(c) && CloudGrows(s.cloud, c)
    requires c.packs.Keys <= s.cloud.packs.Keys + added && forall id <- added :: id.ContactPack? ==> id in s.wire
    ensures Inv(s.(cloud := c))
  {
    var s' := s.(cloud := c);
    GrowthKeepsPlans(s, s');
    assert JobsBacked(s') && SeenHolds(s') && CloudFromWire(s');
  }

  lemma GrowthKeepsPlans(s: State, s': State)
    requires PlansOk(s) && s.cloud.packs.Keys <= s'.cloud.packs.Keys && s' == s.(cloud := s'.cloud)
    ensures PlansOk(s')
  {
  }

  lemma LandKeepsInv(s: State, id: PackId, sendAt: int, now: int)
    requires Inv(s) && Enabled(s, Land(id, sendAt, now))
    ensures Inv(Apply(s, Land(id, sendAt, now)))
  {
    var put := CM.PutStep(id, id.slot.campaign, sendAt, now);
    CloudMoveKeepsInv(s, put);
    if id in s.cloud.packs { SeeingKeepsInv(s.(cloud := CM.Apply(s.cloud, put)), id); }
  }

  lemma SeeingKeepsInv(s: State, id: PackId)
    requires Inv(s) && id in s.cloud.packs
    ensures Inv(s.(seen := s.seen + {(id, s.cloud.packs[id].status)}))
  {
  }

  lemma DeliverKeepsInv(s: State, id: PackId, status: PackStatus)
    requires Inv(s) && Enabled(s, DeliverOutcome(id, status))
    ensures Inv(Apply(s, DeliverOutcome(id, status)))
  {
    var s' := Apply(s, DeliverOutcome(id, status));
    assert (id, status) in s.seen;
    assert s'.rows.jobs.Keys == s.rows.jobs.Keys;
    forall x | x in s.rows.jobs && Retryable(s.rows.jobs[x]) ensures Retryable(s'.rows.jobs[x]) {
      if x == id { assert CM.Dead(s.cloud, id); }
    }
    SettledGrows(s, s');
  }

  /** Recording and outcomes never unsettle an ordinal. */
  lemma SettledGrows(s: State, s': State)
    requires s'.rows.jobs.Keys >= s.rows.jobs.Keys
    requires forall x <- s.rows.jobs :: Retryable(s.rows.jobs[x]) ==> Retryable(s'.rows.jobs[x])
    ensures forall id :: Settled(s.rows.jobs, id) ==> Settled(s'.rows.jobs, id)
  {
  }

  /** A planned id has every smaller ordinal settled, because its predecessor's job says failed or cancelled. */
  lemma PlannedIsSettled(s: State, blocked: map<nat, string>, c: nat, key: SendKey, cands: seq<Candidate>, e: (Candidate, PackId))
    requires Inv(s)
    requires e in PlanOf(JobsOf(s.rows.jobs, c), blocked, c, key, cands).sends
    ensures Settled(s.rows.jobs, e.1) && e.1.slot.campaign == c && e.1.slot.key == key
  {
  }

  lemma PlannedAreSettled(s: State, blocked: map<nat, string>, c: nat, key: SendKey, cands: seq<Candidate>)
    requires Inv(s)
    ensures forall id <- Ids(PlanOf(JobsOf(s.rows.jobs, c), blocked, c, key, cands).sends) ::
              Settled(s.rows.jobs, id) && id.slot.campaign == c && id.slot.key == key
  {
    var sends := PlanOf(JobsOf(s.rows.jobs, c), blocked, c, key, cands).sends;
    forall id | id in Ids(sends) ensures Settled(s.rows.jobs, id) && id.slot.campaign == c && id.slot.key == key {
      var i :| 0 <= i < |Ids(sends)| && Ids(sends)[i] == id;
      PlannedIsSettled(s, blocked, c, key, cands, sends[i]);
    }
  }

  /** A press that starts to push ids with settled ordinals, under a key it may use, keeps the invariant. */
  lemma PushStartKeepsInv(s: State, p: nat, x: Press)
    requires Inv(s) && x.Pushing? && x.acked == x.sent == 0 && KeyKnown(s.camps, x.c, x.key)
    requires forall id <- x.plan :: Settled(s.rows.jobs, id) && id.slot.campaign == x.c && id.slot.key == x.key
    ensures Inv(SetPress(s, p, x))
  {
  }

  lemma PlanKeepsInv(s: State, p: nat, blocked: map<nat, string>)
    requires Inv(s) && Enabled(s, PlanStep(p, blocked))
    ensures Inv(Apply(s, PlanStep(p, blocked)))
  {
    var x := PressAt(s, p);
    assert PressKnown(s.camps, x);
    var key := SendKeyOf(s, x);
    PlannedAreSettled(s, blocked, x.c, key, x.cands);
    var ids := Ids(PlanOf(JobsOf(s.rows.jobs, x.c), blocked, x.c, key, x.cands).sends);
    PushStartKeepsInv(s, p, Pushing(x.c, key, x.RelaunchOpened?, ids, 0, 0));
  }

  lemma SendChunkKeepsInv(s: State, p: nat, n: nat)
    requires Inv(s) && Enabled(s, SendChunk(p, n))
    ensures Inv(Apply(s, SendChunk(p, n)))
  {
  }

  lemma AckKeepsInv(s: State, p: nat)
    requires Inv(s) && Enabled(s, Ack(p))
    ensures Inv(Apply(s, Ack(p)))
  {
  }

  lemma RecordKeepsInv(s: State, p: nat)
    requires Inv(s) && Enabled(s, Record(p))
    ensures Inv(Apply(s, Record(p)))
  {
    var s' := Apply(s, Record(p));
    var x := PressAt(s, p);
    assert PlanOk(s, x) && PressKnown(s.camps, x);
    var ids := x.plan[..x.acked];
    RecordAllExact(s.rows, x.c, ids);
    if RecordAll(s.rows, x.c, ids).Some? {
      forall id | id in s'.rows.jobs
        ensures id.ContactPack? && id in s'.cloud.packs && (Retryable(s'.rows.jobs[id]) ==> CM.Dead(s'.cloud, id))
      {
        if id !in s.rows.jobs { assert id in ids; }
      }
      SettledGrows(s, s');
    }
  }

  lemma IncreasingSnoc(s: seq<nat>, bound: nat)
    requires Increasing(s, bound)
    ensures Increasing(s + [bound], bound + 1)
  {
    assert forall i :: 0 <= i < |s| ==> s[i] in s;
  }

  lemma ClaimKeepsInv(s: State, p: nat, c: nat, expected: Option<nat>)
    requires Inv(s) && Enabled(s, ClaimRelaunch(p, c, expected))
    ensures Inv(Apply(s, ClaimRelaunch(p, c, expected)))
  {
    var k := s.camps[c];
    assert Increasing(k.carried, k.seq_);
    if expected.Some? && expected.value == k.seq_ { IncreasingSnoc(k.carried, k.seq_); }
    var k' := k.(seq_ := k.seq_ + 1, carried := if expected.Some? then k.carried + [expected.value] else k.carried);
    if expected == None || expected == Some(k.seq_) {
      assert Apply(s, ClaimRelaunch(p, c, expected)) == SetPress(s.(camps := s.camps[c := k']), p, Pressed(c));
      CampAndPressKeepInv(s, c, k', p, Pressed(c));
    } else {
      assert Apply(s, ClaimRelaunch(p, c, expected)) == s;
    }
  }

  lemma CampAndPressKeepInv(s: State, c: nat, k: Camp, p: nat, x: Press)
    requires Inv(s) && !x.Pushing? && PressKnown(s.camps[c := k], x)
    requires Increasing(k.carried, k.seq_) && (k.open ==> k.gen > 0)
    requires c in s.camps ==> s.camps[c].gen <= k.gen && s.camps[c].stages <= k.stages
    ensures Inv(SetPress(s.(camps := s.camps[c := k]), p, x))
  {
  }

  lemma OpenKeepsInv(s: State, p: nat)
    requires Inv(s) && Enabled(s, OpenRelaunch(p))
    ensures Inv(Apply(s, OpenRelaunch(p)))
  {
    var x := PressAt(s, p);
    var k := s.camps[x.c];
    assert PressKnown(s.camps, x) && Increasing(k.carried, k.seq_);
    CampAndPressKeepInv(s, x.c, k.(gen := k.gen + 1, open := true), p, RelaunchOpened(x.c, k.gen + 1, x.cands));
  }

  lemma CampsKeepInv(s: State, t: Step)
    requires Inv(s) && Enabled(s, t)
    requires t.CloseRelaunch? || t.CancelCampaign? || t.AddCampaign? || t.AddStage?
    ensures Inv(Apply(s, t))
  {
    match t
    case CloseRelaunch(p) => CloseKeepsInv(s, p);
    case CancelCampaign(c, clear) => CampKeepsInv(s, c, s.camps[c].(open := false));
    case AddCampaign(c) => CampKeepsInv(s, c, Camp(0, false, 0, {}, []));
    case AddStage(c, n) => CampKeepsInv(s, c, s.camps[c].(stages := s.camps[c].stages + {n}));
  }

  lemma CloseKeepsInv(s: State, p: nat)
    requires Inv(s) && Enabled(s, CloseRelaunch(p))
    ensures Inv(Apply(s, CloseRelaunch(p)))
  {
    var x := PressAt(s, p);
    var k := s.camps[x.c];
    assert Increasing(k.carried, k.seq_) && s.camps[x.c := k] == s.camps;
    CampAndPressKeepInv(s, x.c, if KeyFor(k.gen) == x.key then k.(open := false) else k, p, Idle);
  }

  lemma CampKeepsInv(s: State, c: nat, k: Camp)
    requires Inv(s) && Increasing(k.carried, k.seq_) && (k.open ==> k.gen > 0)
    requires c in s.camps ==> s.camps[c].gen <= k.gen && s.camps[c].stages <= k.stages
    ensures Inv(s.(camps := s.camps[c := k]))
  {
  }

  lemma PressMoveKeepsInv(s: State, t: Step)
    requires Inv(s) && Enabled(s, t)
    requires t.SelectBatch? || t.SelectStage? || t.SelectRelaunch? || t.Drop? || t.Observe?
          || t.RetryFailedStep? || t.AddRecipient? || t.TouchRecipient?
    ensures Inv(Apply(s, t))
  {
    if t.SelectRelaunch? {
      assert PressKnown(s.camps, PressAt(s, t.p));
    } else if t.RetryFailedStep? || t.AddRecipient? || t.TouchRecipient? {
      RecipientsKeepInv(s, t);
    }
  }

  lemma RecipientsKeepInv(s: State, t: Step)
    requires Inv(s) && Enabled(s, t) && (t.RetryFailedStep? || t.AddRecipient? || t.TouchRecipient?)
    ensures Inv(Apply(s, t))
  {
    assert Apply(s, t).rows.jobs == s.rows.jobs;
  }

  lemma PushKeepsInv(s: State, t: Step)
    requires Inv(s) && Enabled(s, t) && (t.PlanStep? || t.SendChunk? || t.Ack? || t.Record?)
    ensures Inv(Apply(s, t))
  {
    match t
    case PlanStep(p, blocked) => PlanKeepsInv(s, p, blocked);
    case SendChunk(p, n) => SendChunkKeepsInv(s, p, n);
    case Ack(p) => AckKeepsInv(s, p);
    case Record(p) => RecordKeepsInv(s, p);
  }

  lemma QuietStepKeepsInv(s: State, t: Step)
    requires Inv(s) && Enabled(s, t)
    requires t.CloseRelaunch? || t.CancelCampaign? || t.AddCampaign? || t.AddStage? || t.SelectBatch? || t.SelectStage?
          || t.SelectRelaunch? || t.Drop? || t.Observe? || t.RetryFailedStep? || t.AddRecipient? || t.TouchRecipient?
    ensures Inv(Apply(s, t))
  {
    if t.CloseRelaunch? || t.CancelCampaign? || t.AddCampaign? || t.AddStage? {
      CampsKeepInv(s, t);
    } else {
      PressMoveKeepsInv(s, t);
    }
  }

  lemma CloudSideKeepsInv(s: State, t: Step)
    requires Inv(s) && Enabled(s, t) && (t.CloudStep? || t.Land? || t.DeliverOutcome?)
    ensures Inv(Apply(s, t))
  {
    match t
    case CloudStep(cs) => CloudMoveKeepsInv(s, cs);
    case Land(id, sendAt, now) => LandKeepsInv(s, id, sendAt, now);
    case DeliverOutcome(id, status) => DeliverKeepsInv(s, id, status);
  }

  lemma NextKeepsInv(s: State, t: Step)
    requires Inv(s) && Enabled(s, t)
    ensures Inv(Apply(s, t))
  {
    if t.CloudStep? || t.Land? || t.DeliverOutcome? {
      CloudSideKeepsInv(s, t);
    } else if t.ClaimRelaunch? {
      ClaimKeepsInv(s, t.p, t.c, t.expected);
    } else if t.OpenRelaunch? {
      OpenKeepsInv(s, t.p);
    } else if t.PlanStep? || t.SendChunk? || t.Ack? || t.Record? {
      PushKeepsInv(s, t);
    } else {
      QuietStepKeepsInv(s, t);
    }
  }

  /** The key a press sends under: its stage, its generation, or for a batch the campaign's latest generation. */
  predicate SendsUnder(s: State, x: Press, key: SendKey) {
    match x
    case BatchSelected(c, _) => c in s.camps && key == if s.camps[c].gen == 0 then Main else Relaunch(s.camps[c].gen)
    case StageSelected(_, stage, _) => key == Stage(stage)
    case RelaunchOpened(_, gen, _) => key == if gen == 0 then Main else Relaunch(gen)
    case _ => false
  }

  /** A press plans, under its key, exactly the due pack of each candidate that is not blocked. */
  lemma PressPlansExactly(s: State, p: nat, blocked: map<nat, string>, id: PackId)
    requires Inv(s) && Enabled(s, PlanStep(p, blocked))
    ensures var x, y := PressAt(s, p), PressAt(Apply(s, PlanStep(p, blocked)), p);
      && y.Pushing? && y.c == x.c && y.sent == y.acked == 0 && SendsUnder(s, x, y.key)
      && (id in y.plan <==> DueToOne(JobsOf(s.rows.jobs, x.c), blocked, x.c, y.key, x.cands, id))
  {
    var x := PressAt(s, p);
    PlanStepIs(s, p, blocked);
    IdsAreDue(JobsOf(s.rows.jobs, x.c), blocked, x.c, SendKeyOf(s, x), x.cands, id);
  }

  /** The pack is the due one of a candidate that is not blocked. */
  predicate DueToOne(jobs: Jobs, blocked: map<nat, string>, c: nat, key: SendKey, cands: seq<Candidate>, id: PackId) {
    exists r <- cands :: r.hash !in blocked && id.ContactPack? && id.slot == Slot(c, key, r.contact)
                         && NextDue(jobs, id.slot, id.ordinal, r.status)
  }

  lemma IdsAreDue(jobs: Jobs, blocked: map<nat, string>, c: nat, key: SendKey, cands: seq<Candidate>, id: PackId)
    ensures id in Ids(PlanOf(jobs, blocked, c, key, cands).sends) <==> DueToOne(jobs, blocked, c, key, cands, id)
  {
    var sends := PlanOf(jobs, blocked, c, key, cands).sends;
    PlanExactly(jobs, blocked, c, key, cands);
    IdsArePlanned(sends, id);
    if r :| (r, id) in sends { assert r in cands; }
    if r :| r in cands && r.hash !in blocked && id.ContactPack? && id.slot == Slot(c, key, r.contact)
            && NextDue(jobs, id.slot, id.ordinal, r.status) {
      assert (r, id) in sends;
    }
  }

  lemma PlanStepIs(s: State, p: nat, blocked: map<nat, string>)
    requires Inv(s) && Enabled(s, PlanStep(p, blocked))
    ensures var x := PressAt(s, p);
      var key := SendKeyOf(s, x);
      && SendsUnder(s, x, key)
      && PressAt(Apply(s, PlanStep(p, blocked)), p)
         == Pushing(x.c, key, x.RelaunchOpened?, Ids(PlanOf(JobsOf(s.rows.jobs, x.c), blocked, x.c, key, x.cands).sends), 0, 0)
  {
    assert PressKnown(s.camps, PressAt(s, p));
  }

  /**
   Recording books exactly the acknowledged ids, all or none, and none if one of them is recorded already; the press is
   finished, and may close its generation, exactly if that was its whole plan.
   */
  lemma RecordExactly(s: State, p: nat)
    requires Inv(s) && Enabled(s, Record(p))
    ensures var x, s' := PressAt(s, p), Apply(s, Record(p));
      var acked := x.plan[..x.acked];
      var fits := (forall id <- acked :: id !in s.rows.jobs) && forall i, j :: 0 <= i < j < |acked| ==> acked[i] != acked[j];
      && (if fits then s'.rows.jobs.Keys == s.rows.jobs.Keys + (set id | id in acked) else s'.rows == s.rows)
      && (PressAt(s', p).Finished? <==> fits && x.acked == |x.plan|)
      && (PressAt(s', p).Finished? ==> PressAt(s', p) == Finished(x.c, x.key, x.relaunch))
      && s'.cloud == s.cloud && s'.camps == s.camps
  {
    var x := PressAt(s, p);
    var acked := x.plan[..x.acked];
    assert PlanOk(s, x);
    assert forall id <- acked :: id in x.plan && Contacts(id);
    RecordAllExact(s.rows, x.c, acked);
    assert ContactSet(acked) == set id | id in acked;
  }

  lemma IdsArePlanned(sends: seq<(Candidate, PackId)>, id: PackId)
    ensures id in Ids(sends) <==> exists r :: (r, id) in sends
  {
    if id in Ids(sends) {
      var i :| 0 <= i < |sends| && Ids(sends)[i] == id;
      assert sends[i] == (sends[i].0, id) && sends[i] in sends;
    }
    if r :| (r, id) in sends {
      var i :| 0 <= i < |sends| && sends[i] == (r, id);
      assert Ids(sends)[i] == id;
    }
  }

  // Whole runs

  ghost predicate Run(tr: seq<State>) {
    && |tr| > 0 && Init(tr[0])
    && forall i :: 0 <= i < |tr| - 1 ==> StepAt(tr, i)
  }

  ghost predicate StepAt(tr: seq<State>, i: nat)
    requires i + 1 < |tr|
  {
    Next(tr[i], tr[i + 1])
  }

  lemma InvStep(tr: seq<State>, i: nat, s: State, s': State)
    requires Run(tr) && i + 1 < |tr| && s == tr[i] && s' == tr[i + 1] && Inv(s)
    ensures Inv(s')
  {
    assert StepAt(tr, i);
    var t :| Enabled(s, t) && s' == Apply(s, t);
    NextKeepsInv(s, t);
  }

  lemma {:induction false} RunInv(tr: seq<State>, i: nat)
    requires Run(tr) && i < |tr|
    ensures Inv(tr[i])
  {
    if i > 0 {
      RunInv(tr, i - 1);
      InvStep(tr, i - 1, tr[i - 1], tr[i]);
    }
  }

  /** If the cloud holds ordinal b of a slot, every smaller ordinal is held, recorded failed or cancelled, and dead. */
  lemma OrdinalInvariant(tr: seq<State>, i: nat, slot: Slot, b: nat, a: nat)
    requires Run(tr) && i < |tr| && a < b
    requires IdOf(slot, b) in tr[i].cloud.packs
    ensures var s := tr[i];
            && IdOf(slot, a) in s.cloud.packs && CM.Dead(s.cloud, IdOf(slot, a))
            && IdOf(slot, a) in s.rows.jobs && Retryable(s.rows.jobs[IdOf(slot, a)])
  {
    RunInv(tr, i);
    assert IdOf(slot, b) in tr[i].wire;
    assert Settled(tr[i].rows.jobs, IdOf(slot, b));
  }

  /** At any time at most one pack of a slot can still be, or may have been, delivered. */
  lemma OneLivePack(tr: seq<State>, i: nat, slot: Slot, a: nat, b: nat)
    requires Run(tr) && i < |tr|
    requires IdOf(slot, a) in tr[i].cloud.packs && !CM.Dead(tr[i].cloud, IdOf(slot, a))
    requires IdOf(slot, b) in tr[i].cloud.packs && !CM.Dead(tr[i].cloud, IdOf(slot, b))
    ensures a == b
  {
    if a < b { OrdinalInvariant(tr, i, slot, b, a); }
    if b < a { OrdinalInvariant(tr, i, slot, a, b); }
  }

  /**
   At most once: whatever presses, partial pushes, failed recordings, duplicate messages, sweeps, cancels and
   retries interleave, no two mails the provider accepted share campaign, generation and contact.
   */
  lemma AtMostOnce(tr: seq<State>, i: nat, m: nat, n: nat)
    requires Run(tr) && i < |tr| && m < n < |tr[i].cloud.accepted|
    requires tr[i].cloud.accepted[m].ContactPack? && tr[i].cloud.accepted[n].ContactPack?
    ensures tr[i].cloud.accepted[m].slot != tr[i].cloud.accepted[n].slot
  {
    RunInv(tr, i);
    var x, y := tr[i].cloud.accepted[m], tr[i].cloud.accepted[n];
    assert x != y && x in tr[i].cloud.packs && y in tr[i].cloud.packs;
    if x.slot == y.slot {
      assert x == IdOf(x.slot, x.ordinal) && y == IdOf(x.slot, y.ordinal);
      OneLivePack(tr, i, x.slot, x.ordinal, y.ordinal);
    }
  }

  // Re-launch control

  /**
   A Re-launch opens a generation only while none is open, one at a time; no other step starts one. Only a press of
   the open generation closes it, or a cancel that clears it while nothing of the campaign is being pushed. A Re-launch
   press is counted exactly when it names the current seq or none.
   */
  lemma GenerationsOpenOneAtATime(s: State, t: Step, c: nat)
    requires Enabled(s, t) && c in s.camps
    ensures c in Apply(s, t).camps
    ensures var k, k' := s.camps[c], Apply(s, t).camps[c];
            && k.gen <= k'.gen <= k.gen + 1
            && k'.seq_ == k.seq_ + (if t.ClaimRelaunch? && t.c == c && t.expected in {None, Some(k.seq_)} then 1 else 0)
            && (k'.gen > k.gen ==> !k.open && k'.open)
            && (k.open && !k'.open ==>
                  || (t == CancelCampaign(c, true) && forall p <- s.presses :: s.presses[p].Pushing? ==> s.presses[p].c != c)
                  || (t.CloseRelaunch? && PressAt(s, t.p).c == c && PressAt(s, t.p).key == if k.gen == 0 then Main else Relaunch(k.gen)))
            && k.carried <= k'.carried && k.stages <= k'.stages
  {
  }

  /** Of all presses that carried the same expected_seq, at most one was carried out. */
  lemma ExpectedSeqCarriedOnce(tr: seq<State>, i: nat, c: nat, m: nat, n: nat)
    requires Run(tr) && i < |tr| && c in tr[i].camps
    requires m < n < |tr[i].camps[c].carried|
    ensures tr[i].camps[c].carried[m] != tr[i].camps[c].carried[n]
  {
    RunInv(tr, i);
    assert Increasing(tr[i].camps[c].carried, tr[i].camps[c].seq_);
  }

  lemma SeqStep(tr: seq<State>, i: nat, s: State, s': State, c: nat)
    requires Run(tr) && i + 1 < |tr| && s == tr[i] && s' == tr[i + 1] && c in s.camps
    ensures c in s'.camps && s.camps[c].seq_ <= s'.camps[c].seq_
  {
    assert StepAt(tr, i);
    var t :| Enabled(s, t) && s' == Apply(s, t);
    GenerationsOpenOneAtATime(s, t, c);
  }

  lemma {:induction false} SeqGrows(tr: seq<State>, i: nat, j: nat, c: nat)
    requires Run(tr) && i <= j < |tr| && c in tr[i].camps
    ensures c in tr[j].camps && tr[i].camps[c].seq_ <= tr[j].camps[c].seq_
    decreases j
  {
    if i < j {
      SeqGrows(tr, i, j - 1, c);
      SeqStep(tr, j - 1, tr[j - 1], tr[j], c);
    }
  }

  /**
   A page loaded at moment i is stale for good once any Re-launch press of the campaign has been carried out at a
   later moment k: at every moment after that, a press carrying the seq the page showed changes nothing.
   */
  lemma StalePressRefused(tr: seq<State>, i: nat, k: nat, j: nat, c: nat, q: nat, e: Option<nat>, p: nat)
    requires Run(tr) && i <= k < j < |tr| && c in tr[i].camps
    requires Enabled(tr[k], ClaimRelaunch(q, c, e)) && tr[k + 1] == Apply(tr[k], ClaimRelaunch(q, c, e)) && tr[k + 1] != tr[k]
    requires Enabled(tr[j], ClaimRelaunch(p, c, Some(tr[i].camps[c].seq_)))
    ensures Apply(tr[j], ClaimRelaunch(p, c, Some(tr[i].camps[c].seq_))) == tr[j]
  {
    SeqGrows(tr, i, k, c);
    SeqGrows(tr, k + 1, j, c);
  }

  /** The carried-out Re-launch presses of a campaign that may still open a generation. */
  function Waiting(s: State, c: nat): set<nat> {
    set p | p in s.presses && (s.presses[p].Pressed? || s.presses[p].RelaunchSelected?) && s.presses[p].c == c
  }

  predicate PressesPayForGenerations(s: State) {
    forall c <- s.camps :: s.camps[c].gen + |Waiting(s, c)| <= s.camps[c].seq_
  }

  lemma WaitingStep(s: State, t: Step, c: nat)
    requires Enabled(s, t)
    ensures var s' := Apply(s, t);
            && (t.ClaimRelaunch? ==> Waiting(s', c) <= Waiting(s, c) + if s' != s && t.c == c then {t.p} else {})
            && (t.OpenRelaunch? ==> t.p !in Waiting(s', c))
            && (!t.ClaimRelaunch? ==> Waiting(s', c) <= Waiting(s, c))
            && (t.OpenRelaunch? && PressAt(s, t.p).c == c ==> t.p in Waiting(s, c))
  {
    forall q | q in Waiting(Apply(s, t), c)
      ensures q in Waiting(s, c) || (t.ClaimRelaunch? && Apply(s, t) != s && t.c == c && q == t.p)
    {
      WaitsAlready(s, t, c, q);
    }
    if t.OpenRelaunch? { assert t.p in s.presses; }
  }

  lemma WaitsAlready(s: State, t: Step, c: nat, q: nat)
    requires Enabled(s, t) && q in Waiting(Apply(s, t), c)
    ensures q in Waiting(s, c) || (t.ClaimRelaunch? && Apply(s, t) != s && t.c == c && q == t.p)
  {
    if q in s.presses && Apply(s, t).presses[q] == s.presses[q] {
      assert q in Waiting(s, c);
    }
  }

  lemma CampStep(s: State, t: Step, c: nat)
    requires Enabled(s, t) && c in Apply(s, t).camps
    ensures var s' := Apply(s, t);
            if c in s.camps then
              && s'.camps[c].gen <= s.camps[c].gen + (if t.OpenRelaunch? && PressAt(s, t.p).c == c then 1 else 0)
              && s'.camps[c].seq_ >= s.camps[c].seq_ + (if t.ClaimRelaunch? && s' != s && t.c == c then 1 else 0)
            else t == AddCampaign(c) && s'.camps[c].gen == 0 && s'.presses == s.presses
  {
  }

  lemma NobodyWaitsForUnknown(s: State, c: nat)
    requires Inv(s) && c !in s.camps
    ensures Waiting(s, c) == {}
  {
  }

  lemma Paid(s: State, t: Step, c: nat, s': State)
    requires Inv(s) && PressesPayForGenerations(s) && Enabled(s, t) && s' == Apply(s, t) && c in s'.camps
    ensures s'.camps[c].gen + |Waiting(s', c)| <= s'.camps[c].seq_
  {
    WaitingStep(s, t, c);
    CampStep(s, t, c);
    if c !in s.camps {
      NobodyWaitsForUnknown(s, c);
    } else if t.ClaimRelaunch? {
      SubsetSize(Waiting(s', c), Waiting(s, c) + if s' != s && t.c == c then {t.p} else {});
    } else if t.OpenRelaunch? && PressAt(s, t.p).c == c {
      SubsetSize(Waiting(s', c), Waiting(s, c) - {t.p});
    } else {
      SubsetSize(Waiting(s', c), Waiting(s, c));
    }
  }

  lemma PaymentKept(s: State, t: Step)
    requires Inv(s) && PressesPayForGenerations(s) && Enabled(s, t)
    ensures PressesPayForGenerations(Apply(s, t))
  {
    var s' := Apply(s, t);
    forall c | c in s'.camps ensures s'.camps[c].gen + |Waiting(s', c)| <= s'.camps[c].seq_ {
      Paid(s, t, c, s');
    }
  }

  lemma PaidStep(tr: seq<State>, i: nat, s: State, s': State)
    requires Run(tr) && i + 1 < |tr| && s == tr[i] && s' == tr[i + 1] && PressesPayForGenerations(s)
    ensures PressesPayForGenerations(s')
  {
    RunInv(tr, i);
    assert StepAt(tr, i);
    var t :| Enabled(s, t) && s' == Apply(s, t);
    PaymentKept(s, t);
  }

  /** Opened generations never outnumber the Re-launch presses that were carried out. */
  lemma {:induction false} GenerationsArePressed(tr: seq<State>, i: nat)
    requires Run(tr) && i < |tr|
    ensures PressesPayForGenerations(tr[i])
  {
    if i > 0 {
      GenerationsArePressed(tr, i - 1);
      PaidStep(tr, i - 1, tr[i - 1], tr[i]);
    }
  }

  // How many mails one contact of one campaign can get

  function For(ids: seq<PackId>, c: nat, contact: nat): (r: seq<SendKey>)
    ensures |r| <= |ids|
  {
    if ids == [] then []
    else
      var rest, last := For(ids[..|ids| - 1], c, contact), ids[|ids| - 1];
      if last.ContactPack? && last.slot.campaign == c && last.slot.contact == contact then rest + [last.slot.key] else rest
  }

  lemma {:induction false} ForKeys(ids: seq<PackId>, c: nat, contact: nat)
    ensures forall k <- For(ids, c, contact) :: exists id :: id in ids && id.ContactPack? && id.slot == Slot(c, k, contact)
  {
    if ids != [] {
      var rest := ids[..|ids| - 1];
      ForKeys(rest, c, contact);
      assert ids == rest + [ids[|ids| - 1]];
      forall k | k in For(ids, c, contact)
        ensures exists id :: id in ids && id.ContactPack? && id.slot == Slot(c, k, contact)
      {
        if k in For(rest, c, contact) {
          var id :| id in rest && id.ContactPack? && id.slot == Slot(c, k, contact);
          assert id in ids;
        } else {
          assert ids[|ids| - 1] in ids;
        }
      }
    }
  }

  predicate OneSlotEach(ids: seq<PackId>) {
    forall m, n :: 0 <= m < n < |ids| && ids[m].ContactPack? && ids[n].ContactPack? ==> ids[m].slot != ids[n].slot
  }

  lemma {:induction false} ForDistinct(ids: seq<PackId>, c: nat, contact: nat)
    requires OneSlotEach(ids)
    ensures CM.Distinct(For(ids, c, contact))
  {
    if ids != [] {
      var rest, last := ids[..|ids| - 1], ids[|ids| - 1];
      forall m, n | 0 <= m < n < |rest| && rest[m].ContactPack? && rest[n].ContactPack? ensures rest[m].slot != rest[n].slot {
        assert ids[m].slot != ids[n].slot;
      }
      ForDistinct(rest, c, contact);
      ForKeys(rest, c, contact);
      if last.ContactPack? && last.slot.campaign == c && last.slot.contact == contact {
        forall id | id in rest && id.ContactPack? ensures id.slot != last.slot {
          var m :| 0 <= m < |rest| && rest[m] == id;
          assert ids[m].slot != ids[|ids| - 1].slot;
        }
      }
    }
  }

  function KeysUpTo(gen: nat): (s: set<SendKey>)
    ensures |s| == gen && forall k :: k in s <==> k.Relaunch? && 1 <= k.gen <= gen
  {
    if gen == 0 then {} else KeysUpTo(gen - 1) + {Relaunch(gen)}
  }

  lemma {:induction false} StageKeys(stages: set<nat>) returns (s: set<SendKey>)
    ensures |s| == |stages| && forall k :: k in s <==> k.Stage? && k.stage in stages
    decreases |stages|
  {
    if stages == {} {
      s := {};
    } else {
      var x :| x in stages;
      var rest := StageKeys(stages - {x});
      assert Stage(x) !in rest;
      s := rest + {Stage(x)};
    }
  }

  lemma {:induction false} DistinctFits<T>(s: seq<T>, all: set<T>)
    requires CM.Distinct(s) && forall x <- s :: x in all
    ensures |s| <= |all|
  {
    if s != [] {
      var n := |s| - 1;
      forall x | x in s[..n] ensures x in all - {s[n]} {}
      DistinctFits(s[..n], all - {s[n]});
    }
  }

  /** Over any run a contact gets at most one mail for the launch, one per Re-launch opened and one per stage ever created. */
  lemma MailsPerContact(tr: seq<State>, i: nat, c: nat, contact: nat)
    requires Run(tr) && i < |tr| && c in tr[i].camps
    ensures |For(tr[i].cloud.accepted, c, contact)| <= 1 + tr[i].camps[c].gen + |tr[i].camps[c].stages|
    ensures tr[i].camps[c].gen <= tr[i].camps[c].seq_
  {
    RunInv(tr, i);
    GenerationsArePressed(tr, i);
    var s := tr[i];
    var ids := s.cloud.accepted;
    forall m, n | 0 <= m < n < |ids| && ids[m].ContactPack? && ids[n].ContactPack? ensures ids[m].slot != ids[n].slot {
      AtMostOnce(tr, i, m, n);
    }
    ForDistinct(ids, c, contact);
    ForKeys(ids, c, contact);
    var relaunches := KeysUpTo(s.camps[c].gen);
    var stages := StageKeys(s.camps[c].stages);
    var all := {Main} + relaunches + stages;
    forall k | k in For(ids, c, contact) ensures k in all {
      var id :| id in ids && id.ContactPack? && id.slot == Slot(c, k, contact);
      assert id in s.cloud.packs && id in s.wire;
      assert KeyKnown(s.camps, c, k);
    }
    DistinctFits(For(ids, c, contact), all);
    assert |all| <= 1 + |relaunches| + |stages|;
  }
}
