/** Pushing packs and recording them: the cloud's intake, the terminal's chunked push, and its bookkeeping. */
module Terminal {
  import opened PackIds
  import opened PackStore
  import opened Desk

  datatype PackIn = PackIn(id: PackId, campaign: nat, sendAt: int)

  /** What the cloud answers for one request; `held` lists packs it already had, with their status. */
  datatype Ack = Ack(accepted: nat, submitted: nat, enqueued: nat, deferred: nat, held: seq<(PackId, PackStatus)>)

  const NO_ACK: Ack := Ack(0, 0, 0, 0, [])

  function Plus(a: Ack, b: Ack): Ack {
    Ack(a.accepted + b.accepted, a.submitted + b.submitted, a.enqueued + b.enqueued, a.deferred + b.deferred, a.held + b.held)
  }

  function IdsOf(packs: seq<PackIn>): (ids: seq<PackId>)
    ensures |ids| == |packs| && forall i :: 0 <= i < |ids| ==> ids[i] == packs[i].id
  {
    seq(|packs|, i requires 0 <= i < |packs| => packs[i].id)
  }

  function IdSet(packs: seq<PackIn>): set<PackId> { set p | p in packs :: p.id }

  /** The intake of one request, pack by pack. */
  function Intake(m: Packs, packs: seq<PackIn>, now: int): (Packs, Ack) {
    if packs == [] then (m, NO_ACK)
    else
      var (m1, a) := Intake(m, packs[..|packs| - 1], now);
      var p := packs[|packs| - 1];
      var a1 := a.(submitted := a.submitted + 1);
      if p.id in m1 then (m1, a1.(held := a1.held + [(p.id, m1[p.id].status)]))
      else (Put(m1, p.id, p.campaign, p.sendAt, now),
            if p.sendAt <= now then a1.(accepted := a1.accepted + 1, enqueued := a1.enqueued + 1)
            else a1.(accepted := a1.accepted + 1, deferred := a1.deferred + 1))
  }

  /** Every submitted pack ends up stored, new ones pending, and nothing already stored is rewritten. */
  lemma {:induction false} IntakeRows(m: Packs, packs: seq<PackIn>, now: int)
    ensures var m' := Intake(m, packs, now).0;
            && m'.Keys == m.Keys + IdSet(packs)
            && (forall id <- m :: m'[id] == m[id])
            && (forall id <- m' :: id !in m ==> m'[id].status == Pending)
  {
    if packs != [] {
      var rest, p := packs[..|packs| - 1], packs[|packs| - 1];
      IntakeRows(m, rest, now);
      assert packs == rest + [p];
      assert IdSet(packs) == IdSet(rest) + {p.id};
    } else {
      assert IdSet(packs) == {};
    }
  }

  /** A pack new to the table is stored pending with the campaign and the send time it was submitted with. */
  predicate StoredAsSent(m: Packs, m': Packs, packs: seq<PackIn>, now: int) {
    forall id <- m' :: id !in m ==>
      exists p <- packs :: p.id == id && m'[id] == Pack(p.campaign, Pending, p.sendAt, now, None, None, true)
  }

  lemma {:induction false} IntakeStores(m: Packs, packs: seq<PackIn>, now: int)
    ensures StoredAsSent(m, Intake(m, packs, now).0, packs, now)
  {
    if packs != [] {
      var rest, p := packs[..|packs| - 1], packs[|packs| - 1];
      IntakeStores(m, rest, now);
      assert packs == rest + [p] && p in packs;
      var m1, m' := Intake(m, rest, now).0, Intake(m, packs, now).0;
      forall id | id in m' && id !in m
        ensures exists q <- packs :: q.id == id && m'[id] == Pack(q.campaign, Pending, q.sendAt, now, None, None, true)
      {
        if id in m1 {
          var q :| q in rest && q.id == id && m1[id] == Pack(q.campaign, Pending, q.sendAt, now, None, None, true);
          assert q in packs;
        }
      }
    }
  }

  /** The packs of m' that are new since m and due now. */
  function DueNew(m: Packs, m': Packs, now: int): set<PackId> { set id | id in m' && id !in m && m'[id].sendAt <= now }

  /** The new packs that are due are enqueued, and no other. */
  lemma {:induction false} IntakeEnqueues(m: Packs, packs: seq<PackIn>, now: int)
    ensures var (m', a) := Intake(m, packs, now); a.enqueued == |DueNew(m, m', now)|
  {
    if packs == [] {
      assert DueNew(m, m, now) == {};
    } else {
      var rest, p := packs[..|packs| - 1], packs[|packs| - 1];
      IntakeEnqueues(m, rest, now);
      IntakeRows(m, rest, now);
      var m1, m' := Intake(m, rest, now).0, Intake(m, packs, now).0;
      if p.id !in m1 {
        DueNewOne(m, m1, p.id, m'[p.id], now);
      }
    }
  }

  lemma DueNewOne(m: Packs, m1: Packs, id: PackId, row: Pack, now: int)
    requires m.Keys <= m1.Keys && id !in m1
    ensures |DueNew(m, m1[id := row], now)| == |DueNew(m, m1, now)| + if row.sendAt <= now then 1 else 0
  {
    assert DueNew(m, m1[id := row], now) == DueNew(m, m1, now) + if row.sendAt <= now then {id} else {};
  }

  /** Each submitted pack is counted once: newly stored (and then enqueued or deferred) or held. */
  lemma {:induction false} IntakeCounts(m: Packs, packs: seq<PackIn>, now: int)
    ensures var (m', a) := Intake(m, packs, now);
            && a.submitted == |packs|
            && a.accepted + |a.held| == a.submitted
            && a.enqueued + a.deferred == a.accepted
            && |m'| == |m| + a.accepted
  {
    if packs != [] {
      IntakeCounts(m, packs[..|packs| - 1], now);
    }
  }

  /** A held pack is reported with the status the table has for it. */
  lemma {:induction false} IntakeHeld(m: Packs, packs: seq<PackIn>, now: int)
    ensures forall h <- Intake(m, packs, now).1.held ::
              h.0 in IdSet(packs) && h.0 in Intake(m, packs, now).0 && h.1 == Intake(m, packs, now).0[h.0].status
  {
    if packs != [] {
      var rest, p := packs[..|packs| - 1], packs[|packs| - 1];
      IntakeHeld(m, rest, now);
      IntakeRows(m, rest, now);
      assert packs == rest + [p];
      assert IdSet(packs) == IdSet(rest) + {p.id};
    }
  }

  method PacksPush(table: PackTable, packs: seq<PackIn>, now: int) returns (ack: Ack)
    modifies table
    ensures (table.packs, ack) == Intake(old(table.packs), packs, now)
  {
    var inserted, enqueued, deferred := 0, 0, 0;
    var held: seq<(PackId, PackStatus)> := [];
    for i := 0 to |packs|
      invariant (table.packs, Ack(inserted, i, enqueued, deferred, held)) == Intake(old(table.packs), packs[..i], now)
    {
      assert packs[..i + 1][..i] == packs[..i];
      var p := packs[i];
      var stored := table.PutPack(p.id, p.campaign, p.sendAt, now);
      if stored {
        if p.sendAt <= now {
          enqueued := enqueued + 1;
        } else {
          deferred := deferred + 1;
        }
        inserted := inserted + 1;
      } else {
        held := held + [(p.id, table.packs[p.id].status)];
      }
    }
    assert packs[..|packs|] == packs;
    ack := Ack(inserted, |packs|, enqueued, deferred, held);
  }

  // The chunked push

  /** What becomes of one chunk's request: answered, or lost after the cloud stored its first `landed` packs. */
  datatype Fate = Answered | Lost(landed: nat)

  datatype PushOutcome = Complete(ack: Ack) | Interrupted(pushed: nat, held: seq<(PackId, PackStatus)>) | Refused

  function Min(a: nat, b: nat): nat { if a <= b then a else b }

  function PushFrom(m: Packs, packs: seq<PackIn>, i: nat, agg: Ack, chunk: nat, fate: nat -> Fate, now: int): (Packs, PushOutcome)
    requires i <= |packs| && chunk > 0
    decreases |packs| - i
  {
    if i == |packs| then (m, Complete(agg))
    else
      var upto := Min(i + chunk, |packs|);
      match fate(i)
      case Lost(landed) =>
        (Intake(m, packs[i..Min(i + landed, upto)], now).0,
         if i > 0 then Interrupted(i, agg.held) else Refused)
      case Answered =>
        var (m1, a) := Intake(m, packs[i..upto], now);
        PushFrom(m1, packs, upto, Plus(agg, a), chunk, fate, now)
  }

  /** How many packs, from the i-th on, the cloud stored before the push ended. */
  function LandedFrom(n: nat, i: nat, chunk: nat, fate: nat -> Fate): (landed: nat)
    requires i <= n && chunk > 0
    ensures i <= landed <= n
    decreases n - i
  {
    if i == n then n
    else match fate(i)
      case Lost(l) => Min(i + l, Min(i + chunk, n))
      case Answered => LandedFrom(n, Min(i + chunk, n), chunk, fate)
  }

  /** However a push ends, exactly a prefix of it is stored, and no row stored before is touched. */
  lemma {:induction false} PushLands(m: Packs, packs: seq<PackIn>, i: nat, agg: Ack, chunk: nat, fate: nat -> Fate, now: int)
    requires i <= |packs| && chunk > 0
    ensures var m' := PushFrom(m, packs, i, agg, chunk, fate, now).0;
            && m'.Keys == m.Keys + IdSet(packs[i..LandedFrom(|packs|, i, chunk, fate)])
            && (forall id <- m :: m'[id] == m[id])
    decreases |packs| - i
  {
    if i == |packs| {
      assert IdSet(packs[i..i]) == {};
    } else {
      var upto := Min(i + chunk, |packs|);
      match fate(i)
      case Lost(l) => IntakeRows(m, packs[i..Min(i + l, upto)], now);
      case Answered =>
        var (m1, a) := Intake(m, packs[i..upto], now);
        IntakeRows(m, packs[i..upto], now);
        PushLands(m1, packs, upto, Plus(agg, a), chunk, fate, now);
        KeysJoin(m, m1, PushFrom(m1, packs, upto, Plus(agg, a), chunk, fate, now).0, packs, i, upto, LandedFrom(|packs|, upto, chunk, fate));
    }
  }

  lemma KeysJoin(m: Packs, m1: Packs, m': Packs, packs: seq<PackIn>, i: nat, j: nat, k: nat)
    requires i <= j <= k <= |packs|
    requires m1.Keys == m.Keys + IdSet(packs[i..j]) && m'.Keys == m1.Keys + IdSet(packs[j..k])
    ensures m'.Keys == m.Keys + IdSet(packs[i..k])
  {
    IdSetJoin(packs, i, j, k);
  }

  /** However a push ends, what it stored is stored as it was sent. */
  lemma {:induction false} PushStores(m: Packs, packs: seq<PackIn>, i: nat, agg: Ack, chunk: nat, fate: nat -> Fate, now: int)
    requires i <= |packs| && chunk > 0
    ensures StoredAsSent(m, PushFrom(m, packs, i, agg, chunk, fate, now).0, packs, now)
    decreases |packs| - i
  {
    if i < |packs| {
      var upto := Min(i + chunk, |packs|);
      match fate(i)
      case Lost(l) =>
        IntakeStores(m, packs[i..Min(i + l, upto)], now);
        assert forall p <- packs[i..Min(i + l, upto)] :: p in packs;
      case Answered =>
        var (m1, a) := Intake(m, packs[i..upto], now);
        IntakeStores(m, packs[i..upto], now);
        IntakeRows(m, packs[i..upto], now);
        PushStores(m1, packs, upto, Plus(agg, a), chunk, fate, now);
        PushLands(m1, packs, upto, Plus(agg, a), chunk, fate, now);
        StoredOn(m, m1, PushFrom(m1, packs, upto, Plus(agg, a), chunk, fate, now).0, packs, packs[i..upto], now);
    }
  }

  lemma StoredOn(m: Packs, m1: Packs, m': Packs, packs: seq<PackIn>, part: seq<PackIn>, now: int)
    requires StoredAsSent(m, m1, part, now) && StoredAsSent(m1, m', packs, now) && forall p <- part :: p in packs
    requires forall id <- m1 :: id in m' && m'[id] == m1[id]
    ensures StoredAsSent(m, m', packs, now)
  {
    forall id | id in m' && id !in m
      ensures exists p <- packs :: p.id == id && m'[id] == Pack(p.campaign, Pending, p.sendAt, now, None, None, true)
    {
      if id in m1 {
        var p :| p in part && p.id == id && m1[id] == Pack(p.campaign, Pending, p.sendAt, now, None, None, true);
        assert p in packs;
      }
    }
  }

  /** An answered push reports as enqueued the packs it stored that are due now. */
  lemma {:induction false} PushEnqueues(m: Packs, packs: seq<PackIn>, i: nat, agg: Ack, chunk: nat, fate: nat -> Fate, now: int)
    requires i <= |packs| && chunk > 0
    ensures var (m', outcome) := PushFrom(m, packs, i, agg, chunk, fate, now);
      outcome.Complete? ==> outcome.ack.enqueued == agg.enqueued + |DueNew(m, m', now)|
    decreases |packs| - i
  {
    if i == |packs| {
      assert DueNew(m, m, now) == {};
    } else if fate(i).Answered? {
      var upto := Min(i + chunk, |packs|);
      var (m1, a) := Intake(m, packs[i..upto], now);
      IntakeEnqueues(m, packs[i..upto], now);
      IntakeRows(m, packs[i..upto], now);
      PushEnqueues(m1, packs, upto, Plus(agg, a), chunk, fate, now);
      PushLands(m1, packs, upto, Plus(agg, a), chunk, fate, now);
      DueNewJoin(m, m1, PushFrom(m1, packs, upto, Plus(agg, a), chunk, fate, now).0, now);
    }
  }

  lemma DueNewJoin(m: Packs, m1: Packs, m': Packs, now: int)
    requires m.Keys <= m1.Keys && m1.Keys <= m'.Keys && forall id <- m1 :: m'[id] == m1[id]
    ensures |DueNew(m, m', now)| == |DueNew(m, m1, now)| + |DueNew(m1, m', now)|
  {
    assert DueNew(m, m', now) == DueNew(m, m1, now) + DueNew(m1, m', now);
    assert DueNew(m, m1, now) !! DueNew(m1, m', now);
  }

  predicate HeldWithin(held: seq<(PackId, PackStatus)>, packs: seq<PackIn>) { forall h <- held :: h.0 in IdSet(packs) }

  /** What the terminal was told is a part of what landed; the totals add up over the chunks. */
  lemma {:induction false} PushReports(m: Packs, packs: seq<PackIn>, i: nat, agg: Ack, chunk: nat, fate: nat -> Fate, now: int)
    requires i <= |packs| && chunk > 0 && HeldWithin(agg.held, packs[..i])
    ensures match PushFrom(m, packs, i, agg, chunk, fate, now).1
            case Complete(ack) =>
              && LandedFrom(|packs|, i, chunk, fate) == |packs|
              && ack.submitted == agg.submitted + |packs| - i
              && ack.accepted + |ack.held| == agg.accepted + |agg.held| + |packs| - i
              && HeldWithin(ack.held, packs)
            case Interrupted(pushed, held) =>
              i <= pushed <= LandedFrom(|packs|, i, chunk, fate) && 0 < pushed && HeldWithin(held, packs[..pushed])
            case Refused => i == 0
    decreases |packs| - i
  {
    if i == |packs| {
      assert packs[..i] == packs;
    } else if fate(i).Answered? {
      var upto := Min(i + chunk, |packs|);
      var part := packs[i..upto];
      var (m1, a) := Intake(m, part, now);
      IntakeCounts(m, part, now);
      IntakeHeld(m, part, now);
      assert packs[0..i] == packs[..i] && packs[0..upto] == packs[..upto];
      IdSetJoin(packs, 0, i, upto);
      var agg1 := Plus(agg, a);
      assert HeldWithin(agg1.held, packs[..upto]);
      PushReports(m1, packs, upto, agg1, chunk, fate, now);
    }
  }

  lemma IdSetJoin(packs: seq<PackIn>, i: nat, j: nat, k: nat)
    requires i <= j <= k <= |packs|
    ensures IdSet(packs[i..k]) == IdSet(packs[i..j]) + IdSet(packs[j..k])
  {
  }

  /** `fate(i)` is the fate of the request whose chunk starts at pack i. */
  method PushPacks(table: PackTable, packs: seq<PackIn>, chunk: nat, fate: nat -> Fate, now: int) returns (r: PushOutcome)
    requires chunk > 0
    modifies table
    ensures (table.packs, r) == PushFrom(old(table.packs), packs, 0, NO_ACK, chunk, fate, now)
  {
    var agg := NO_ACK;
    if packs == [] {
      return Complete(agg);
    }
    var i := 0;
    while i < |packs|
      invariant i <= |packs|
      invariant PushFrom(table.packs, packs, i, agg, chunk, fate, now) == PushFrom(old(table.packs), packs, 0, NO_ACK, chunk, fate, now)
    {
      var upto := Min(i + chunk, |packs|);
      match fate(i) {
        case Lost(landed) =>
          var _ := PacksPush(table, packs[i..Min(i + landed, upto)], now);
          if i > 0 {
            return Interrupted(i, agg.held);
          }
          return Refused;
        case Answered =>
          var a := PacksPush(table, packs[i..upto], now);
          agg := Plus(agg, a);
          i := upto;
      }
    }
    return Complete(agg);
  }

  // Push, then record

  datatype PressResult = Done(ack: Ack) | Failure

  /** What is recorded for a push outcome; `commits` says whether the database accepts the transaction. */
  function Booked(d: Rows, campaign: nat, ids: seq<PackId>, outcome: PushOutcome, commits: bool): (Rows, PressResult) {
    match outcome
    case Refused => (d, Failure)
    case Interrupted(pushed, held) =>
      (match RecordAll(d, campaign, ids[..Min(pushed, |ids|)])
       case Some(d1) => (if commits then ApplyHeld(d1, held) else d, Failure)
       case None => (d, Failure))
    case Complete(ack) =>
      (match RecordAll(d, campaign, ids)
       case Some(d1) => if commits then (ApplyHeld(d1, ack.held), Done(ack.(held := []))) else (d, Failure)
       case None => (d, Failure))
  }

  function PressEffect(d: Rows, m: Packs, campaign: nat, packs: seq<PackIn>, chunk: nat, fate: nat -> Fate,
                       commits: bool, now: int): (Rows, Packs, PressResult)
    requires chunk > 0
  {
    var (m', outcome) := PushFrom(m, packs, 0, NO_ACK, chunk, fate, now);
    var (d', r) := Booked(d, campaign, IdsOf(packs), outcome, commits);
    (d', m', r)
  }

  /** All statuses reported for the pack are this one, and one is. */
  predicate HeldAs(held: seq<(PackId, PackStatus)>, id: PackId, status: PackStatus) {
    (id, status) in held && forall h <- held :: h.0 == id ==> h.1 == status
  }

  lemma {:induction false} HeldDecides(d: Rows, held: seq<(PackId, PackStatus)>, id: PackId, status: PackStatus)
    requires id.ContactPack? && id in d.jobs && HeldAs(held, id, status) && status in {Sent, Failed, StuckNoKey, Cancelled}
    ensures id in ApplyHeld(d, held).jobs && ApplyHeld(d, held).jobs[id] == if status == Sent then Completed else JobFailed
  {
    var rest, last := held[..|held| - 1], held[|held| - 1];
    assert held == rest + [last];
    ApplyHeldKeeps(d, rest);
    OutcomeExactly(ApplyHeld(d, rest), last.0, last.1);
    if last.0 != id {
      assert (id, status) in rest;
      HeldDecides(d, rest, id, status);
    } else {
      assert last in held;
    }
  }

  /** What the push vouches for can be recorded, and gives d1; held is what the cloud told of packs it had already. */
  predicate Vouched(d: Rows, d1: Rows, campaign: nat, ids: seq<PackId>, outcome: PushOutcome, held: seq<(PackId, PackStatus)>) {
    match outcome
    case Refused => true
    case Interrupted(pushed, told) => told == held && RecordAll(d, campaign, ids[..Min(pushed, |ids|)]) == Some(d1)
    case Complete(ack) => ack.held == held && RecordAll(d, campaign, ids) == Some(d1)
  }

  /**
   A press that recorded anything has also applied what the cloud told of the packs it already held, whether or not its
   push got through; and it reports success only when the whole push was answered and recorded.
   */
  lemma BookedTells(d: Rows, d1: Rows, campaign: nat, ids: seq<PackId>, outcome: PushOutcome, held: seq<(PackId, PackStatus)>,
                    id: PackId, status: PackStatus)
    requires Vouched(d, d1, campaign, ids, outcome, held)
    requires id.ContactPack? && id in d1.jobs && HeldAs(held, id, status) && status in {Sent, Failed, StuckNoKey, Cancelled}
    ensures var (d', r) := Booked(d, campaign, ids, outcome, true);
      && (r.Done? <==> outcome.Complete?) && (r.Done? ==> r.ack == outcome.ack.(held := []))
      && (if outcome.Refused? then d' == d
          else id in d'.jobs && d'.jobs[id] == if status == Sent then Completed else JobFailed)
  {
    HeldDecides(d1, held, id, status);
  }

  class Desktop {
    var jobs: Jobs
    var recips: Recips
    var pushing: map<nat, nat>   // pushes under way, per campaign; no entry is zero

    constructor ()
      ensures Now() == Rows(map[], map[]) && pushing == map[]
    {
      jobs, recips, pushing := map[], map[], map[];
    }

    function Now(): Rows reads this { Rows(jobs, recips) }

    /** A push of the campaign is under way, for whoever asks. */
    predicate UnderWay(campaign: nat) reads this { campaign in pushing && pushing[campaign] > 0 }

    predicate CountersPositive() reads this { forall c <- pushing :: pushing[c] > 0 }

    /** One transaction: an id recorded already aborts it and leaves every row as it was. */
    method RecordDispatch(campaign: nat, ids: seq<PackId>, commits: bool) returns (ok: bool)
      modifies this`jobs, this`recips
      ensures ok == (commits && RecordAll(old(Now()), campaign, ids).Some?)
      ensures Now() == if ok then RecordAll(old(Now()), campaign, ids).value else old(Now())
    {
      var was := Now();
      for i := 0 to |ids|
        invariant RecordAll(old(Now()), campaign, ids[..i]) == Some(Now())
      {
        assert ids[..i + 1][..i] == ids[..i];
        var id := ids[i];
        if id.SeedPack? {
          continue;
        }
        if id in jobs {
          RecordAllStuck(old(Now()), campaign, ids, i + 1);
          jobs, recips := was.jobs, was.recips;
          return false;
        }
        jobs := jobs[id := Dispatched];
        if (campaign, id.slot.contact) in recips {
          recips := recips[(campaign, id.slot.contact) := MarkedSent];
        }
      }
      assert ids[..|ids|] == ids;
      if !commits {
        jobs, recips := was.jobs, was.recips;
      }
      ok := commits;
    }

    method ApplyPackOutcome(id: PackId, status: PackStatus)
      requires Resolved(status)
      modifies this`jobs, this`recips
      ensures Now() == ApplyOutcome(old(Now()), id, status)
      ensures OutcomeTells(old(Now()), Now(), id, status)
    {
      if status == Unknown || id !in jobs || id.SeedPack? {
        return;   // an unknown outcome only notes its reason; job and recipient keep their statuses
      }
      var who := (id.slot.campaign, id.slot.contact);
      jobs := jobs[id := if status == Sent then Completed else JobFailed];
      if who in recips && !Engaged(recips[who]) {
        recips := recips[who := if status == Sent then MarkedSent else MarkedFailed];
      }
    }

    method ApplyHeldOutcomes(held: seq<(PackId, PackStatus)>)
      modifies this`jobs, this`recips
      ensures Now() == ApplyHeld(old(Now()), held)
    {
      for i := 0 to |held|
        invariant Now() == ApplyHeld(old(Now()), held[..i])
      {
        assert held[..i + 1][..i] == held[..i];
        if Resolved(held[i].1) {
          ApplyPackOutcome(held[i].0, held[i].1);
        }
      }
      assert held[..|held|] == held;
    }

    method RetryFailedRecipients(campaign: nat) returns (reset: nat)
      modifies this`recips
      ensures recips == RetryFailed(old(recips), campaign)
      ensures recips.Keys == old(recips).Keys
      ensures forall who <- recips ::
        recips[who] == if who.0 == campaign && old(recips)[who] == MarkedFailed then Queued else old(recips)[who]
      ensures reset == |set who | who in old(recips) && who.0 == campaign && old(recips)[who] == MarkedFailed|
    {
      var hit := set who | who in recips && who.0 == campaign && recips[who] == MarkedFailed;
      recips := map who | who in recips :: if who in hit then Queued else recips[who];
      reset := |hit|;
    }

    /** Records what the push outcome vouches for, then applies the outcomes of packs the cloud already held. */
    method Bookkeep(campaign: nat, ids: seq<PackId>, outcome: PushOutcome, commits: bool) returns (r: PressResult)
      requires UnderWay(campaign)
      modifies this`jobs, this`recips
      ensures (Now(), r) == Booked(old(Now()), campaign, ids, outcome, commits)
    {
      match outcome {
        case Refused =>
          r := Failure;
        case Interrupted(pushed, held) =>
          var ok := RecordDispatch(campaign, ids[..Min(pushed, |ids|)], commits);
          if ok {
            ApplyHeldOutcomes(held);
          }
          r := Failure;
        case Complete(ack) =>
          var ok := RecordDispatch(campaign, ids, commits);
          if ok {
            ApplyHeldOutcomes(ack.held);
            r := Done(ack.(held := []));
          } else {
            r := Failure;
          }
      }
    }

    /** The chunked push, only while the counter says so. */
    method Push(table: PackTable, campaign: nat, packs: seq<PackIn>, chunk: nat, fate: nat -> Fate, now: int) returns (r: PushOutcome)
      requires chunk > 0 && UnderWay(campaign)
      modifies table
      ensures (table.packs, r) == PushFrom(old(table.packs), packs, 0, NO_ACK, chunk, fate, now)
    {
      r := PushPacks(table, packs, chunk, fate, now);
    }

    /** The push counter is raised for the duration and restored on every path, success or failure. */
    method PushAndRecord(table: PackTable, campaign: nat, packs: seq<PackIn>, chunk: nat, fate: nat -> Fate,
                         commits: bool, now: int) returns (r: PressResult)
      requires chunk > 0 && CountersPositive()
      modifies this, table
      ensures (Now(), table.packs, r) == PressEffect(old(Now()), old(table.packs), campaign, packs, chunk, fate, commits, now)
      ensures pushing == old(pushing)
    {
      pushing := pushing[campaign := (if campaign in pushing then pushing[campaign] else 0) + 1];
      var outcome := Push(table, campaign, packs, chunk, fate, now);
      r := Bookkeep(campaign, IdsOf(packs), outcome, commits);
      pushing := pushing[campaign := pushing[campaign] - 1];
      if pushing[campaign] == 0 {
        pushing := pushing - {campaign};
      }
    }
  }

  /** A transaction that failed part-way fails as a whole. */
  lemma {:induction false} RecordAllStuck(d: Rows, campaign: nat, ids: seq<PackId>, i: nat)
    requires i <= |ids| && RecordAll(d, campaign, ids[..i]).None?
    ensures RecordAll(d, campaign, ids).None?
    decreases |ids|
  {
    if i < |ids| {
      assert ids[..|ids| - 1][..i] == ids[..i];
      RecordAllStuck(d, campaign, ids[..|ids| - 1], i);
    } else {
      assert ids[..i] == ids;
    }
  }
}
