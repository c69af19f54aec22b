/** The terminal's rows about sends: dispatched jobs and campaign recipients, and what each action does to them. */
module Desk {
  import opened PackIds
  import opened PackStore

  datatype JobStatus = Dispatched | Completed | JobFailed | JobCancelled

  datatype RecipStatus = Queued | MarkedSent | Delivered | Opened | Clicked | Bounced | Complained
                       | MarkedFailed | MarkedCancelled

  type Jobs = map<PackId, JobStatus>
  type Recips = map<(nat, nat), RecipStatus>   // (campaign, contact)

  datatype Rows = Rows(jobs: Jobs, recips: Recips)

  predicate Retryable(j: JobStatus) { j in {JobFailed, JobCancelled} }

  /** Statuses an outcome never overwrites. */
  predicate Engaged(r: RecipStatus) { r in {Delivered, Opened, Clicked, Bounced, Complained} }

  /** A recipient row as a press read it, which may be some time before the press plans. */
  datatype Candidate = Candidate(contact: nat, status: RecipStatus, hash: nat)

  // Ordinals

  function IdOf(slot: Slot, ordinal: nat): PackId { ContactPack(slot, ordinal) }

  function FirstIds(slot: Slot, n: nat): (s: set<PackId>)
    ensures forall id :: id in s <==> id.ContactPack? && id.slot == slot && id.ordinal < n
    ensures |s| == n
  {
    if n == 0 then {} else
      var s := FirstIds(slot, n - 1);
      assert IdOf(slot, n - 1) !in s;
      s + {IdOf(slot, n - 1)}
  }

  lemma SubsetSize<T>(a: set<T>, b: set<T>)
    requires a <= b
    ensures |a| <= |b|
  {
    assert b == a + (b - a);
  }

  /** Pigeonhole: n distinct recorded ids need n recorded jobs. */
  lemma OrdinalsFit<V>(jobs: map<PackId, V>, slot: Slot, n: nat)
    requires forall i: nat :: i < n ==> IdOf(slot, i) in jobs
    ensures n <= |jobs|
  {
    var s := FirstIds(slot, n);
    forall id | id in s ensures id in jobs.Keys {
      assert id == IdOf(slot, id.ordinal);
    }
    SubsetSize(s, jobs.Keys);
  }

  function Probe(jobs: Jobs, slot: Slot, a: nat): (r: nat)
    requires forall i: nat :: i < a ==> IdOf(slot, i) in jobs
    ensures IdOf(slot, r) !in jobs && forall i: nat :: i < r ==> IdOf(slot, i) in jobs
    decreases |jobs| - a
  {
    if IdOf(slot, a) in jobs then
      OrdinalsFit(jobs, slot, a + 1);
      Probe(jobs, slot, a + 1)
    else a
  }

  /** The least ordinal of the slot that no job records. */
  function NextOrdinal(jobs: Jobs, slot: Slot): (r: nat)
    ensures IdOf(slot, r) !in jobs && forall i: nat :: i < r ==> IdOf(slot, i) in jobs
  {
    Probe(jobs, slot, 0)
  }

  lemma NextOrdinalIs(jobs: Jobs, slot: Slot, r: nat)
    requires IdOf(slot, r) !in jobs && forall i: nat :: i < r ==> IdOf(slot, i) in jobs
    ensures NextOrdinal(jobs, slot) == r
  {
  }

  // Planning

  datatype Verdict = Send(id: PackId) | AlreadyRecorded | Suppressed(reason: string)

  /** A second pack of a slot is due only to a queued recipient whose last recorded pack failed or was cancelled. */
  predicate MayResend(jobs: Jobs, slot: Slot, status: RecipStatus) {
    var a := NextOrdinal(jobs, slot);
    a == 0 || (status == Queued && Retryable(jobs[IdOf(slot, a - 1)]))
  }

  function Judge(jobs: Jobs, blocked: map<nat, string>, campaign: nat, key: SendKey, r: Candidate): Verdict {
    var slot := Slot(campaign, key, r.contact);
    if r.hash in blocked then Suppressed(blocked[r.hash])
    else if MayResend(jobs, slot, r.status) then Send(IdOf(slot, NextOrdinal(jobs, slot)))
    else AlreadyRecorded
  }

  datatype Plan = Plan(sends: seq<(Candidate, PackId)>, recorded: nat, suppressed: seq<(nat, string)>)

  function PlanOf(jobs: Jobs, blocked: map<nat, string>, campaign: nat, key: SendKey, cands: seq<Candidate>): Plan {
    if cands == [] then Plan([], 0, [])
    else
      var p := PlanOf(jobs, blocked, campaign, key, cands[..|cands| - 1]);
      var r := cands[|cands| - 1];
      match Judge(jobs, blocked, campaign, key, r)
      case Send(id) => p.(sends := p.sends + [(r, id)])
      case AlreadyRecorded => p.(recorded := p.recorded + 1)
      case Suppressed(reason) => p.(suppressed := p.suppressed + [(r.contact, reason)])
  }

  function JobsOf(jobs: Jobs, campaign: nat): Jobs {
    map id | id in jobs && id.ContactPack? && id.slot.campaign == campaign :: jobs[id]
  }

  function Ids(sends: seq<(Candidate, PackId)>): (ids: seq<PackId>)
    ensures |ids| == |sends| && forall i :: 0 <= i < |ids| ==> ids[i] == sends[i].1
  {
    if sends == [] then [] else Ids(sends[..|sends| - 1]) + [sends[|sends| - 1].1]
  }

  /** Every candidate lands in exactly one of the three piles, and the sends keep candidate order. */
  lemma {:induction false} PlanPartitions(jobs: Jobs, blocked: map<nat, string>, campaign: nat, key: SendKey, cands: seq<Candidate>)
    ensures var p := PlanOf(jobs, blocked, campaign, key, cands);
            && |p.sends| + p.recorded + |p.suppressed| == |cands|
            && (forall e <- p.sends :: e.0 in cands && Judge(jobs, blocked, campaign, key, e.0) == Send(e.1))
            && (forall r <- cands :: Judge(jobs, blocked, campaign, key, r).Send? ==>
                  (r, Judge(jobs, blocked, campaign, key, r).id) in p.sends)
  {
    if cands != [] {
      var rest := cands[..|cands| - 1];
      PlanPartitions(jobs, blocked, campaign, key, rest);
      assert cands == rest + [cands[|cands| - 1]];
    }
  }

  /** With distinct contacts the planned ids are distinct and none is recorded yet. */
  lemma {:induction false} PlanIdsFresh(jobs: Jobs, blocked: map<nat, string>, campaign: nat, key: SendKey, cands: seq<Candidate>)
    requires forall i, j :: 0 <= i < j < |cands| ==> cands[i].contact != cands[j].contact
    ensures var p := PlanOf(jobs, blocked, campaign, key, cands);
            && (forall i, j :: 0 <= i < j < |p.sends| ==> p.sends[i].1 != p.sends[j].1)
            && (forall e <- p.sends :: e.1 !in jobs && e.1.ContactPack? && e.1.slot == Slot(campaign, key, e.0.contact))
  {
    if cands != [] {
      var rest := cands[..|cands| - 1];
      PlanIdsFresh(jobs, blocked, campaign, key, rest);
      PlanPartitions(jobs, blocked, campaign, key, rest);
    }
  }

  /** The a-th pack of the slot is next, and it is due: the first, or one after a failed or cancelled one to a queued recipient. */
  predicate NextDue(jobs: Jobs, slot: Slot, a: nat, status: RecipStatus) {
    && IdOf(slot, a) !in jobs && (forall b: nat :: b < a ==> IdOf(slot, b) in jobs)
    && (a > 0 ==> status == Queued && jobs[IdOf(slot, a - 1)] in {JobFailed, JobCancelled})
  }

  lemma JudgeExactly(jobs: Jobs, blocked: map<nat, string>, campaign: nat, key: SendKey, r: Candidate)
    ensures var v := Judge(jobs, blocked, campaign, key, r);
      && (v.Suppressed? <==> r.hash in blocked) && (v.Suppressed? ==> v.reason == blocked[r.hash])
      && (forall id :: v == Send(id) <==>
            r.hash !in blocked && id.ContactPack? && id.slot == Slot(campaign, key, r.contact) && NextDue(jobs, id.slot, id.ordinal, r.status))
  {
    var slot := Slot(campaign, key, r.contact);
    forall id
      ensures Judge(jobs, blocked, campaign, key, r) == Send(id) <==>
        r.hash !in blocked && id.ContactPack? && id.slot == slot && NextDue(jobs, id.slot, id.ordinal, r.status)
    {
      if id.ContactPack? && id.slot == slot && NextDue(jobs, slot, id.ordinal, r.status) { NextOrdinalIs(jobs, slot, id.ordinal); }
    }
  }

  /**
   Exactly the unblocked candidates with a due pack are sent to, each with that pack; exactly the blocked ones are listed
   as suppressed, with their reason; the rest are counted as recorded.
   */
  lemma {:induction false} PlanExactly(jobs: Jobs, blocked: map<nat, string>, campaign: nat, key: SendKey, cands: seq<Candidate>)
    ensures var p := PlanOf(jobs, blocked, campaign, key, cands);
      && (forall r, id :: (r, id) in p.sends <==>
            r in cands && r.hash !in blocked && id.ContactPack? && id.slot == Slot(campaign, key, r.contact)
            && NextDue(jobs, id.slot, id.ordinal, r.status))
      && (forall e :: e in p.suppressed <==> exists r <- cands :: r.hash in blocked && e == (r.contact, blocked[r.hash]))
      && |p.sends| + p.recorded + |p.suppressed| == |cands|
  {
    if cands != [] {
      var rest, last := cands[..|cands| - 1], cands[|cands| - 1];
      PlanExactly(jobs, blocked, campaign, key, rest);
      JudgeExactly(jobs, blocked, campaign, key, last);
      assert cands == rest + [last];
    }
  }

  // Recording

  function MarkRecip(recips: Recips, who: (nat, nat), status: RecipStatus): Recips {
    if who in recips then recips[who := status] else recips
  }

  function RecordOne(d: Rows, campaign: nat, id: PackId): Rows
    requires id.ContactPack?
  {
    Rows(d.jobs[id := Dispatched], MarkRecip(d.recips, (campaign, id.slot.contact), MarkedSent))
  }

  /** One transaction: None when an inserted job id already exists, and then nothing is written. Seeds leave no row. */
  function RecordAll(d: Rows, campaign: nat, ids: seq<PackId>): Option<Rows> {
    if ids == [] then Some(d)
    else
      match RecordAll(d, campaign, ids[..|ids| - 1])
      case None => None
      case Some(d1) =>
        var id := ids[|ids| - 1];
        if id.SeedPack? then Some(d1)
        else if id in d1.jobs then None
        else Some(RecordOne(d1, campaign, id))
  }

  // Outcomes

  function ApplyOutcome(d: Rows, id: PackId, status: PackStatus): Rows {
    if id !in d.jobs || id.SeedPack? || status == Unknown then d
    else
      var who := (id.slot.campaign, id.slot.contact);
      Rows(d.jobs[id := if status == Sent then Completed else JobFailed],
           if who in d.recips && !Engaged(d.recips[who])
           then d.recips[who := if status == Sent then MarkedSent else MarkedFailed]
           else d.recips)
  }

  function ApplyHeld(d: Rows, held: seq<(PackId, PackStatus)>): Rows {
    if held == [] then d
    else
      var d1 := ApplyHeld(d, held[..|held| - 1]);
      var p := held[|held| - 1];
      if Resolved(p.1) then ApplyOutcome(d1, p.0, p.1) else d1
  }

  /** retry_failed: every failed recipient of the campaign waits again. */
  function RetryFailed(recips: Recips, campaign: nat): Recips {
    map who | who in recips ::
      if who.0 == campaign && recips[who] == MarkedFailed then Queued else recips[who]
  }

  predicate Contacts(id: PackId) { id.ContactPack? }

  function ContactSet(ids: seq<PackId>): set<PackId> { set id | id in ids && Contacts(id) }

  ghost predicate Recordable(d: Rows, ids: seq<PackId>) {
    && (forall id <- ids :: Contacts(id) ==> id !in d.jobs)
    && (forall i, j :: 0 <= i < j < |ids| && Contacts(ids[i]) ==> ids[i] != ids[j])
  }

  ghost predicate Marks(campaign: nat, ids: seq<PackId>, who: (nat, nat)) {
    exists id :: id in ids && Contacts(id) && who == (campaign, id.slot.contact)
  }

  lemma RecordableSnoc(d: Rows, rest: seq<PackId>, last: PackId)
    ensures Recordable(d, rest + [last]) <==>
      Recordable(d, rest) && (Contacts(last) ==> last !in d.jobs && last !in rest)
  {
    var ids := rest + [last];
    if Recordable(d, ids) {
      forall i, j | 0 <= i < j < |rest| && Contacts(rest[i]) ensures rest[i] != rest[j] {
        assert ids[i] != ids[j];
      }
      assert forall id <- rest :: id in ids;
      assert last in ids;
      forall i | 0 <= i < |rest| && Contacts(rest[i]) ensures rest[i] != last {
        assert ids[i] != ids[|rest|];
      }
    }
    if Recordable(d, rest) && (Contacts(last) ==> last !in d.jobs && last !in rest) {
      forall i, j | 0 <= i < j < |ids| && Contacts(ids[i]) ensures ids[i] != ids[j] {
        if j == |rest| { assert ids[i] == rest[i] && rest[i] in rest; }
      }
    }
  }

  lemma MarksSnoc(campaign: nat, rest: seq<PackId>, last: PackId, who: (nat, nat))
    ensures Marks(campaign, rest + [last], who) <==>
      Marks(campaign, rest, who) || (Contacts(last) && who == (campaign, last.slot.contact))
  {
    var ids := rest + [last];
    assert forall id :: id in ids <==> id in rest || id == last;
    if Marks(campaign, rest, who) {
      var id :| id in rest && Contacts(id) && who == (campaign, id.slot.contact);
      assert id in ids;
    }
    assert last in ids;
  }

  /** Exactly the contact ids gain jobs, as dispatched, and exactly their recipients become sent. */
  ghost predicate Books(d: Rows, d': Rows, campaign: nat, ids: seq<PackId>) {
    && d'.jobs.Keys == d.jobs.Keys + ContactSet(ids)
    && (forall id <- d.jobs :: d'.jobs[id] == d.jobs[id])
    && (forall id <- ids :: Contacts(id) ==> d'.jobs[id] == Dispatched)
    && d'.recips.Keys == d.recips.Keys
    && (forall who <- d.recips :: d'.recips[who] == if Marks(campaign, ids, who) then MarkedSent else d.recips[who])
  }

  /** Recording succeeds exactly when every contact id is new, writes exactly those, and marks exactly their recipients. */
  lemma {:induction false} RecordAllExact(d: Rows, campaign: nat, ids: seq<PackId>)
    ensures RecordAll(d, campaign, ids).Some? <==> Recordable(d, ids)
    ensures RecordAll(d, campaign, ids).Some? ==> Books(d, RecordAll(d, campaign, ids).value, campaign, ids)
  {
    if ids != [] {
      var n := |ids| - 1;
      var rest, last := ids[..n], ids[n];
      assert ids == rest + [last];
      RecordAllExact(d, campaign, rest);
      RecordAllSnoc(d, campaign, rest, last);
    }
  }

  lemma RecordAllSnoc(d: Rows, campaign: nat, rest: seq<PackId>, last: PackId)
    requires RecordAll(d, campaign, rest).Some? <==> Recordable(d, rest)
    requires RecordAll(d, campaign, rest).Some? ==> Books(d, RecordAll(d, campaign, rest).value, campaign, rest)
    ensures var ids := rest + [last];
      && (RecordAll(d, campaign, ids).Some? <==> Recordable(d, ids))
      && (RecordAll(d, campaign, ids).Some? ==> Books(d, RecordAll(d, campaign, ids).value, campaign, ids))
  {
    RecordableSnoc(d, rest, last);
    assert (rest + [last])[..|rest|] == rest;
    if RecordAll(d, campaign, rest + [last]).Some? { RecordOneMore(d, campaign, rest, last); }
  }

  lemma RecordOneMore(d: Rows, campaign: nat, rest: seq<PackId>, last: PackId)
    requires RecordAll(d, campaign, rest + [last]).Some? && RecordAll(d, campaign, rest).Some?
    requires Books(d, RecordAll(d, campaign, rest).value, campaign, rest)
    ensures Books(d, RecordAll(d, campaign, rest + [last]).value, campaign, rest + [last])
  {
    var ids := rest + [last];
    var d1 := RecordAll(d, campaign, rest).value;
    var d' := RecordAll(d, campaign, ids).value;
    assert ids[..|ids| - 1] == rest && ids[|ids| - 1] == last;
    assert d' == if last.SeedPack? then d1 else RecordOne(d1, campaign, last);
    assert forall id :: id in ids <==> id in rest || id == last;
    forall who | who in d.recips
      ensures d'.recips[who] == if Marks(campaign, ids, who) then MarkedSent else d.recips[who]
    {
      MarksSnoc(campaign, rest, last, who);
    }
  }

  /** An outcome touches its own job and its own recipient, and only if the job is recorded. */
  lemma ApplyOutcomeKeeps(d: Rows, id: PackId, status: PackStatus)
    ensures var d' := ApplyOutcome(d, id, status);
            && d'.jobs.Keys == d.jobs.Keys && d'.recips.Keys == d.recips.Keys
            && (forall k <- d.jobs :: k != id ==> d'.jobs[k] == d.jobs[k])
            && (forall who <- d.recips :: d'.recips[who] == d.recips[who]
                  || (d'.recips[who] in {MarkedSent, MarkedFailed} && id.ContactPack? && id in d.jobs
                      && who == (id.slot.campaign, id.slot.contact)))
  {
  }

  /**
   What an outcome comes to: the job is completed exactly by a sent pack and failed by any other that is over; an
   unengaged recipient reads sent exactly for a sent pack, else failed; an unknown outcome changes nothing.
   */
  predicate OutcomeTells(d: Rows, d': Rows, id: PackId, status: PackStatus) {
    if id in d.jobs && id.ContactPack? && status != Unknown then
      var who := (id.slot.campaign, id.slot.contact);
      && d'.jobs.Keys == d.jobs.Keys && d'.recips.Keys == d.recips.Keys
      && d'.jobs[id] in {Completed, JobFailed} && (d'.jobs[id] == Completed <==> status == Sent)
      && (forall k <- d.jobs :: k != id ==> d'.jobs[k] == d.jobs[k])
      && (forall w <- d.recips :: w != who ==> d'.recips[w] == d.recips[w])
      && (who in d.recips ==>
            if d.recips[who] in {Delivered, Opened, Clicked, Bounced, Complained} then d'.recips[who] == d.recips[who]
            else d'.recips[who] in {MarkedSent, MarkedFailed} && (d'.recips[who] == MarkedSent <==> status == Sent))
    else d' == d
  }

  lemma OutcomeExactly(d: Rows, id: PackId, status: PackStatus)
    ensures OutcomeTells(d, ApplyOutcome(d, id, status), id, status)
  {
  }

  /** After an outcome and then Retry failed, the contact waits again exactly when the mail was not handed over and nothing came back from them. */
  lemma RetryAfterOutcome(d: Rows, id: PackId, status: PackStatus)
    requires Resolved(status) && id in d.jobs && id.ContactPack? && (id.slot.campaign, id.slot.contact) in d.recips
    ensures var who := (id.slot.campaign, id.slot.contact);
      var was := d.recips[who];
      who in RetryFailed(ApplyOutcome(d, id, status).recips, id.slot.campaign) &&
      (RetryFailed(ApplyOutcome(d, id, status).recips, id.slot.campaign)[who] == Queued <==>
        || (status in {Failed, StuckNoKey, Cancelled} && was !in {Delivered, Opened, Clicked, Bounced, Complained})
        || (status == Unknown && was in {Queued, MarkedFailed}))
  {
    OutcomeExactly(d, id, status);
  }

  lemma {:induction false} ApplyHeldKeeps(d: Rows, held: seq<(PackId, PackStatus)>)
    ensures var d' := ApplyHeld(d, held);
            && d'.jobs.Keys == d.jobs.Keys
            && d'.recips.Keys == d.recips.Keys
            && (forall id <- d.jobs :: (forall p <- held :: p.0 != id) ==> d'.jobs[id] == d.jobs[id])
            && (forall who <- d.recips :: d'.recips[who] == d.recips[who] || d'.recips[who] in {MarkedSent, MarkedFailed})
            && (forall who <- d.recips ::
                  (forall p <- held :: p.0.ContactPack? && p.0 in d.jobs ==> who != (p.0.slot.campaign, p.0.slot.contact))
                  ==> d'.recips[who] == d.recips[who])
  {
    if held != [] {
      var rest, last := held[..|held| - 1], held[|held| - 1];
      ApplyHeldKeeps(d, rest);
      assert held == rest + [last];
      assert last in held && forall p <- rest :: p in held;
      ApplyOutcomeKeeps(ApplyHeld(d, rest), last.0, last.1);
    }
  }

  // The imperative planner

  datatype Result<+T> = Ok(value: T) | StuckIds

  /** The send choke point. `jobs` are the campaign's recorded jobs, read once. It never reports stuck ids. */
  method PlanSends(jobs: Jobs, blocked: map<nat, string>, campaign: nat, key: SendKey, candidates: seq<Candidate>)
    returns (r: Result<Plan>)
    ensures r == Ok(PlanOf(jobs, blocked, campaign, key, candidates))
  {
    var plan := Plan([], 0, []);
    for i := 0 to |candidates|
      invariant plan == PlanOf(jobs, blocked, campaign, key, candidates[..i])
    {
      var c := candidates[i];
      assert candidates[..i + 1][..i] == candidates[..i];
      if c.hash in blocked {
        plan := plan.(suppressed := plan.suppressed + [(c.contact, blocked[c.hash])]);
        continue;
      }
      var slot := Slot(campaign, key, c.contact);
      var a := 0;
      while IdOf(slot, a) in jobs
        invariant forall k: nat :: k < a ==> IdOf(slot, k) in jobs
        decreases |jobs| + 1 - a
      {
        a := a + 1;
        OrdinalsFit(jobs, slot, a);
        if a > |jobs| {
          return StuckIds;
        }
      }
      NextOrdinalIs(jobs, slot, a);
      if a > 0 && !(c.status == Queued && Retryable(jobs[IdOf(slot, a - 1)])) {
        plan := plan.(recorded := plan.recorded + 1);
        continue;
      }
      plan := plan.(sends := plan.sends + [(c, IdOf(slot, a))]);
    }
    assert candidates[..|candidates|] == candidates;
    return Ok(plan);
  }
}
