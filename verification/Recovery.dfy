/**
 Finishing an interrupted send. A batch or a Re-launch is pressed again and again; each press may break
 anywhere: in the middle of a chunk, between chunks, after the acknowledgement but before the recording.
 Once a press gets through, the cloud holds what one uninterrupted press would have put there.
 */
module Recovery {
  import opened PackIds
  import opened PackStore
  import opened Desk
  import opened Terminal

  /** What is being sent: one generation of a campaign, to a roster of (contact, email hash). */
  datatype Job = Job(campaign: nat, key: SendKey, roster: seq<(nat, nat)>, blocked: map<nat, string>, relaunch: bool) {
    predicate Valid() { forall i, j :: 0 <= i < j < |roster| ==> roster[i].0 != roster[j].0 }

    /** A batch selects waiting recipients, a Re-launch everyone who can be mailed. */
    predicate Selects(st: RecipStatus) { if relaunch then st !in {Delivered, MarkedCancelled} else st == Queued }

    function SlotFor(contact: nat): Slot { Slot(campaign, key, contact) }

    function Taken(jobs: Jobs, contact: nat): nat { NextOrdinal(JobsOf(jobs, campaign), SlotFor(contact)) }

    predicate Due(r: Rows, x: (nat, nat)) {
      && (campaign, x.0) in r.recips && Selects(r.recips[(campaign, x.0)])
      && x.1 !in blocked
      && MayResend(JobsOf(r.jobs, campaign), SlotFor(x.0), r.recips[(campaign, x.0)])
    }

    function NextId(jobs: Jobs, x: (nat, nat)): PackId { IdOf(SlotFor(x.0), Taken(jobs, x.0)) }

    function DueIds(r: Rows): set<PackId> { set x | x in roster && Due(r, x) :: NextId(r.jobs, x) }

    predicate Owns(id: PackId) {
      id.ContactPack? && id.slot.campaign == campaign && id.slot.key == key && exists x <- roster :: x.0 == id.slot.contact
    }

    function Own(ids: set<PackId>): set<PackId> { set id | id in ids && Owns(id) }

    /** Nobody with a recorded pack in this generation waits for another one, except those the press is due to send to. */
    predicate Calm(r: Rows) {
      forall x <- roster :: (campaign, x.0) in r.recips && Taken(r.jobs, x.0) > 0 && !Due(r, x) ==>
        r.recips[(campaign, x.0)] != Queued
    }

    function Candidates(r: Rows, xs: seq<(nat, nat)>): seq<Candidate> {
      if xs == [] then []
      else
        var x := xs[|xs| - 1];
        var rest := Candidates(r, xs[..|xs| - 1]);
        if (campaign, x.0) in r.recips && Selects(r.recips[(campaign, x.0)])
        then rest + [Candidate(x.0, r.recips[(campaign, x.0)], x.1)]
        else rest
    }

    function PlanNow(r: Rows): Plan { PlanOf(JobsOf(r.jobs, campaign), blocked, campaign, key, Candidates(r, roster)) }

    /** A status change the selection does not see. */
    predicate Alike(st: RecipStatus, st': RecipStatus) { (Selects(st) <==> Selects(st')) && (st == Queued <==> st' == Queued) }

    /**
     The rest of the world between two presses: requests given up for lost that land after all, outcomes, opens and
     clicks, dispatching, other sends, suppressed recipients being closed. Nobody retries, adds or takes out recipients.
     */
    predicate Undisturbed(r: Rows, m: Packs, r': Rows, m': Packs) {
      && Own(m.Keys) <= Own(m'.Keys) <= Own(m.Keys) + DueIds(r) && Own(r'.jobs.Keys) == Own(r.jobs.Keys)
      && (forall x <- roster :: (campaign, x.0) in r.recips <==> (campaign, x.0) in r'.recips)
      && (forall x <- roster :: (campaign, x.0) in r.recips && r'.recips[(campaign, x.0)] == Queued ==>
            r.recips[(campaign, x.0)] == Queued)
      && (forall x <- roster :: (campaign, x.0) in r.recips && x.1 !in blocked && (Due(r, x) || Taken(r.jobs, x.0) == 0) ==>
            Alike(r.recips[(campaign, x.0)], r'.recips[(campaign, x.0)]))
      && (forall x <- roster :: Due(r, x) && Taken(r.jobs, x.0) > 0 ==>
            var last := IdOf(SlotFor(x.0), Taken(r.jobs, x.0) - 1);
            last in r'.jobs && Retryable(r'.jobs[last]))
    }
  }

  /** The contact ids of a push, in order. */
  function ContactIds(ids: seq<PackId>): seq<PackId> {
    if ids == [] then []
    else
      var rest, last := ContactIds(ids[..|ids| - 1]), ids[|ids| - 1];
      if last.ContactPack? then rest + [last] else rest
  }

  /** One press: what it pushes, and how it breaks. Seeds may be woven in anywhere. */
  type ChunkSize = n: nat | n > 0 witness 1

  datatype Attempt = Attempt(packs: seq<PackIn>, chunk: ChunkSize, fate: nat -> Fate, commits: bool, now: int)

  predicate Presses(j: Job, r: Rows, a: Attempt) {
    ContactIds(IdsOf(a.packs)) == Ids(j.PlanNow(r).sends)
  }

  // The plan, as a set

  lemma {:induction false} CandidatesExact(j: Job, r: Rows, xs: seq<(nat, nat)>)
    requires forall a, b :: 0 <= a < b < |xs| ==> xs[a].0 != xs[b].0
    ensures var cs := j.Candidates(r, xs);
            && (forall a, b :: 0 <= a < b < |cs| ==> cs[a].contact != cs[b].contact)
            && (forall c <- cs :: (c.contact, c.hash) in xs && (j.campaign, c.contact) in r.recips
                  && r.recips[(j.campaign, c.contact)] == c.status && j.Selects(c.status))
            && (forall x <- xs :: (j.campaign, x.0) in r.recips && j.Selects(r.recips[(j.campaign, x.0)]) ==>
                  Candidate(x.0, r.recips[(j.campaign, x.0)], x.1) in cs)
  {
    if xs != [] {
      var rest := xs[..|xs| - 1];
      CandidatesExact(j, r, rest);
      assert xs == rest + [xs[|xs| - 1]];
      assert forall c <- j.Candidates(r, rest) :: (c.contact, c.hash) in rest;
    }
  }

  lemma PlannedIsDue(j: Job, r: Rows, e: (Candidate, PackId))
    requires j.Valid() && e in j.PlanNow(r).sends
    ensures e.1 in j.DueIds(r) && e.1 !in r.jobs && j.Owns(e.1)
  {
    var cs := j.Candidates(r, j.roster);
    var jobs := JobsOf(r.jobs, j.campaign);
    CandidatesExact(j, r, j.roster);
    PlanPartitions(jobs, j.blocked, j.campaign, j.key, cs);
    var x := (e.0.contact, e.0.hash);
    assert x in j.roster && j.Due(r, x) && e.1 == j.NextId(r.jobs, x);
    assert e.1 !in jobs;
  }

  lemma DueIsPlanned(j: Job, r: Rows, x: (nat, nat)) returns (e: (Candidate, PackId))
    requires j.Valid() && x in j.roster && j.Due(r, x)
    ensures e in j.PlanNow(r).sends && e.1 == j.NextId(r.jobs, x)
  {
    var cs := j.Candidates(r, j.roster);
    var jobs := JobsOf(r.jobs, j.campaign);
    CandidatesExact(j, r, j.roster);
    PlanPartitions(jobs, j.blocked, j.campaign, j.key, cs);
    var c := Candidate(x.0, r.recips[(j.campaign, x.0)], x.1);
    assert c in cs;
    assert Judge(jobs, j.blocked, j.campaign, j.key, c) == Send(j.NextId(r.jobs, x));
    e := (c, j.NextId(r.jobs, x));
  }

  /** The press plans exactly the due ids, each once, none recorded. */
  lemma PlanIsDue(j: Job, r: Rows)
    requires j.Valid()
    ensures var ids := Ids(j.PlanNow(r).sends);
            && (forall id :: id in ids <==> id in j.DueIds(r))
            && (forall a, b :: 0 <= a < b < |ids| ==> ids[a] != ids[b])
            && (forall id <- ids :: id !in r.jobs && j.Owns(id))
  {
    var sends := j.PlanNow(r).sends;
    var ids := Ids(sends);
    forall id | id in ids ensures id in j.DueIds(r) && id !in r.jobs && j.Owns(id) {
      var i :| 0 <= i < |ids| && ids[i] == id;
      PlannedIsDue(j, r, sends[i]);
    }
    forall id | id in j.DueIds(r) ensures id in ids {
      var x :| x in j.roster && j.Due(r, x) && id == j.NextId(r.jobs, x);
      var e := DueIsPlanned(j, r, x);
      var i :| 0 <= i < |sends| && sends[i] == e;
      assert ids[i] == id;
    }
    PlanDistinct(j, r);
  }

  lemma PlanDistinct(j: Job, r: Rows)
    requires j.Valid()
    ensures var ids := Ids(j.PlanNow(r).sends); forall a, b :: 0 <= a < b < |ids| ==> ids[a] != ids[b]
  {
    CandidatesExact(j, r, j.roster);
    PlanIdsFresh(JobsOf(r.jobs, j.campaign), j.blocked, j.campaign, j.key, j.Candidates(r, j.roster));
  }

  lemma {:induction false} ContactIdsExact(ids: seq<PackId>)
    ensures forall id :: id in ContactIds(ids) <==> id in ids && id.ContactPack?
    ensures (forall a, b :: 0 <= a < b < |ContactIds(ids)| ==> ContactIds(ids)[a] != ContactIds(ids)[b]) ==>
      forall a, b :: 0 <= a < b < |ids| && ids[a].ContactPack? ==> ids[a] != ids[b]
  {
    if ids != [] {
      var rest, last := ids[..|ids| - 1], ids[|ids| - 1];
      ContactIdsExact(rest);
      assert ids == rest + [last];
      var cs := ContactIds(ids);
      if forall a, b :: 0 <= a < b < |cs| ==> cs[a] != cs[b] {
        assert forall a, b :: 0 <= a < b < |ContactIds(rest)| ==> ContactIds(rest)[a] == cs[a] && ContactIds(rest)[b] == cs[b];
        forall a, b | 0 <= a < b < |ids| && ids[a].ContactPack? ensures ids[a] != ids[b] {
          if b < |rest| {
            assert rest[a] != rest[b];
          } else if last.ContactPack? {
            assert rest[a] in ContactIds(rest);
            var k :| 0 <= k < |ContactIds(rest)| && ContactIds(rest)[k] == rest[a];
            assert cs[k] != cs[|cs| - 1];
          }
        }
      }
    }
  }

  // One press

  /** How the recorded ids of a press move the due set: the recorded leave it, the others stay. */
  predicate Moved(j: Job, r: Rows, m: Packs, r': Rows, m': Packs, landed: set<PackId>, recorded: set<PackId>) {
    && recorded <= landed <= j.DueIds(r)
    && j.Own(m'.Keys) == j.Own(m.Keys) + landed
    && j.Own(r'.jobs.Keys) == j.Own(r.jobs.Keys) + recorded
    && j.Calm(r')
    && j.DueIds(r') == j.DueIds(r) - recorded
  }

  lemma TakenSame(j: Job, jobs: Jobs, jobs': Jobs, contact: nat)
    requires exists x <- j.roster :: x.0 == contact
    requires j.Own(jobs.Keys) == j.Own(jobs'.Keys)
    ensures j.Taken(jobs, contact) == j.Taken(jobs', contact)
  {
    var a := j.Taken(jobs, contact);
    forall i: nat ensures IdOf(j.SlotFor(contact), i) in jobs <==> IdOf(j.SlotFor(contact), i) in jobs' {
      var id := IdOf(j.SlotFor(contact), i);
      assert j.Owns(id);
      assert id in j.Own(jobs.Keys) <==> id in j.Own(jobs'.Keys);
    }
  }

  /** Between presses the due set does not move. */
  lemma UndisturbedKeepsDue(j: Job, r: Rows, m: Packs, r': Rows, m': Packs)
    requires j.Valid() && j.Calm(r) && j.Undisturbed(r, m, r', m')
    ensures j.DueIds(r') == j.DueIds(r) && j.Calm(r')
  {
    forall x | x in j.roster
      ensures j.Due(r, x) <==> j.Due(r', x)
      ensures j.NextId(r.jobs, x) == j.NextId(r'.jobs, x)
    {
      TakenSame(j, r.jobs, r'.jobs, x.0);
    }
  }

  /** What was recorded: r1 differs from r only in the recorded ids, whose recipients are no longer queued. */
  predicate Booking(j: Job, r: Rows, r1: Rows, recorded: set<PackId>) {
    && r1.jobs.Keys == r.jobs.Keys + recorded
    && (forall id <- r.jobs :: r1.jobs[id] == r.jobs[id])
    && r1.recips.Keys == r.recips.Keys
    && (forall x <- j.roster :: (j.campaign, x.0) in r.recips ==>
          if exists id :: id in recorded && id.ContactPack? && id.slot.contact == x.0
          then r1.recips[(j.campaign, x.0)] in {MarkedSent, MarkedFailed}
          else r1.recips[(j.campaign, x.0)] == r.recips[(j.campaign, x.0)])
  }

  lemma BookingMovesOne(j: Job, r: Rows, r1: Rows, recorded: set<PackId>, x: (nat, nat))
    requires j.Valid() && j.Calm(r) && Booking(j, r, r1, recorded) && recorded <= j.DueIds(r) && x in j.roster
    ensures j.Due(r1, x) <==> j.Due(r, x) && j.NextId(r.jobs, x) !in recorded
    ensures j.Due(r1, x) ==> j.NextId(r1.jobs, x) == j.NextId(r.jobs, x)
    ensures (j.campaign, x.0) in r1.recips && j.Taken(r1.jobs, x.0) > 0 && !j.Due(r1, x) ==> r1.recips[(j.campaign, x.0)] != Queued
  {
  }

  lemma BookingMoves(j: Job, r: Rows, r1: Rows, recorded: set<PackId>)
    requires j.Valid() && j.Calm(r) && Booking(j, r, r1, recorded) && recorded <= j.DueIds(r)
    ensures j.DueIds(r1) == j.DueIds(r) - recorded
    ensures j.Calm(r1)
  {
    forall x | x in j.roster
      ensures j.Due(r1, x) <==> j.Due(r, x) && j.NextId(r.jobs, x) !in recorded
      ensures j.Due(r1, x) ==> j.NextId(r1.jobs, x) == j.NextId(r.jobs, x)
      ensures (j.campaign, x.0) in r1.recips && j.Taken(r1.jobs, x.0) > 0 && !j.Due(r1, x) ==> r1.recips[(j.campaign, x.0)] != Queued
    {
      BookingMovesOne(j, r, r1, recorded, x);
    }
  }

  /** Any prefix of a press's packs can be recorded: its contact ids are new and distinct. */
  lemma PrefixRecordable(j: Job, r: Rows, a: Attempt, n: nat)
    requires j.Valid() && Presses(j, r, a) && n <= |a.packs|
    ensures Recordable(r, IdsOf(a.packs)[..n])
  {
    var all := IdsOf(a.packs);
    var ids := all[..n];
    PlanIsDue(j, r);
    ContactIdsExact(all);
    forall id | id in ids && Contacts(id) ensures id !in r.jobs {
      assert id in ContactIds(all);
    }
    forall x, y | 0 <= x < y < |ids| && Contacts(ids[x]) ensures ids[x] != ids[y] {
      assert all[x] != all[y];
    }
  }

  /** Recording a set of new ids and applying held outcomes of those ids books exactly the contact ids. */
  lemma RecordingBooks(j: Job, r: Rows, ids: seq<PackId>, held: seq<(PackId, PackStatus)>)
    requires Recordable(r, ids) && forall h <- held :: h.0 in ids
    ensures RecordAll(r, j.campaign, ids).Some?
    ensures Booking(j, r, ApplyHeld(RecordAll(r, j.campaign, ids).value, held), ContactSet(ids))
  {
    RecordAllExact(r, j.campaign, ids);
    var d := RecordAll(r, j.campaign, ids).value;
    var r1 := ApplyHeld(d, held);
    var recorded := ContactSet(ids);
    ApplyHeldKeeps(d, held);
    forall id | id in r.jobs ensures r1.jobs[id] == r.jobs[id] {
      HeldSkipsSeeds(d, held, id);
    }
    forall x | x in j.roster && (j.campaign, x.0) in r.recips
      ensures if exists id :: id in recorded && id.ContactPack? && id.slot.contact == x.0
              then r1.recips[(j.campaign, x.0)] in {MarkedSent, MarkedFailed}
              else r1.recips[(j.campaign, x.0)] == r.recips[(j.campaign, x.0)]
    {
    }
  }

  lemma {:induction false} HeldSkipsSeeds(d: Rows, held: seq<(PackId, PackStatus)>, id: PackId)
    requires id in d.jobs && forall h <- held :: h.0 != id || id.SeedPack?
    ensures id in ApplyHeld(d, held).jobs && ApplyHeld(d, held).jobs[id] == d.jobs[id]
  {
    if held != [] {
      HeldSkipsSeeds(d, held[..|held| - 1], id);
    }
  }

  /** How much of the push is booked, and which held rows are applied with it. */
  function BookCount(outcome: PushOutcome, n: nat): nat {
    match outcome
    case Complete(_) => n
    case Interrupted(p, _) => Min(p, n)
    case Refused => 0
  }

  function HeldOf(outcome: PushOutcome): seq<(PackId, PackStatus)> {
    match outcome
    case Complete(ack) => ack.held
    case Interrupted(_, h) => h
    case Refused => []
  }

  lemma BookedIs(j: Job, r: Rows, a: Attempt, outcome: PushOutcome)
    requires j.Valid() && Presses(j, r, a)
    requires HeldWithin(HeldOf(outcome), a.packs[..BookCount(outcome, |a.packs|)])
    ensures var (r', res) := Booked(r, j.campaign, IdsOf(a.packs), outcome, a.commits);
            && (res.Done? <==> outcome.Complete? && a.commits)
            && if !a.commits || outcome.Refused? then r' == r
               else Booking(j, r, r', ContactSet(IdsOf(a.packs)[..BookCount(outcome, |a.packs|)]))
  {
    var ids := IdsOf(a.packs);
    var n := BookCount(outcome, |a.packs|);
    PrefixRecordable(j, r, a, n);
    RecordingBooks(j, r, ids[..n], HeldOf(outcome));
    assert ids[..|ids|] == ids;
  }

  lemma PushedHeld(m: Packs, packs: seq<PackIn>, chunk: ChunkSize, fate: nat -> Fate, now: int)
    ensures var outcome := PushFrom(m, packs, 0, NO_ACK, chunk, fate, now).1;
            && HeldWithin(HeldOf(outcome), packs[..BookCount(outcome, |packs|)])
            && BookCount(outcome, |packs|) <= LandedFrom(|packs|, 0, chunk, fate)
            && (outcome.Complete? ==> LandedFrom(|packs|, 0, chunk, fate) == |packs|)
  {
    PushReports(m, packs, 0, NO_ACK, chunk, fate, now);
    assert packs[..|packs|] == packs;
  }

  /** The contact ids among a press's first n packs are due ones; all of them when n covers the press. */
  lemma PrefixIsDue(j: Job, r: Rows, a: Attempt, n: nat)
    requires j.Valid() && Presses(j, r, a) && n <= |a.packs|
    ensures var s := ContactSet(IdsOf(a.packs)[..n]);
            && s <= j.DueIds(r) && j.Own(s) == s && (n == |a.packs| ==> s == j.DueIds(r))
  {
    var all := IdsOf(a.packs);
    PlanIsDue(j, r);
    ContactIdsExact(all);
    var s := ContactSet(all[..n]);
    forall id | id in s ensures id in j.DueIds(r) && j.Owns(id) {
      assert id in all && id in ContactIds(all);
    }
    if n == |a.packs| {
      assert all[..n] == all;
      forall id | id in j.DueIds(r) ensures id in s {
        assert id in ContactIds(all);
      }
    }
  }

  /** One press, whatever breaks: some due ids land, some of those are recorded, the rest is due again. */
  lemma OnePress(j: Job, r: Rows, m: Packs, a: Attempt) returns (landed: set<PackId>, recorded: set<PackId>)
    requires j.Valid() && j.Calm(r) && Presses(j, r, a)
    ensures var (r', m', res) := PressEffect(r, m, j.campaign, a.packs, a.chunk, a.fate, a.commits, a.now);
            Moved(j, r, m, r', m', landed, recorded) && (res.Done? ==> recorded == j.DueIds(r))
  {
    var n := LandedFrom(|a.packs|, 0, a.chunk, a.fate);
    var (m', outcome) := PushFrom(m, a.packs, 0, NO_ACK, a.chunk, a.fate, a.now);
    PushLands(m, a.packs, 0, NO_ACK, a.chunk, a.fate, a.now);
    PushedHeld(m, a.packs, a.chunk, a.fate, a.now);
    PrefixIsDue(j, r, a, n);
    PrefixIsDue(j, r, a, |a.packs|);
    LandedOwn(j, r, m, a, n, m');
    BookedIs(j, r, a, outcome);
    landed := ContactSet(IdsOf(a.packs)[..n]);
    recorded := BookingMoved(j, r, m, a, outcome, n, m');
  }

  lemma BookingMoved(j: Job, r: Rows, m: Packs, a: Attempt, outcome: PushOutcome, n: nat, m': Packs) returns (recorded: set<PackId>)
    requires j.Valid() && j.Calm(r) && Presses(j, r, a)
    requires BookCount(outcome, |a.packs|) <= n <= |a.packs|
    requires HeldWithin(HeldOf(outcome), a.packs[..BookCount(outcome, |a.packs|)])
    requires j.Own(m'.Keys) == j.Own(m.Keys) + ContactSet(IdsOf(a.packs)[..n])
    ensures var (r', res) := Booked(r, j.campaign, IdsOf(a.packs), outcome, a.commits);
            Moved(j, r, m, r', m', ContactSet(IdsOf(a.packs)[..n]), recorded)
            && (res.Done? ==> recorded == j.DueIds(r))
  {
    var book := BookCount(outcome, |a.packs|);
    var (r', res) := Booked(r, j.campaign, IdsOf(a.packs), outcome, a.commits);
    BookedIs(j, r, a, outcome);
    PrefixIsDue(j, r, a, n);
    if !a.commits || outcome.Refused? {
      recorded := {};
      assert j.DueIds(r) - recorded == j.DueIds(r);
    } else {
      recorded := ContactSet(IdsOf(a.packs)[..book]);
      PrefixIsDue(j, r, a, book);
      BookingMoves(j, r, r', recorded);
    }
  }

  lemma LandedOwn(j: Job, r: Rows, m: Packs, a: Attempt, n: nat, m': Packs)
    requires j.Valid() && Presses(j, r, a)
    requires n <= |a.packs| && m'.Keys == m.Keys + IdSet(a.packs[0..n])
    ensures j.Own(m'.Keys) == j.Own(m.Keys) + ContactSet(IdsOf(a.packs)[..n])
  {
    var ids := IdsOf(a.packs);
    forall id ensures id in IdSet(a.packs[0..n]) <==> id in ids[..n] {
      if id in IdSet(a.packs[0..n]) {
        var p :| p in a.packs[0..n] && p.id == id;
        var k :| 0 <= k < n && a.packs[k] == p;
        assert ids[..n][k] == id;
      }
      if id in ids[..n] {
        var k :| 0 <= k < n && ids[k] == id;
        assert a.packs[k] in a.packs[0..n];
      }
    }
    PrefixIsDue(j, r, a, n);
    var s := ContactSet(ids[..n]);
    forall id ensures id in j.Own(IdSet(a.packs[0..n])) <==> id in s {
      assert id in s ==> id in j.Own(s);
    }
  }

  // Any number of presses

  /** The world as a press finds it, and the press. */
  datatype Leg = Leg(rows: Rows, packs: Packs, attempt: Attempt)

  function AfterLeg(j: Job, leg: Leg): (Rows, Packs, PressResult) {
    PressEffect(leg.rows, leg.packs, j.campaign, leg.attempt.packs, leg.attempt.chunk, leg.attempt.fate,
                leg.attempt.commits, leg.attempt.now)
  }

  /** What the i-th press left for the world to move on from. */
  function Left(j: Job, r: Rows, m: Packs, legs: seq<Leg>, i: nat): (Rows, Packs)
    requires i <= |legs|
  {
    if i == 0 then (r, m) else (AfterLeg(j, legs[i - 1]).0, AfterLeg(j, legs[i - 1]).1)
  }

  /** The next press finds the world as the previous one left it, moved on undisturbed. */
  predicate Follows(j: Job, left: (Rows, Packs), leg: Leg) {
    Presses(j, leg.rows, leg.attempt) && j.Undisturbed(left.0, left.1, leg.rows, leg.packs)
  }

  /** Presses one after another, the world moving in between. */
  predicate History(j: Job, r: Rows, m: Packs, legs: seq<Leg>) {
    forall i {:trigger Left(j, r, m, legs, i)} :: 0 <= i < |legs| ==> Follows(j, Left(j, r, m, legs, i), legs[i])
  }

  /** After i presses: every id due at the start is landed-and-recorded or still due, and nothing else came up. */
  predicate Accounted(j: Job, r: Rows, m: Packs, ri: Rows, mi: Packs) {
    && j.Calm(ri)
    && j.Own(mi.Keys) <= j.Own(m.Keys) + j.DueIds(r) && j.Own(m.Keys) <= j.Own(mi.Keys)
    && j.DueIds(ri) <= j.DueIds(r)
    && j.Own(ri.jobs.Keys) == j.Own(r.jobs.Keys) + (j.DueIds(r) - j.DueIds(ri))
    && j.DueIds(r) - j.DueIds(ri) <= j.Own(mi.Keys)
  }

  lemma {:induction false} HistoryAccounted(j: Job, r: Rows, m: Packs, legs: seq<Leg>, i: nat)
    requires j.Valid() && j.Calm(r) && History(j, r, m, legs) && i <= |legs|
    ensures Accounted(j, r, m, Left(j, r, m, legs, i).0, Left(j, r, m, legs, i).1)
    ensures i > 0 && AfterLeg(j, legs[i - 1]).2.Done? ==> j.DueIds(Left(j, r, m, legs, i).0) == {}
  {
    if i > 0 {
      HistoryAccounted(j, r, m, legs, i - 1);
      HistoryStep(j, r, m, legs, i - 1);
    } else {
      assert j.DueIds(r) - j.DueIds(r) == {};
    }
  }

  lemma HistoryStep(j: Job, r: Rows, m: Packs, legs: seq<Leg>, i: nat)
    requires j.Valid() && History(j, r, m, legs) && i < |legs|
    requires Accounted(j, r, m, Left(j, r, m, legs, i).0, Left(j, r, m, legs, i).1)
    ensures Accounted(j, r, m, Left(j, r, m, legs, i + 1).0, Left(j, r, m, legs, i + 1).1)
    ensures AfterLeg(j, legs[i]).2.Done? ==> j.DueIds(Left(j, r, m, legs, i + 1).0) == {}
  {
    LegFollows(j, r, m, Left(j, r, m, legs, i), legs[i]);
  }

  lemma LegFollows(j: Job, r: Rows, m: Packs, left: (Rows, Packs), leg: Leg)
    requires j.Valid() && Accounted(j, r, m, left.0, left.1) && Follows(j, left, leg)
    ensures var (r1, m1, res) := AfterLeg(j, leg);
            Accounted(j, r, m, r1, m1) && (res.Done? ==> j.DueIds(r1) == {})
  {
    AccountedMove(j, r, m, left.0, left.1, leg.rows, leg.packs);
    LegAccounted(j, r, m, leg);
  }

  lemma LegAccounted(j: Job, r: Rows, m: Packs, leg: Leg)
    requires j.Valid() && Accounted(j, r, m, leg.rows, leg.packs) && Presses(j, leg.rows, leg.attempt)
    ensures var (r1, m1, res) := AfterLeg(j, leg);
            Accounted(j, r, m, r1, m1) && (res.Done? ==> j.DueIds(r1) == {})
  {
    var (r1, m1, res) := AfterLeg(j, leg);
    var landed, recorded := OnePress(j, leg.rows, leg.packs, leg.attempt);
  }

  lemma AccountedMove(j: Job, r: Rows, m: Packs, r1: Rows, m1: Packs, r2: Rows, m2: Packs)
    requires j.Valid() && Accounted(j, r, m, r1, m1) && j.Undisturbed(r1, m1, r2, m2)
    ensures Accounted(j, r, m, r2, m2)
  {
    UndisturbedKeepsDue(j, r1, m1, r2, m2);
  }

  /**
   Recovery: however many presses broke and wherever, once one gets through the cloud holds, and the terminal
   has recorded, exactly what was there at the start plus exactly the ids due at the start.
   */
  lemma FinishedSendIsComplete(j: Job, r: Rows, m: Packs, legs: seq<Leg>)
    requires j.Valid() && j.Calm(r) && History(j, r, m, legs) && |legs| > 0
    requires j.Own(r.jobs.Keys) <= j.Own(m.Keys)
    requires AfterLeg(j, legs[|legs| - 1]).2.Done?
    ensures var (r', m', _) := AfterLeg(j, legs[|legs| - 1]);
            && j.Own(m'.Keys) == j.Own(m.Keys) + j.DueIds(r)
            && j.Own(r'.jobs.Keys) == j.Own(r.jobs.Keys) + j.DueIds(r)
            && j.DueIds(r') == {}
  {
    HistoryAccounted(j, r, m, legs, |legs|);
    var left := Left(j, r, m, legs, |legs|);
    assert j.DueIds(r) - j.DueIds(left.0) == j.DueIds(r);
  }

  /** An interrupted and an uninterrupted send of the same roster from the same start end with the same packs and jobs. */
  lemma RecoveryEquivalence(j: Job, r: Rows, m: Packs, broken: seq<Leg>, smooth: Leg)
    requires j.Valid() && j.Calm(r) && j.Own(r.jobs.Keys) <= j.Own(m.Keys)
    requires History(j, r, m, broken) && |broken| > 0 && AfterLeg(j, broken[|broken| - 1]).2.Done?
    requires smooth.rows == r && smooth.packs == m && Presses(j, r, smooth.attempt) && AfterLeg(j, smooth).2.Done?
    ensures j.Own(AfterLeg(j, broken[|broken| - 1]).1.Keys) == j.Own(AfterLeg(j, smooth).1.Keys)
    ensures j.Own(AfterLeg(j, broken[|broken| - 1]).0.jobs.Keys) == j.Own(AfterLeg(j, smooth).0.jobs.Keys)
  {
    FinishedSendIsComplete(j, r, m, broken);
    assert j.DueIds(r) - j.DueIds(r) == {};
    LegAccounted(j, r, m, smooth);
    var (r1, m1, _) := AfterLeg(j, smooth);
    assert j.DueIds(r) - j.DueIds(r1) == j.DueIds(r);
  }

  /** A press never rewrites a job an earlier press recorded. */
  lemma RecordedOnce(j: Job, leg: Leg)
    requires j.Valid() && Presses(j, leg.rows, leg.attempt)
    ensures var (r1, _, _) := AfterLeg(j, leg);
            forall id <- leg.rows.jobs :: id in r1.jobs && r1.jobs[id] == leg.rows.jobs[id]
  {
    var a := leg.attempt;
    PushedHeld(leg.packs, a.packs, a.chunk, a.fate, a.now);
    BookedIs(j, leg.rows, a, PushFrom(leg.packs, a.packs, 0, NO_ACK, a.chunk, a.fate, a.now).1);
  }

  /** With the database up, a press fails only when its push does: a recording conflict needs a second press. */
  lemma AnsweredPressFinishes(j: Job, r: Rows, m: Packs, a: Attempt)
    requires j.Valid() && Presses(j, r, a) && a.commits
    ensures PressEffect(r, m, j.campaign, a.packs, a.chunk, a.fate, true, a.now).2.Done?
       <==> PushFrom(m, a.packs, 0, NO_ACK, a.chunk, a.fate, a.now).1.Complete?
  {
    PushedHeld(m, a.packs, a.chunk, a.fate, a.now);
    BookedIs(j, r, a, PushFrom(m, a.packs, 0, NO_ACK, a.chunk, a.fate, a.now).1);
  }
}
