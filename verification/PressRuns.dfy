/** The terminal's press, as its loops compute it, is one of the protocol's runs; what holds over all runs holds after it. */
module PressRuns {
  import opened PackIds
  import opened PackStore
  import opened Desk
  import opened Terminal
  import opened SendProtocol
  import Recovery
  import CM = CloudMachine

  ghost predicate Path(tr: seq<State>, s: State, s': State) {
    && |tr| > 0 && tr[0] == s && tr[|tr| - 1] == s'
    && forall i :: 0 <= i < |tr| - 1 ==> Next(tr[i], tr[i + 1])
  }

  ghost predicate Reaches(s: State, s': State) { exists tr :: Path(tr, s, s') }

  lemma ReachesItself(s: State)
    ensures Reaches(s, s)
  {
    assert Path([s], s, s);
  }

  lemma ReachesBy(s: State, t: Step, s': State)
    requires Enabled(s, t) && s' == Apply(s, t)
    ensures Reaches(s, s')
  {
    assert Next(s, s');
    assert Path([s, s'], s, s');
  }

  lemma ReachesOn(s: State, t: State, u: State)
    requires Reaches(s, t) && Reaches(t, u)
    ensures Reaches(s, u)
  {
    var a :| Path(a, s, t);
    var b :| Path(b, t, u);
    var tr := a + b[1..];
    forall i | 0 <= i < |tr| - 1 ensures Next(tr[i], tr[i + 1]) {
      if i >= |a| - 1 {
        var k := i - (|a| - 1);
        assert tr[i] == b[k] && tr[i + 1] == b[k + 1];
        assert Next(b[k], b[k + 1]);
      }
    }
    assert Path(tr, s, u);
  }

  /** A state reached from a run's end ends a longer run. */
  lemma ReachedByRun(tr: seq<State>, s': State) returns (longer: seq<State>)
    requires Run(tr) && Reaches(tr[|tr| - 1], s')
    ensures Run(longer) && tr <= longer && longer[|longer| - 1] == s'
  {
    var b :| Path(b, tr[|tr| - 1], s');
    longer := tr + b[1..];
    forall i | 0 <= i < |longer| - 1 ensures StepAt(longer, i) {
      if i < |tr| - 1 {
        assert StepAt(tr, i);
      } else {
        var k := i - (|tr| - 1);
        assert longer[i] == b[k] && longer[i + 1] == b[k + 1];
        assert Next(b[k], b[k + 1]);
      }
    }
  }

  // The cloud's intake

  predicate OwnCampaign(packs: seq<PackIn>) { forall k <- packs :: k.id.ContactPack? ==> k.campaign == k.id.slot.campaign }

  predicate OnWire(s: State, packs: seq<PackIn>) { forall k <- packs :: k.id.ContactPack? ==> k.id in s.wire }

  predicate HeldSeen(s: State, held: seq<(PackId, PackStatus)>) { forall h <- held :: h.0.ContactPack? ==> h in s.seen }

  /** Only the table, and what was seen of it, may differ. */
  predicate OnlyTable(s: State, s': State) {
    s' == s.(cloud := s.cloud.(packs := s'.cloud.packs), seen := s'.seen) && s.seen <= s'.seen
  }

  lemma LandOne(s: State, k: PackIn, now: int) returns (s': State)
    requires k.id.ContactPack? ==> k.id in s.wire && k.campaign == k.id.slot.campaign
    ensures Reaches(s, s') && OnlyTable(s, s')
    ensures s'.cloud.packs == Put(s.cloud.packs, k.id, k.campaign, k.sendAt, now)
    ensures k.id.ContactPack? && k.id in s.cloud.packs ==> (k.id, s.cloud.packs[k.id].status) in s'.seen
  {
    var t := if k.id.ContactPack? then Land(k.id, k.sendAt, now) else CloudStep(CM.PutStep(k.id, k.campaign, k.sendAt, now));
    s' := Apply(s, t);
    ReachesBy(s, t, s');
  }

  lemma {:induction false} IntakeRun(s: State, packs: seq<PackIn>, now: int) returns (s': State)
    requires OwnCampaign(packs) && OnWire(s, packs)
    ensures Reaches(s, s') && OnlyTable(s, s')
    ensures s'.cloud.packs == Intake(s.cloud.packs, packs, now).0 && HeldSeen(s', Intake(s.cloud.packs, packs, now).1.held)
  {
    if packs == [] {
      s' := s;
      ReachesItself(s);
    } else {
      var rest, k := packs[..|packs| - 1], packs[|packs| - 1];
      var t := IntakeRun(s, rest, now);
      assert k in packs;
      s' := LandOne(t, k, now);
      ReachesOn(s, t, s');
    }
  }

  // The chunked push

  /** How many contact packs there are among the first i. */
  function ContactCount(ids: seq<PackId>, i: nat): nat
    requires i <= |ids|
  {
    |Recovery.ContactIds(ids[..i])|
  }

  lemma {:induction false} ContactsJoin(a: seq<PackId>, b: seq<PackId>)
    ensures Recovery.ContactIds(a + b) == Recovery.ContactIds(a) + Recovery.ContactIds(b)
  {
    if b == [] {
      assert a + b == a;
    } else {
      assert (a + b)[..|a + b| - 1] == a + b[..|b| - 1];
      ContactsJoin(a, b[..|b| - 1]);
    }
  }

  /** The contact ids of packs i..j are the plan's ids between their counts. */
  lemma ContactPart(ids: seq<PackId>, i: nat, j: nat)
    requires i <= j <= |ids|
    ensures ContactCount(ids, i) <= ContactCount(ids, j) <= |Recovery.ContactIds(ids)|
    ensures Recovery.ContactIds(ids)[ContactCount(ids, i)..ContactCount(ids, j)] == Recovery.ContactIds(ids[i..j])
    ensures Recovery.ContactIds(ids)[..ContactCount(ids, j)] == Recovery.ContactIds(ids[..j])
  {
    assert ids[..i] + ids[i..j] == ids[..j] && ids[..j] + ids[j..] == ids;
    ContactsJoin(ids[..i], ids[i..j]);
    ContactsJoin(ids[..j], ids[j..]);
  }

  predicate AtChunk(s: State, p: nat, x: Press, ids: seq<PackId>, i: nat)
    requires i <= |ids|
  {
    x.Pushing? && x.plan == Recovery.ContactIds(ids) && PressAt(s, p) == x.(sent := ContactCount(ids, i), acked := ContactCount(ids, i))
  }

  /** The push so far: only the table, the wire, what was seen and the press itself have moved. */
  predicate OnlyPush(s: State, s': State, p: nat, x: Press) {
    && s' == s.(cloud := s.cloud.(packs := s'.cloud.packs), wire := s'.wire, seen := s'.seen, presses := s.presses[p := x])
    && s.seen <= s'.seen
  }

  lemma ContactOfPart(packs: seq<PackIn>, i: nat, j: nat)
    requires i <= j <= |packs|
    ensures forall k <- packs[i..j] :: k.id.ContactPack? ==> k.id in Recovery.ContactIds(IdsOf(packs)[i..j])
    ensures forall id <- Recovery.ContactIds(IdsOf(packs)[i..j]) :: id in IdSet(packs[i..j])
  {
    var ids := IdsOf(packs)[i..j];
    assert ids == IdsOf(packs[i..j]);
    Recovery.ContactIdsExact(ids);
    forall k | k in packs[i..j] ensures k.id in ids {
      var a :| 0 <= a < j - i && packs[i..j][a] == k;
      assert ids[a] == k.id;
    }
    forall id | id in ids ensures id in IdSet(packs[i..j]) {
      var a :| 0 <= a < j - i && ids[a] == id;
      assert packs[i..j][a] in packs[i..j];
    }
  }

  /** A press hands over the contact packs up to pack j. */
  lemma SendUpTo(s: State, p: nat, x: Press, packs: seq<PackIn>, i: nat, j: nat) returns (s': State)
    requires i <= j <= |packs| && AtChunk(s, p, x, IdsOf(packs), i)
    ensures Reaches(s, s') && OnWire(s', packs[i..j])
    ensures OnlyPush(s, s', p, x.(sent := ContactCount(IdsOf(packs), j), acked := ContactCount(IdsOf(packs), i)))
    ensures s'.cloud == s.cloud
  {
    var ids := IdsOf(packs);
    var n := ContactCount(ids, j) - ContactCount(ids, i);
    ContactPart(ids, i, j);
    ContactOfPart(packs, i, j);
    if n > 0 {
      s' := Apply(s, SendChunk(p, n));
      ReachesBy(s, SendChunk(p, n), s');
      assert forall id <- x.plan[ContactCount(ids, i)..ContactCount(ids, j)] :: id in x.plan[..ContactCount(ids, j)];
    } else {
      s' := s;
      ReachesItself(s);
      assert s.presses[p := PressAt(s, p)] == s.presses by { assert PressAt(s, p).Pushing?; }
      assert Recovery.ContactIds(ids[i..j]) == [];
    }
  }

  /** One request: the chunk is handed over, and its packs up to m land. */
  lemma ChunkLands(s: State, p: nat, x: Press, packs: seq<PackIn>, i: nat, m: nat, j: nat, now: int) returns (s': State)
    requires i <= m <= j <= |packs| && AtChunk(s, p, x, IdsOf(packs), i) && OwnCampaign(packs)
    ensures Reaches(s, s')
    ensures OnlyPush(s, s', p, x.(sent := ContactCount(IdsOf(packs), j), acked := ContactCount(IdsOf(packs), i)))
    ensures s'.cloud.packs == Intake(s.cloud.packs, packs[i..m], now).0
    ensures HeldSeen(s', Intake(s.cloud.packs, packs[i..m], now).1.held)
  {
    var t := SendUpTo(s, p, x, packs, i, j);
    assert forall k <- packs[i..m] :: k in packs[i..j];
    s' := IntakeRun(t, packs[i..m], now);
    ReachesOn(s, t, s');
  }

  /** An answered request: the whole chunk is stored and acknowledged. */
  lemma ChunkAnswered(s: State, p: nat, x: Press, packs: seq<PackIn>, i: nat, j: nat, now: int) returns (s': State)
    requires i <= j <= |packs| && AtChunk(s, p, x, IdsOf(packs), i) && OwnCampaign(packs)
    ensures Reaches(s, s') && AtChunk(s', p, x, IdsOf(packs), j) && OnlyPush(s, s', p, PressAt(s', p))
    ensures s'.cloud.packs == Intake(s.cloud.packs, packs[i..j], now).0
    ensures HeldSeen(s', Intake(s.cloud.packs, packs[i..j], now).1.held)
  {
    var t := ChunkLands(s, p, x, packs, i, j, j, now);
    ContactPart(IdsOf(packs), i, j);
    ContactOfPart(packs, i, j);
    IntakeRows(s.cloud.packs, packs[i..j], now);
    assert Enabled(t, Step.Ack(p));
    s' := Apply(t, Step.Ack(p));
    ReachesBy(t, Step.Ack(p), s');
    ReachesOn(s, t, s');
    assert s.presses[p := PressAt(t, p)][p := PressAt(s', p)] == s.presses[p := PressAt(s', p)];
  }

  /** What the terminal knows when its push ends. */
  predicate Told(s: State, y: Press, x: Press, ids: seq<PackId>, outcome: PushOutcome) {
    && x.Pushing? && y.Pushing? && y == x.(sent := y.sent, acked := y.acked) && y.acked <= |x.plan|
    && match outcome
       case Complete(ack) => y.acked == |x.plan| && HeldSeen(s, ack.held)
       case Interrupted(pushed, held) => pushed <= |ids| && y.acked == ContactCount(ids, pushed) && HeldSeen(s, held)
       case Refused => true
  }

  lemma PushOver(s: State, p: nat, x: Press, packs: seq<PackIn>, ack: Ack)
    requires AtChunk(s, p, x, IdsOf(packs), |packs|) && HeldSeen(s, ack.held)
    ensures Reaches(s, s) && OnlyPush(s, s, p, PressAt(s, p)) && Told(s, PressAt(s, p), x, IdsOf(packs), Complete(ack))
  {
    ReachesItself(s);
    assert IdsOf(packs)[..|packs|] == IdsOf(packs);
    assert s.presses[p := PressAt(s, p)] == s.presses;
  }

  lemma ChunkLost(s: State, p: nat, x: Press, packs: seq<PackIn>, i: nat, agg: Ack, m: nat, j: nat, now: int) returns (s': State)
    requires i <= m <= j <= |packs| && AtChunk(s, p, x, IdsOf(packs), i) && OwnCampaign(packs) && HeldSeen(s, agg.held)
    ensures Reaches(s, s') && OnlyPush(s, s', p, PressAt(s', p))
    ensures s'.cloud.packs == Intake(s.cloud.packs, packs[i..m], now).0
    ensures Told(s', PressAt(s', p), x, IdsOf(packs), if i > 0 then Interrupted(i, agg.held) else Refused)
  {
    ContactPart(IdsOf(packs), i, j);
    s' := ChunkLands(s, p, x, packs, i, m, j, now);
  }

  lemma {:induction false} PushRun(s: State, p: nat, x: Press, packs: seq<PackIn>, i: nat, agg: Ack, chunk: nat, fate: nat -> Fate, now: int)
      returns (s': State)
    requires i <= |packs| && chunk > 0 && AtChunk(s, p, x, IdsOf(packs), i) && OwnCampaign(packs) && HeldSeen(s, agg.held)
    ensures Reaches(s, s') && OnlyPush(s, s', p, PressAt(s', p))
    ensures s'.cloud.packs == PushFrom(s.cloud.packs, packs, i, agg, chunk, fate, now).0
    ensures Told(s', PressAt(s', p), x, IdsOf(packs), PushFrom(s.cloud.packs, packs, i, agg, chunk, fate, now).1)
    decreases |packs| - i
  {
    var upto := Min(i + chunk, |packs|);
    if i == |packs| {
      s' := s;
      PushOver(s, p, x, packs, agg);
    } else {
      match fate(i)
      case Lost(landed) =>
        s' := ChunkLost(s, p, x, packs, i, agg, Min(i + landed, upto), upto, now);
      case Answered =>
        var t := ChunkAnswered(s, p, x, packs, i, upto, now);
        var (m1, a) := Intake(s.cloud.packs, packs[i..upto], now);
        s' := PushRun(t, p, x, packs, upto, Plus(agg, a), chunk, fate, now);
        ReachesOn(s, t, s');
        OnlyPushOn(s, t, s', p);
    }
  }

  lemma OnlyPushOn(s: State, t: State, s': State, p: nat)
    requires OnlyPush(s, t, p, PressAt(t, p)) && OnlyPush(t, s', p, PressAt(s', p))
    ensures OnlyPush(s, s', p, PressAt(s', p))
  {
    assert s.presses[p := PressAt(t, p)][p := PressAt(s', p)] == s.presses[p := PressAt(s', p)];
  }

  // The bookkeeping

  lemma {:induction false} SeedsLeaveNoRow(d: Rows, campaign: nat, ids: seq<PackId>)
    ensures RecordAll(d, campaign, ids) == RecordAll(d, campaign, Recovery.ContactIds(ids))
  {
    if ids != [] {
      var rest, last := ids[..|ids| - 1], ids[|ids| - 1];
      SeedsLeaveNoRow(d, campaign, rest);
      var cs := Recovery.ContactIds(rest);
      assert (cs + [last])[..|cs|] == cs;
    }
  }

  lemma {:induction false} HeldRun(s: State, held: seq<(PackId, PackStatus)>) returns (s': State)
    requires HeldSeen(s, held)
    ensures Reaches(s, s') && s' == s.(rows := ApplyHeld(s.rows, held))
  {
    if held == [] {
      s' := s;
      ReachesItself(s);
    } else {
      var rest, h := held[..|held| - 1], held[|held| - 1];
      var t := HeldRun(s, rest);
      assert h in held;
      if Resolved(h.1) && h.0.ContactPack? {
        s' := Apply(t, DeliverOutcome(h.0, h.1));
        ReachesBy(t, DeliverOutcome(h.0, h.1), s');
        ReachesOn(s, t, s');
      } else {
        s' := t;
      }
    }
  }

  /** Recording what was acknowledged, then applying what the cloud held. */
  lemma RecordRun(s: State, p: nat, y: Press, ids: seq<PackId>, n: nat, held: seq<(PackId, PackStatus)>, commits: bool) returns (s': State)
    requires PressAt(s, p) == y && y.Pushing? && y.acked <= |y.plan| && n <= |ids| && y.plan == Recovery.ContactIds(ids)
    requires y.acked == ContactCount(ids, n) && HeldSeen(s, held)
    ensures Reaches(s, s') && s'.cloud == s.cloud && s'.camps == s.camps
    ensures s'.rows == match RecordAll(s.rows, y.c, ids[..n])
      case Some(d) => if commits then ApplyHeld(d, held) else s.rows
      case None => s.rows
  {
    ContactPart(ids, n, n);
    SeedsLeaveNoRow(s.rows, y.c, ids[..n]);
    var t := if commits then Record(p) else Drop(p);
    var u := Apply(s, t);
    ReachesBy(s, t, u);
    if commits && RecordAll(s.rows, y.c, ids[..n]).Some? {
      s' := HeldRun(u, held);
      ReachesOn(s, u, s');
    } else {
      s' := u;
    }
  }

  lemma BookRun(s: State, p: nat, x: Press, ids: seq<PackId>, outcome: PushOutcome, commits: bool) returns (s': State)
    requires Told(s, PressAt(s, p), x, ids, outcome) && x.plan == Recovery.ContactIds(ids)
    ensures Reaches(s, s') && s'.cloud == s.cloud && s'.camps == s.camps
    ensures s'.rows == Booked(s.rows, x.c, ids, outcome, commits).0
  {
    match outcome
    case Refused =>
      s' := s;
      ReachesItself(s);
    case Interrupted(pushed, held) =>
      s' := RecordRun(s, p, PressAt(s, p), ids, pushed, held, commits);
    case Complete(ack) =>
      assert ids[..|ids|] == ids;
      s' := RecordRun(s, p, PressAt(s, p), ids, |ids|, ack.held, commits);
  }

  /**
   Whatever requests are lost, part-stored or answered, and whether or not the transaction commits: what the
   press's loops do to the rows and to the cloud's table, some run of the protocol does.
   */
  lemma PushAndRecordIsARun(s: State, p: nat, packs: seq<PackIn>, chunk: nat, fate: nat -> Fate, commits: bool, now: int) returns (s': State)
    requires chunk > 0 && OwnCampaign(packs)
    requires var x := PressAt(s, p); x.Pushing? && x.plan == Recovery.ContactIds(IdsOf(packs)) && x.sent == 0 && x.acked == 0
    ensures Reaches(s, s') && s'.camps == s.camps
    ensures var e := PressEffect(s.rows, s.cloud.packs, PressAt(s, p).c, packs, chunk, fate, commits, now);
      s'.rows == e.0 && s'.cloud.packs == e.1
  {
    var x := PressAt(s, p);
    assert IdsOf(packs)[..0] == [];
    var t := PushRun(s, p, x, packs, 0, NO_ACK, chunk, fate, now);
    var (m', outcome) := PushFrom(s.cloud.packs, packs, 0, NO_ACK, chunk, fate, now);
    s' := BookRun(t, p, x, IdsOf(packs), outcome, commits);
    ReachesOn(s, t, s');
  }

  /** A batch press of an idle terminal, from reading the queued rows to recording, is a run of the protocol. */
  lemma BatchPressIsARun(s: State, p: nat, c: nat, cands: seq<Candidate>, blocked: map<nat, string>, packs: seq<PackIn>,
                         chunk: nat, fate: nat -> Fate, commits: bool, now: int) returns (s': State)
    requires Enabled(s, SelectBatch(p, c, cands)) && chunk > 0 && OwnCampaign(packs)
    requires Recovery.ContactIds(IdsOf(packs)) == Ids(PlanOf(JobsOf(s.rows.jobs, c), blocked, c, KeyFor(s.camps[c].gen), cands).sends)
    ensures Reaches(s, s') && s'.camps == s.camps
    ensures var e := PressEffect(s.rows, s.cloud.packs, c, packs, chunk, fate, commits, now); s'.rows == e.0 && s'.cloud.packs == e.1
  {
    var t := Apply(s, SelectBatch(p, c, cands));
    var u := Apply(t, PlanStep(p, blocked));
    ReachesBy(s, SelectBatch(p, c, cands), t);
    ReachesBy(t, PlanStep(p, blocked), u);
    ReachesOn(s, t, u);
    s' := PushAndRecordIsARun(u, p, packs, chunk, fate, commits, now);
    ReachesOn(s, u, s');
  }
}
