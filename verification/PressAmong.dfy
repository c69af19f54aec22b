/**
 A press's push and bookkeeping while other presses, outcomes and the cloud act between its requests, and before it
 records. What the press learns is what its loop computes from the tables its requests met.
 */
module PressAmong {
  import opened PackIds
  import opened PackStore
  import opened Desk
  import opened Terminal
  import opened SendProtocol
  import opened PressRuns
  import Recovery

  /** A step of press p itself. */
  predicate OfPress(t: Step, p: nat) {
    match t
    case SelectBatch(q, _, _) => q == p
    case SelectStage(q, _, _, _) => q == p
    case ClaimRelaunch(q, _, _) => q == p
    case SelectRelaunch(q, _) => q == p
    case OpenRelaunch(q) => q == p
    case PlanStep(q, _) => q == p
    case SendChunk(q, _) => q == p
    case Ack(q) => q == p
    case Record(q) => q == p
    case CloseRelaunch(q) => q == p
    case Drop(q) => q == p
    case _ => false
  }

  ghost predicate OtherNext(s: State, s': State, p: nat) { exists t :: Enabled(s, t) && s' == Apply(s, t) && !OfPress(t, p) }

  ghost predicate OthersPath(tr: seq<State>, s: State, s': State, p: nat) {
    && |tr| > 0 && tr[0] == s && tr[|tr| - 1] == s'
    && forall i :: 0 <= i < |tr| - 1 ==> OtherAt(tr, i, p)
  }

  ghost predicate OtherAt(tr: seq<State>, i: nat, p: nat)
    requires i + 1 < |tr|
  {
    OtherNext(tr[i], tr[i + 1], p)
  }

  /** s' is reached from s without a step of press p. */
  ghost predicate OthersReach(s: State, s': State, p: nat) { exists tr :: OthersPath(tr, s, s', p) }

  /** What others may not change about press p, and what they only add to. */
  ghost predicate Untouched(s: State, s': State, p: nat) {
    Reaches(s, s') && PressAt(s', p) == PressAt(s, p) && s.seen <= s'.seen
  }

  lemma OtherStepKeeps(s: State, s': State, p: nat)
    requires OtherNext(s, s', p)
    ensures Untouched(s, s', p)
  {
    var t :| Enabled(s, t) && s' == Apply(s, t) && !OfPress(t, p);
    ReachesBy(s, t, s');
    StepKeepsPress(s, t, p);
  }

  lemma StepKeepsPress(s: State, t: Step, p: nat)
    requires Enabled(s, t) && !OfPress(t, p)
    ensures PressAt(Apply(s, t), p) == PressAt(s, p) && s.seen <= Apply(s, t).seen
  {
  }

  lemma UntouchedOn(s: State, t: State, u: State, p: nat)
    requires Untouched(s, t, p) && Untouched(t, u, p)
    ensures Untouched(s, u, p)
  {
    ReachesOn(s, t, u);
  }

  lemma {:induction false} PathKeeps(tr: seq<State>, p: nat, k: nat)
    requires k < |tr| && forall i :: 0 <= i < |tr| - 1 ==> OtherAt(tr, i, p)
    ensures Untouched(tr[0], tr[k], p)
  {
    if k == 0 {
      ReachesItself(tr[0]);
    } else {
      PathKeeps(tr, p, k - 1);
      assert OtherAt(tr, k - 1, p);
      OtherStepKeeps(tr[k - 1], tr[k], p);
      UntouchedOn(tr[0], tr[k - 1], tr[k], p);
    }
  }

  lemma OthersKeep(s: State, s': State, p: nat)
    requires OthersReach(s, s', p)
    ensures Untouched(s, s', p)
  {
    var tr :| OthersPath(tr, s, s', p);
    PathKeeps(tr, p, |tr| - 1);
  }

  /** What the others do when the press has reached pack i and the world stands at s: anything but a step of the press. */
  ghost predicate Foreign(others: (nat, State) -> State, p: nat) { forall i, s :: OthersReach(s, others(i, s), p) }

  /** One request: the state it met and the state it left. */
  datatype Request = Request(met: State, left: State)

  /** The requests of a push from pack i on: others act, then the next chunk is stored, in part if its answer is lost. */
  predicate Served(reqs: seq<Request>, s: State, s': State, packs: seq<PackIn>, i: nat, chunk: nat, fate: nat -> Fate, now: int,
                   others: (nat, State) -> State)
    requires i <= |packs| && chunk > 0
    decreases |packs| - i
  {
    if i == |packs| then reqs == [] && s' == s
    else
      var upto := Min(i + chunk, |packs|);
      && reqs != [] && reqs[0].met == others(i, s)
      && match fate(i)
         case Lost(landed) =>
           && |reqs| == 1 && s' == reqs[0].left
           && s'.cloud.packs == Intake(reqs[0].met.cloud.packs, packs[i..Min(i + landed, upto)], now).0
         case Answered =>
           && reqs[0].left.cloud.packs == Intake(reqs[0].met.cloud.packs, packs[i..upto], now).0
           && Served(reqs[1..], reqs[0].left, s', packs, upto, chunk, fate, now, others)
  }

  /** What the press's loop makes of the answers, each computed on the table its request met. */
  function Learnt(reqs: seq<Request>, packs: seq<PackIn>, i: nat, agg: Ack, chunk: nat, fate: nat -> Fate, now: int): PushOutcome
    requires i <= |packs| && chunk > 0
    decreases |packs| - i
  {
    if i == |packs| || reqs == [] then Complete(agg)
    else
      var upto := Min(i + chunk, |packs|);
      match fate(i)
      case Lost(_) => if i > 0 then Interrupted(i, agg.held) else Refused
      case Answered =>
        Learnt(reqs[1..], packs, upto, Plus(agg, Intake(reqs[0].met.cloud.packs, packs[i..upto], now).1), chunk, fate, now)
  }

  lemma HeldStays(s: State, s': State, held: seq<(PackId, PackStatus)>)
    requires HeldSeen(s, held) && s.seen <= s'.seen
    ensures HeldSeen(s', held)
  {
  }

  lemma ServedMore(rest: seq<Request>, s: State, t: State, s': State, packs: seq<PackIn>, i: nat, agg: Ack, chunk: nat,
                   fate: nat -> Fate, now: int, others: (nat, State) -> State)
    requires i < |packs| && chunk > 0 && fate(i).Answered?
    requires t.cloud.packs == Intake(others(i, s).cloud.packs, packs[i..Min(i + chunk, |packs|)], now).0
    requires Served(rest, t, s', packs, Min(i + chunk, |packs|), chunk, fate, now, others)
    ensures var reqs := [Request(others(i, s), t)] + rest;
      var a := Intake(others(i, s).cloud.packs, packs[i..Min(i + chunk, |packs|)], now).1;
      && Served(reqs, s, s', packs, i, chunk, fate, now, others)
      && Learnt(reqs, packs, i, agg, chunk, fate, now) == Learnt(rest, packs, Min(i + chunk, |packs|), Plus(agg, a), chunk, fate, now)
  {
    assert ([Request(others(i, s), t)] + rest)[1..] == rest;
  }

  lemma {:induction false} PushAmong(s: State, p: nat, x: Press, packs: seq<PackIn>, i: nat, agg: Ack, chunk: nat, fate: nat -> Fate, now: int,
                                     others: (nat, State) -> State)
      returns (s': State, reqs: seq<Request>)
    requires i <= |packs| && chunk > 0 && AtChunk(s, p, x, IdsOf(packs), i) && OwnCampaign(packs) && HeldSeen(s, agg.held)
    requires Foreign(others, p)
    ensures Reaches(s, s') && Served(reqs, s, s', packs, i, chunk, fate, now, others)
    ensures Told(s', PressAt(s', p), x, IdsOf(packs), Learnt(reqs, packs, i, agg, chunk, fate, now))
    decreases |packs| - i
  {
    if i == |packs| {
      s', reqs := s, [];
      PushOver(s, p, x, packs, agg);
    } else {
      var u := others(i, s);
      OthersKeep(s, u, p);
      HeldStays(s, u, agg.held);
      var upto := Min(i + chunk, |packs|);
      match fate(i)
      case Lost(landed) =>
        s' := ChunkLost(u, p, x, packs, i, agg, Min(i + landed, upto), upto, now);
        reqs := [Request(u, s')];
        ReachesOn(s, u, s');
      case Answered =>
        var t := ChunkAnswered(u, p, x, packs, i, upto, now);
        var a := Intake(u.cloud.packs, packs[i..upto], now).1;
        var rest;
        s', rest := PushAmong(t, p, x, packs, upto, Plus(agg, a), chunk, fate, now, others);
        reqs := [Request(u, t)] + rest;
        ServedMore(rest, s, t, s', packs, i, agg, chunk, fate, now, others);
        ReachesOn(s, u, t);
        ReachesOn(s, t, s');
    }
  }

  /**
   Whatever others do between the requests and before the bookkeeping, and whatever is lost: the press's push and
   record is a run of the protocol, its table writes are its requests' intakes, and it books by what it learnt.
   */
  lemma PushAndRecordAmongOthers(s: State, p: nat, packs: seq<PackIn>, chunk: nat, fate: nat -> Fate, commits: bool, now: int,
                                 others: (nat, State) -> State)
      returns (s': State, pushed: State, reqs: seq<Request>)
    requires chunk > 0 && OwnCampaign(packs) && Foreign(others, p)
    requires var x := PressAt(s, p); x.Pushing? && x.plan == Recovery.ContactIds(IdsOf(packs)) && x.sent == 0 && x.acked == 0
    ensures Reaches(s, s') && Served(reqs, s, pushed, packs, 0, chunk, fate, now, others)
    ensures var found := others(|packs|, pushed);
      && s'.cloud == found.cloud && s'.camps == found.camps
      && s'.rows == Booked(found.rows, PressAt(s, p).c, IdsOf(packs), Learnt(reqs, packs, 0, NO_ACK, chunk, fate, now), commits).0
  {
    var x := PressAt(s, p);
    assert IdsOf(packs)[..0] == [];
    pushed, reqs := PushAmong(s, p, x, packs, 0, NO_ACK, chunk, fate, now, others);
    var found := others(|packs|, pushed);
    OthersKeep(pushed, found, p);
    var outcome := Learnt(reqs, packs, 0, NO_ACK, chunk, fate, now);
    ToldStays(pushed, found, p, x, IdsOf(packs), outcome);
    s' := BookRun(found, p, x, IdsOf(packs), outcome, commits);
    ReachesOn(s, pushed, found);
    ReachesOn(s, found, s');
  }

  lemma ToldStays(s: State, s': State, p: nat, x: Press, ids: seq<PackId>, outcome: PushOutcome)
    requires Told(s, PressAt(s, p), x, ids, outcome) && PressAt(s', p) == PressAt(s, p) && s.seen <= s'.seen
    ensures Told(s', PressAt(s', p), x, ids, outcome)
  {
  }

  /** With nobody else acting, the requests and what they teach are those of the terminal's push. */
  lemma {:induction false} ServedAlone(reqs: seq<Request>, s: State, s': State, packs: seq<PackIn>, i: nat, agg: Ack, chunk: nat,
                                       fate: nat -> Fate, now: int, others: (nat, State) -> State)
    requires i <= |packs| && chunk > 0 && Served(reqs, s, s', packs, i, chunk, fate, now, others)
    requires forall k, u :: others(k, u) == u
    ensures PushFrom(s.cloud.packs, packs, i, agg, chunk, fate, now) == (s'.cloud.packs, Learnt(reqs, packs, i, agg, chunk, fate, now))
    decreases |packs| - i
  {
    if i < |packs| && fate(i).Answered? {
      var upto := Min(i + chunk, |packs|);
      var a := Intake(reqs[0].met.cloud.packs, packs[i..upto], now).1;
      ServedAlone(reqs[1..], reqs[0].left, s', packs, upto, Plus(agg, a), chunk, fate, now, others);
    }
  }
}
