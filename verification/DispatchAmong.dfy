/**
 A whole dispatcher invocation while other workers, sweeps, cancels and deliveries act between any two of its own
 steps. Its own steps are those of Worker.Handle, cut where it touches the cloud: claim, post, final write. The read
 before a claim is one step with it: a pack that either finds not pending is skipped.
 */
module DispatchAmong {
  import opened PackIds
  import opened PackStore
  import opened Dispatcher
  import CM = CloudMachine

  /**
   The invocation at record k. What it holds is the worker's state in the cloud; visited, posts, replies and accepted are the
   worker's own lists, and wrote the final statuses it gave packs.
   */
  datatype Exec = Exec(cloud: CM.Cloud, k: nat, stopped: bool, results: Results,
                       visited: seq<PackId>, posts: seq<PackId>, replies: seq<CM.Reply>, accepted: seq<PackId>,
                       wrote: seq<(PackId, PackStatus)>)

  ghost predicate HonestEnv(env: Env) { forall n :: env.answer(n).Honest() }

  /** What the invocation holds is a claim of its current record. */
  predicate Fit(w: nat, records: seq<Record>, m: Exec) {
    && CM.Inv(m.cloud) && m.k <= |records|
    && (CM.WorkerAt(m.cloud, w) != CM.Idle ==>
          !m.stopped && m.k < |records| && records[m.k] == Message(CM.WorkerAt(m.cloud, w).id))
  }

  predicate Live(records: seq<Record>, m: Exec) { !m.stopped && m.k < |records| }

  /** The record is done with. */
  function Past(m: Exec, c: CM.Cloud, id: PackId, status: PackStatus): Exec {
    m.(cloud := c, k := m.k + 1, visited := m.visited + [id], wrote := m.wrote + [(id, status)],
       stopped := status == Unknown,
       results := if status == Unknown then m.results else m.results.(processed := m.results.processed + 1))
  }

  /** What the invocation does with a pack it has claimed. */
  datatype Choice = GiveUp(status: PackStatus, keepPayload: bool) | Send

  function Choose(env: Env, step: nat, id: PackId): Choice {
    if !env.keyPresent(step) then GiveUp(StuckNoKey, true)
    else match env.body(id)
      case Garbled => GiveUp(Failed, false)
      case Plain(hasApiKey, _) => if hasApiKey then Send else GiveUp(Failed, false)
  }

  lemma HoldersAreInTable(c: CM.Cloud, w: nat)
    requires CM.Inv(c) && CM.WorkerAt(c, w) != CM.Idle
    ensures CM.WorkerAt(c, w).id in c.packs
    ensures CM.WorkerAt(c, w).Answered? ==> Resolved(CM.WorkerAt(c, w).status)
  {
    assert c.workers[w] != CM.Idle;
  }

  /** The invocation's next own step; it is always there to be taken. */
  function Own(env: Env, w: nat, records: seq<Record>, m: Exec): Exec
    requires HonestEnv(env) && Fit(w, records, m) && Live(records, m)
  {
    match CM.WorkerAt(m.cloud, w)
    case Idle => TakeRecord(env, w, records[m.k], m)
    case Holding(id) =>
      HoldersAreInTable(m.cloud, w);
      (match Choose(env, |m.visited|, id)
       case GiveUp(status, keep) => Past(m, CM.Apply(m.cloud, CM.GiveUpStep(w, status, keep, env.now)), id, status)
       case Send => Posted(m, w, id, env.answer(|m.posts|)))
    case Answered(id, status) =>
      HoldersAreInTable(m.cloud, w);
      Past(m, CM.Apply(m.cloud, CM.FinaliseStep(w, env.now)), id, status)
  }

  function TakeRecord(env: Env, w: nat, r: Record, m: Exec): Exec
    requires CM.WorkerAt(m.cloud, w).Idle?
  {
    match r
    case Malformed => m.(k := m.k + 1, results := m.results.(failed := m.results.failed + 1))
    case Message(id) =>
      if IsPending(m.cloud.packs, id) then m.(cloud := CM.Apply(m.cloud, CM.ClaimStep(w, id, env.now)))
      else m.(k := m.k + 1, visited := m.visited + [id], results := m.results.(skipped := m.results.skipped + 1))
  }

  function Posted(m: Exec, w: nat, id: PackId, a: CM.Answer): Exec
    requires CM.WorkerAt(m.cloud, w).Holding? && a.Honest()
  {
    m.(cloud := CM.Apply(m.cloud, CM.PostStep(w, a)), posts := m.posts + [id], replies := m.replies + [a.reply],
       accepted := if a.accepted then m.accepted + [id] else m.accepted)
  }

  // Interleaved executions

  ghost predicate Moves(env: Env, w: nat, records: seq<Record>, m: Exec, m': Exec) {
    || (HonestEnv(env) && Fit(w, records, m) && Live(records, m) && m' == Own(env, w, records, m))
    || (OthersNext(m.cloud, m'.cloud, w) && m' == m.(cloud := m'.cloud))
  }

  predicate Begins(w: nat, m: Exec) {
    CM.Inv(m.cloud) && CM.WorkerAt(m.cloud, w).Idle? && m.k == 0 && !m.stopped && m.results == Results(0, 0, 0) && m.wrote == []
  }

  ghost predicate Among(env: Env, w: nat, records: seq<Record>, ms: seq<Exec>) {
    && |ms| > 0 && HonestEnv(env) && Begins(w, ms[0])
    && forall i :: 0 <= i < |ms| - 1 ==> MovesAt(env, w, records, ms, i)
  }

  ghost predicate MovesAt(env: Env, w: nat, records: seq<Record>, ms: seq<Exec>, i: nat)
    requires i + 1 < |ms|
  {
    Moves(env, w, records, ms[i], ms[i + 1])
  }

  /** Every record behind k was counted and, if well-formed, visited, once. */
  predicate Accounted(records: seq<Record>, m0: Exec, m: Exec) {
    && m.k <= |records| && m.visited == m0.visited + Ids(records[..m.k])
    && m.results.processed + m.results.skipped + m.results.failed + (if m.stopped then 1 else 0) == m.k
    && m.results.failed == m.k - |Ids(records[..m.k])|
    && (m.stopped ==> m.k > 0 && records[m.k - 1].Message? && m.wrote != [] && m.wrote[|m.wrote| - 1] == (records[m.k - 1].id, Unknown))
  }

  /** A final status the invocation wrote is the pack's status still. */
  predicate WroteHolds(m: Exec) {
    forall e <- m.wrote :: e.0 in m.cloud.packs && (e.1 != Unknown ==> e.1 in {Sent, Failed, StuckNoKey} && m.cloud.packs[e.0].status == e.1)
  }

  /** What the invocation posted is in the cloud's log of posts, no pack twice. */
  predicate PostsLogged(m0: Exec, m: Exec) {
    && m0.posts <= m.posts && CM.Distinct(m.posts[|m0.posts|..])
    && (forall id <- m.posts[|m0.posts|..] :: id in m.cloud.posts)
  }

  predicate Good(w: nat, records: seq<Record>, m0: Exec, m: Exec) {
    Fit(w, records, m) && Accounted(records, m0, m) && WroteHolds(m) && PostsLogged(m0, m)
  }

  // The own steps, one by one

  lemma IdsSnoc(records: seq<Record>, k: nat)
    requires k < |records|
    ensures Ids(records[..k + 1]) == Ids(records[..k]) + if records[k].Message? then [records[k].id] else []
  {
    assert records[..k + 1][..k] == records[..k];
  }

  /** A step of the cloud machine keeps what was written and logged. */
  lemma CloudStepKeeps(m0: Exec, m: Exec, s: CM.Step)
    requires CM.Inv(m.cloud) && CM.Enabled(m.cloud, s) && WroteHolds(m) && PostsLogged(m0, m)
    ensures var m' := m.(cloud := CM.Apply(m.cloud, s)); CM.Inv(m'.cloud) && WroteHolds(m') && PostsLogged(m0, m')
  {
    CM.NextKeepsInv(m.cloud, s);
    CM.NextFollowsEdges(m.cloud, s);
    var c' := CM.Apply(m.cloud, s);
    forall e | e in m.wrote ensures e.0 in c'.packs && (e.1 != Unknown ==> e.1 in {Sent, Failed, StuckNoKey} && c'.packs[e.0].status == e.1) {
      assert CM.StatusEdge(m.cloud.packs[e.0].status, c'.packs[e.0].status);
    }
  }

  lemma ClaimGood(env: Env, w: nat, records: seq<Record>, m0: Exec, m: Exec)
    requires Good(w, records, m0, m) && Live(records, m) && CM.WorkerAt(m.cloud, w).Idle?
    ensures Good(w, records, m0, TakeRecord(env, w, records[m.k], m))
  {
    IdsSnoc(records, m.k);
    if records[m.k].Message? && IsPending(m.cloud.packs, records[m.k].id) {
      CloudStepKeeps(m0, m, CM.ClaimStep(w, records[m.k].id, env.now));
    }
  }

  lemma PostGood(w: nat, records: seq<Record>, m0: Exec, m: Exec, a: CM.Answer)
    requires Good(w, records, m0, m) && Live(records, m) && CM.WorkerAt(m.cloud, w).Holding? && a.Honest()
    ensures Good(w, records, m0, Posted(m, w, CM.WorkerAt(m.cloud, w).id, a))
  {
    var id := CM.WorkerAt(m.cloud, w).id;
    CloudStepKeeps(m0, m, CM.PostStep(w, a));
    var n := |m0.posts|;
    assert (m.posts + [id])[n..] == m.posts[n..] + [id];
    assert id !in m.cloud.posts;
  }

  lemma PastGood(w: nat, records: seq<Record>, m0: Exec, m: Exec, s: CM.Step, status: PackStatus)
    requires Good(w, records, m0, m) && Live(records, m) && CM.WorkerAt(m.cloud, w) != CM.Idle && CM.Enabled(m.cloud, s)
    requires (s.GiveUpStep? && s.w == w && s.status == status) || (s.FinaliseStep? && s.w == w && CM.WorkerAt(m.cloud, w).status == status)
    ensures Good(w, records, m0, Past(m, CM.Apply(m.cloud, s), CM.WorkerAt(m.cloud, w).id, status))
  {
    var id := CM.WorkerAt(m.cloud, w).id;
    HoldersAreInTable(m.cloud, w);
    IdsSnoc(records, m.k);
    CloudStepKeeps(m0, m, s);
    assert CM.Apply(m.cloud, s).packs[id].status == status && CM.WorkerAt(CM.Apply(m.cloud, s), w).Idle?;
    assert status in {Sent, Failed, StuckNoKey, Unknown};
  }

  lemma OwnGood(env: Env, w: nat, records: seq<Record>, m0: Exec, m: Exec)
    requires HonestEnv(env) && Good(w, records, m0, m) && Live(records, m)
    ensures Good(w, records, m0, Own(env, w, records, m))
  {
    match CM.WorkerAt(m.cloud, w)
    case Idle => ClaimGood(env, w, records, m0, m);
    case Holding(id) =>
      HoldersAreInTable(m.cloud, w);
      match Choose(env, |m.visited|, id) {
        case GiveUp(status, keep) => PastGood(w, records, m0, m, CM.GiveUpStep(w, status, keep, env.now), status);
        case Send => PostGood(w, records, m0, m, env.answer(|m.posts|));
      }
    case Answered(id, status) =>
      HoldersAreInTable(m.cloud, w);
      PastGood(w, records, m0, m, CM.FinaliseStep(w, env.now), status);
  }

  // Whole executions

  lemma OthersGood(w: nat, records: seq<Record>, m0: Exec, m: Exec, m': Exec)
    requires Good(w, records, m0, m) && OthersNext(m.cloud, m'.cloud, w) && m' == m.(cloud := m'.cloud)
    ensures Good(w, records, m0, m')
  {
    OthersStep(m.cloud, m'.cloud, w);
    var s :| CM.Enabled(m.cloud, s) && m'.cloud == CM.Apply(m.cloud, s) && ByOther(s, w);
    CloudStepKeeps(m0, m, s);
  }

  lemma StepGood(env: Env, w: nat, records: seq<Record>, ms: seq<Exec>, i: nat, m: Exec, m': Exec)
    requires Among(env, w, records, ms) && i + 1 < |ms| && m == ms[i] && m' == ms[i + 1] && Good(w, records, ms[0], m)
    ensures Good(w, records, ms[0], m') && (m'.cloud == m.cloud || CM.Next(m.cloud, m'.cloud))
  {
    assert MovesAt(env, w, records, ms, i);
    if OthersNext(m.cloud, m'.cloud, w) && m' == m.(cloud := m'.cloud) {
      OthersStep(m.cloud, m'.cloud, w);
      OthersGood(w, records, ms[0], m, m');
    } else {
      OwnGood(env, w, records, ms[0], m);
      OwnIsStep(env, w, records, m);
    }
  }

  /** An own step is a step of the cloud machine, or leaves the cloud alone. */
  lemma OwnIsStep(env: Env, w: nat, records: seq<Record>, m: Exec)
    requires HonestEnv(env) && Fit(w, records, m) && Live(records, m)
    ensures var c' := Own(env, w, records, m).cloud; c' == m.cloud || CM.Next(m.cloud, c')
  {
    var c' := Own(env, w, records, m).cloud;
    match CM.WorkerAt(m.cloud, w)
    case Idle => if c' != m.cloud { StepIsNext(m.cloud, CM.ClaimStep(w, records[m.k].id, env.now)); }
    case Holding(id) =>
      HoldersAreInTable(m.cloud, w);
      match Choose(env, |m.visited|, id) {
        case GiveUp(status, keep) => StepIsNext(m.cloud, CM.GiveUpStep(w, status, keep, env.now));
        case Send => StepIsNext(m.cloud, CM.PostStep(w, env.answer(|m.posts|)));
      }
    case Answered(id, status) =>
      HoldersAreInTable(m.cloud, w);
      StepIsNext(m.cloud, CM.FinaliseStep(w, env.now));
  }

  lemma StepIsNext(c: CM.Cloud, s: CM.Step)
    requires CM.Enabled(c, s)
    ensures CM.Next(c, CM.Apply(c, s))
  {
  }

  /** At every moment, whatever others do: records are counted, final writes stand, and no pack was posted twice. */
  lemma AmongKeeps(env: Env, w: nat, records: seq<Record>, ms: seq<Exec>, i: nat)
    requires Among(env, w, records, ms) && i < |ms|
    ensures Accounted(records, ms[0], ms[i]) && WroteHolds(ms[i]) && PostsLogged(ms[0], ms[i])
    ensures Fit(w, records, ms[i])
  {
    AmongGood(env, w, records, ms, i);
  }

  lemma {:induction false} AmongGood(env: Env, w: nat, records: seq<Record>, ms: seq<Exec>, i: nat)
    requires Among(env, w, records, ms) && i < |ms|
    ensures Good(w, records, ms[0], ms[i])
  {
    if i == 0 {
      StartGood(w, records, ms[0]);
    } else {
      AmongGood(env, w, records, ms, i - 1);
      StepGood(env, w, records, ms, i - 1, ms[i - 1], ms[i]);
    }
  }

  lemma StartGood(w: nat, records: seq<Record>, m: Exec)
    requires Begins(w, m)
    ensures Good(w, records, m, m)
  {
  }

  /** The whole delivery, with whatever happens in between, is a run of the cloud machine. */
  lemma {:induction false} AmongOthersIsARun(env: Env, w: nat, records: seq<Record>, ms: seq<Exec>, i: nat)
    requires Among(env, w, records, ms) && i < |ms|
    ensures Reaches(ms[0].cloud, ms[i].cloud)
  {
    if i == 0 {
      assert Path([ms[0].cloud], ms[0].cloud, ms[0].cloud);
    } else {
      AmongOthersIsARun(env, w, records, ms, i - 1);
      AmongGood(env, w, records, ms, i - 1);
      StepGood(env, w, records, ms, i - 1, ms[i - 1], ms[i]);
      ReachesMore(ms[0].cloud, ms[i - 1].cloud, ms[i].cloud);
    }
  }

  lemma ReachesMore(c: CM.Cloud, d: CM.Cloud, e: CM.Cloud)
    requires Reaches(c, d) && (e == d || CM.Next(d, e))
    ensures Reaches(c, e)
  {
    if e != d {
      assert Path([d, e], d, e);
      ReachesOn(c, d, e);
    }
  }

  /** Own steps still to come, at most. */
  function Left(w: nat, records: seq<Record>, m: Exec): int {
    3 * (|records| - m.k) - match CM.WorkerAt(m.cloud, w) case Idle => 0 case Holding(_) => 1 case Answered(_, _) => 2
  }

  lemma OwnFit(env: Env, w: nat, records: seq<Record>, m: Exec)
    requires HonestEnv(env) && Fit(w, records, m) && Live(records, m)
    ensures var m' := Own(env, w, records, m); Fit(w, records, m') && 0 <= Left(w, records, m') < Left(w, records, m)
  {
    match CM.WorkerAt(m.cloud, w)
    case Idle => if records[m.k].Message? { CM.NextKeepsInv(m.cloud, CM.ClaimStep(w, records[m.k].id, env.now)); }
    case Holding(id) =>
      HoldersAreInTable(m.cloud, w);
      match Choose(env, |m.visited|, id) {
        case GiveUp(status, keep) => CM.NextKeepsInv(m.cloud, CM.GiveUpStep(w, status, keep, env.now));
        case Send => CM.NextKeepsInv(m.cloud, CM.PostStep(w, env.answer(|m.posts|)));
      }
    case Answered(id, status) =>
      HoldersAreInTable(m.cloud, w);
      CM.NextKeepsInv(m.cloud, CM.FinaliseStep(w, env.now));
  }

  /** Nobody can hold the invocation up: until it is over it has a next step, and only its own steps count down. */
  lemma NeverBlocked(env: Env, w: nat, records: seq<Record>, ms: seq<Exec>, i: nat)
    requires Among(env, w, records, ms) && i < |ms| && Live(records, ms[i])
    ensures Fit(w, records, ms[i])
    ensures var m' := Own(env, w, records, ms[i]);
            Moves(env, w, records, ms[i], m') && 0 <= Left(w, records, m') < Left(w, records, ms[i])
    ensures forall c :: OthersNext(ms[i].cloud, c, w) ==> Left(w, records, ms[i].(cloud := c)) == Left(w, records, ms[i])
  {
    AmongKeeps(env, w, records, ms, i);
    OwnFit(env, w, records, ms[i]);
    forall c | OthersNext(ms[i].cloud, c, w) ensures Left(w, records, ms[i].(cloud := c)) == Left(w, records, ms[i]) {
      OthersStep(ms[i].cloud, c, w);
    }
  }

  // With nobody else acting

  function Alone(env: Env, w: nat, records: seq<Record>, m: Exec): Exec
    requires HonestEnv(env) && Fit(w, records, m)
    decreases Left(w, records, m)
  {
    if Live(records, m) then
      OwnFit(env, w, records, m);
      Alone(env, w, records, Own(env, w, records, m))
    else m
  }

  function TraceOf(m: Exec): Trace { Trace(m.cloud.packs, m.visited, m.posts, m.replies, m.accepted) }

  /** What is left of processing a pack once it is claimed; the second part says whether the invocation stops. */
  function AfterClaim(env: Env, t: Trace, id: PackId): (Trace, bool)
    requires id in t.packs
  {
    var t0 := t.(visited := t.visited + [id]);
    match Choose(env, |t.visited|, id)
    case GiveUp(status, keep) => (t0.(packs := Resolve(t.packs, id, status, keep, env.now)), false)
    case Send =>
      var a := env.answer(|t.posts|);
      (t0.(packs := Resolve(t.packs, id, CM.SendStatus(a.reply), false, env.now), posts := t.posts + [id], replies := t.replies + [a.reply],
           accepted := if a.accepted then t.accepted + [id] else t.accepted),
       CM.SendStatus(a.reply) == Unknown)
  }

  lemma ProcessIsAfterClaim(env: Env, t: Trace, id: PackId)
    requires IsPending(t.packs, id)
    ensures var (t', stop) := AfterClaim(env, t.(packs := Claim(t.packs, id, env.now)), id);
      var (u, o) := ProcessOne(env, t, id);
      u == t' && !o.Skipped? && (o.Stopped? <==> stop)
  {
  }

  function Counted(t: Trace, results: Results, stop: bool): Drained {
    Drained(t, if stop then results else results.(processed := results.processed + 1), stop)
  }

  function DrainedOf(m: Exec): Drained { Drained(TraceOf(m), m.results, m.stopped) }

  /** Alone, m gets to m' with its record done with. */
  ghost predicate AloneFrom(env: Env, w: nat, records: seq<Record>, m: Exec, m': Exec)
    requires HonestEnv(env) && Fit(w, records, m)
  {
    && Fit(w, records, m') && m'.k == m.k + 1 && CM.WorkerAt(m'.cloud, w).Idle?
    && Alone(env, w, records, m) == Alone(env, w, records, m')
  }

  lemma AloneAnswered(env: Env, w: nat, records: seq<Record>, m: Exec) returns (m': Exec)
    requires HonestEnv(env) && Fit(w, records, m) && Live(records, m) && CM.WorkerAt(m.cloud, w).Answered?
    ensures AloneFrom(env, w, records, m, m')
    ensures var x := CM.WorkerAt(m.cloud, w);
      DrainedOf(m') == Counted(TraceOf(m).(packs := Resolve(m.cloud.packs, x.id, x.status, false, env.now), visited := m.visited + [x.id]),
                               m.results, x.status == Unknown)
  {
    OwnFit(env, w, records, m);
    m' := Own(env, w, records, m);
  }

  lemma AloneHolding(env: Env, w: nat, records: seq<Record>, m: Exec) returns (m': Exec)
    requires HonestEnv(env) && Fit(w, records, m) && Live(records, m) && CM.WorkerAt(m.cloud, w).Holding?
    ensures AloneFrom(env, w, records, m, m')
    ensures var (t, stop) := AfterClaim(env, TraceOf(m), CM.WorkerAt(m.cloud, w).id); DrainedOf(m') == Counted(t, m.results, stop)
  {
    OwnFit(env, w, records, m);
    m' := Own(env, w, records, m);
    if Choose(env, |m.visited|, CM.WorkerAt(m.cloud, w).id).Send? { m' := AloneAnswered(env, w, records, m'); }
  }

  /** One record, processed alone: one to three own steps. */
  lemma AloneRecord(env: Env, w: nat, records: seq<Record>, m: Exec) returns (m': Exec)
    requires HonestEnv(env) && Fit(w, records, m) && Live(records, m) && CM.WorkerAt(m.cloud, w).Idle?
    ensures AloneFrom(env, w, records, m, m')
    ensures DrainedOf(m') == DrainOne(env, DrainedOf(m), records[m.k])
  {
    OwnFit(env, w, records, m);
    m' := Own(env, w, records, m);
    if records[m.k].Message? && IsPending(m.cloud.packs, records[m.k].id) {
      ProcessIsAfterClaim(env, TraceOf(m), records[m.k].id);
      m' := AloneHolding(env, w, records, m');
    }
  }

  /** With nobody else acting the interleaved invocation does what Handle does, record by record. */
  lemma {:induction false} AloneIsDrain(env: Env, w: nat, records: seq<Record>, m: Exec)
    requires HonestEnv(env) && Begins(w, m)
    ensures var m' := Alone(env, w, records, m);
      DrainedOf(m') == Drain(env, TraceOf(m), records)
  {
    var m' := AloneUpTo(env, w, records, m, |records|);
    assert records[..|records|] == records;
  }

  lemma {:induction false} AloneUpTo(env: Env, w: nat, records: seq<Record>, m: Exec, k: nat) returns (m': Exec)
    requires HonestEnv(env) && Begins(w, m) && k <= |records|
    ensures Fit(w, records, m') && (m'.stopped || m'.k == k) && CM.WorkerAt(m'.cloud, w).Idle?
    ensures Alone(env, w, records, m) == Alone(env, w, records, m')
    ensures DrainedOf(m') == Drain(env, TraceOf(m), records[..k])
  {
    if k == 0 {
      m' := m;
    } else {
      m' := AloneUpTo(env, w, records, m, k - 1);
      DrainSnoc(env, TraceOf(m), records, k - 1);
      if !m'.stopped { m' := AloneRecord(env, w, records, m'); }
    }
  }
}
