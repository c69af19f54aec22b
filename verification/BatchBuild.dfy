/** Salting a batch with seed addresses and pairing the targets with their send times. */
module BatchBuild {
  import opened PackIds
  import opened PackStore
  import opened Desk
  import opened Terminal
  import opened Recovery
  import SS = SendSchedule

  datatype Target<+R, +S> = Recip(r: R) | Seed(s: S)

  function Least(a: nat, b: nat): nat { if a <= b then a else b }

  function Wrap<R, S>(rs: seq<R>): (ts: seq<Target<R, S>>)
    ensures |ts| == |rs| && forall i :: 0 <= i < |ts| ==> ts[i] == Recip(rs[i])
  {
    seq(|rs|, i requires 0 <= i < |rs| => Recip(rs[i]))
  }

  function StepFor(recips: nat, seeds: nat): nat
    requires seeds > 0
  {
    if recips / seeds > 1 then recips / seeds else 1
  }

  /** How many of n recipients precede the i-th seed: a step more for each seed, as long as they last. */
  function Before(n: nat, step: nat, i: nat): (b: nat)
    ensures b <= n
  {
    if i == 0 then 0 else Least(Before(n, step, i - 1) + step, n)
  }

  lemma BeforeGrows(n: nat, step: nat, i: nat)
    ensures Before(n, step, i) <= Before(n, step, i + 1)
  {
  }

  lemma {:induction false} BeforeIs(n: nat, step: nat, i: nat)
    ensures Before(n, step, i) == Least(i * step, n)
  {
    if i > 0 {
      BeforeIs(n, step, i - 1);
      assert i * step == (i - 1) * step + step;
    }
  }

  /** A seed and its share of the recipients. */
  function Block<R, S>(x: S, rs: seq<R>): seq<Target<R, S>> { [Seed(x)] + Wrap(rs) }

  function Share<R>(rs: seq<R>, step: nat, i: nat): seq<R> {
    BeforeGrows(|rs|, step, i);
    rs[Before(|rs|, step, i)..Before(|rs|, step, i + 1)]
  }

  /** The first k seeds, each followed by its share of the recipients. */
  function Woven<R, S>(rs: seq<R>, ss: seq<S>, step: nat, k: nat): seq<Target<R, S>>
    requires k <= |ss|
  {
    if k == 0 then [] else Woven(rs, ss, step, k - 1) + Block(ss[k - 1], Share(rs, step, k - 1))
  }

  lemma {:induction false} WovenLength<R, S>(rs: seq<R>, ss: seq<S>, step: nat, k: nat)
    requires k <= |ss|
    ensures |Woven(rs, ss, step, k)| == k + Before(|rs|, step, k)
  {
    if k > 0 {
      WovenLength(rs, ss, step, k - 1);
      BeforeGrows(|rs|, step, k - 1);
    }
  }

  /** The salted batch in closed form. */
  function Salted<R, S>(rs: seq<R>, ss: seq<S>): seq<Target<R, S>> {
    if ss == [] then Wrap(rs)
    else
      var step := StepFor(|rs|, |ss|);
      Woven(rs, ss, step, |ss|) + Wrap(rs[Before(|rs|, step, |ss|)..])
  }

  /** The clamped insertion index is exactly the end of what is woven so far. */
  lemma InsertionPoint(n: nat, step: nat, i: nat)
    ensures Least(i * (step + 1), n + i) == i + Before(n, step, i)
  {
  }

  lemma InsertOne<R, S>(rs: seq<R>, ss: seq<S>, step: nat, i: nat, targets: seq<Target<R, S>>)
    requires i < |ss| && targets == Woven(rs, ss, step, i) + Wrap(rs[Before(|rs|, step, i)..])
    ensures |targets| == |rs| + i
    ensures var at := i + Before(|rs|, step, i);
            && at <= |targets|
            && targets[..at] + [Seed(ss[i])] + targets[at..] == Woven(rs, ss, step, i + 1) + Wrap(rs[Before(|rs|, step, i + 1)..])
  {
    var lo, hi := Before(|rs|, step, i), Before(|rs|, step, i + 1);
    var w := Woven(rs, ss, step, i);
    BeforeGrows(|rs|, step, i);
    WovenLength(rs, ss, step, i);
    WrapSplit<R, S>(rs, lo, hi);
    Splice(w, Wrap<R, S>(rs[lo..hi]), Wrap<R, S>(rs[hi..]), Seed(ss[i]), targets, i + lo);
  }

  lemma Splice<T>(w: seq<T>, a: seq<T>, b: seq<T>, x: T, all: seq<T>, at: nat)
    requires all == w + (a + b) && at == |w|
    ensures all[..at] + [x] + all[at..] == (w + ([x] + a)) + b
  {
  }

  lemma WrapSplit<R, S>(rs: seq<R>, lo: nat, hi: nat)
    requires lo <= hi <= |rs|
    ensures Wrap<R, S>(rs[lo..]) == Wrap<R, S>(rs[lo..hi]) + Wrap<R, S>(rs[hi..])
  {
  }

  /** Seeds are inserted one by one at i * (step + 1), clamped to the end of the growing list. */
  method SaltSeeds<R, S>(rs: seq<R>, ss: seq<S>) returns (targets: seq<Target<R, S>>)
    ensures targets == Salted(rs, ss)
  {
    targets := Wrap(rs);
    if ss == [] {
      return;
    }
    var step := StepFor(|rs|, |ss|);
    assert rs[0..] == rs;
    for i := 0 to |ss|
      invariant targets == Woven(rs, ss, step, i) + Wrap(rs[Before(|rs|, step, i)..])
    {
      InsertionPoint(|rs|, step, i);
      InsertOne(rs, ss, step, i, targets);
      var at := Least(i * (step + 1), |targets|);
      targets := targets[..at] + [Seed(ss[i])] + targets[at..];
    }
  }

  function Recips<R, S>(ts: seq<Target<R, S>>): seq<R> {
    if ts == [] then []
    else if ts[|ts| - 1].Recip? then Recips(ts[..|ts| - 1]) + [ts[|ts| - 1].r] else Recips(ts[..|ts| - 1])
  }

  function Seeds<R, S>(ts: seq<Target<R, S>>): seq<S> {
    if ts == [] then []
    else if ts[|ts| - 1].Seed? then Seeds(ts[..|ts| - 1]) + [ts[|ts| - 1].s] else Seeds(ts[..|ts| - 1])
  }

  lemma {:induction false} PartsJoin<R, S>(a: seq<Target<R, S>>, b: seq<Target<R, S>>)
    ensures Recips(a + b) == Recips(a) + Recips(b) && Seeds(a + b) == Seeds(a) + Seeds(b)
  {
    if b == [] {
      assert a + b == a;
    } else {
      var n := |b| - 1;
      assert (a + b)[..|a + b| - 1] == a + b[..n];
      PartsJoin(a, b[..n]);
    }
  }

  lemma {:induction false} PartsOfWrap<R, S>(rs: seq<R>)
    ensures Recips(Wrap<R, S>(rs)) == rs && Seeds(Wrap<R, S>(rs)) == []
  {
    if rs != [] {
      var n := |rs| - 1;
      assert Wrap<R, S>(rs)[..n] == Wrap<R, S>(rs[..n]);
      PartsOfWrap<R, S>(rs[..n]);
    }
  }

  lemma PartsOfBlock<R, S>(x: S, rs: seq<R>)
    ensures Recips(Block(x, rs)) == rs && Seeds(Block(x, rs)) == [x]
  {
    var seed: seq<Target<R, S>> := [Seed(x)];
    PartsJoin(seed, Wrap(rs));
    PartsOfWrap<R, S>(rs);
    assert seed[..0] == [];
    assert Recips(seed) == [] && Seeds(seed) == [x];
  }

  lemma PartsSnoc<R, S>(w: seq<Target<R, S>>, x: S, rs: seq<R>)
    ensures Recips(w + Block(x, rs)) == Recips(w) + rs && Seeds(w + Block(x, rs)) == Seeds(w) + [x]
  {
    PartsJoin(w, Block(x, rs));
    PartsOfBlock<R, S>(x, rs);
  }

  lemma {:induction false} PartsOfWoven<R, S>(rs: seq<R>, ss: seq<S>, step: nat, k: nat)
    requires k <= |ss|
    ensures Recips(Woven(rs, ss, step, k)) == rs[..Before(|rs|, step, k)] && Seeds(Woven(rs, ss, step, k)) == ss[..k]
  {
    if k == 0 {
      PartsOfNothing<R, S>(Woven(rs, ss, step, 0));
      assert rs[..0] == [] && ss[..0] == [];
    } else {
      PartsOfWoven(rs, ss, step, k - 1);
      WovenStep(rs, ss, step, k);
    }
  }

  lemma PartsOfNothing<R, S>(ts: seq<Target<R, S>>)
    requires ts == []
    ensures Recips(ts) == [] && Seeds(ts) == []
  {
  }

  lemma WovenStep<R, S>(rs: seq<R>, ss: seq<S>, step: nat, k: nat)
    requires 0 < k <= |ss|
    requires Recips(Woven(rs, ss, step, k - 1)) == rs[..Before(|rs|, step, k - 1)] && Seeds(Woven(rs, ss, step, k - 1)) == ss[..k - 1]
    ensures Recips(Woven(rs, ss, step, k)) == rs[..Before(|rs|, step, k)] && Seeds(Woven(rs, ss, step, k)) == ss[..k]
  {
    var w, b := Woven(rs, ss, step, k - 1), Share(rs, step, k - 1);
    SharesJoin(rs, step, k - 1);
    WovenGrows(ss, k, w, b, rs[..Before(|rs|, step, k - 1)], rs[..Before(|rs|, step, k)], w + Block(ss[k - 1], b));
  }

  lemma WovenGrows<R, S>(ss: seq<S>, k: nat, w: seq<Target<R, S>>, b: seq<R>, before: seq<R>, after: seq<R>, all: seq<Target<R, S>>)
    requires 0 < k <= |ss| && Seeds(w) == ss[..k - 1] && Recips(w) == before
    requires all == w + Block(ss[k - 1], b) && after == before + b
    ensures Recips(all) == after && Seeds(all) == ss[..k]
  {
    PartsSnoc(w, ss[k - 1], b);
    assert Seeds(w) + [ss[k - 1]] == ss[..k];
  }

  lemma SharesJoin<R>(rs: seq<R>, step: nat, i: nat)
    ensures rs[..Before(|rs|, step, i)] + Share(rs, step, i) == rs[..Before(|rs|, step, i + 1)]
  {
  }

  /** Salting interleaves: recipients keep their order, and every recipient and every seed appears once. */
  lemma SaltedInterleaves<R, S>(rs: seq<R>, ss: seq<S>)
    ensures Recips(Salted(rs, ss)) == rs && Seeds(Salted(rs, ss)) == ss && |Salted(rs, ss)| == |rs| + |ss|
  {
    PartsOfWrap<R, S>(rs);
    if ss != [] {
      var step := StepFor(|rs|, |ss|);
      var done := Before(|rs|, step, |ss|);
      PartsOfWoven(rs, ss, step, |ss|);
      WovenLength(rs, ss, step, |ss|);
      PartsOfWrap<R, S>(rs[done..]);
      PartsJoin(Woven(rs, ss, step, |ss|), Wrap(rs[done..]));
      assert rs[..done] + rs[done..] == rs && ss[..|ss|] == ss;
    }
  }

  /** With at least as many recipients as seeds the clamp never bites: exactly step recipients follow each seed. */
  lemma EvenSpacing<R, S>(rs: seq<R>, ss: seq<S>, step: nat, i: nat, lo: nat)
    requires |rs| >= |ss| > i && step == |rs| / |ss| && lo == i * step
    ensures step >= 1 && lo + step <= |rs| && i + lo + 1 + step <= |Salted(rs, ss)|
    ensures Salted(rs, ss)[i + lo] == Seed(ss[i])
    ensures Salted(rs, ss)[i + lo + 1..i + lo + 1 + step] == Wrap(rs[lo..lo + step])
  {
    StepIsQuotient(|rs|, |ss|);
    WholeShare(rs, |ss|, step, i, lo);
    SpacedFrom(rs, ss, step, i, lo);
    BlockReads(Salted(rs, ss), ss[i], rs[lo..lo + step], i + lo);
  }

  lemma BlockReads<R, S>(ts: seq<Target<R, S>>, x: S, rs: seq<R>, at: nat)
    requires at + 1 + |rs| <= |ts| && ts[at..at + 1 + |rs|] == Block(x, rs)
    ensures ts[at] == Seed(x) && ts[at + 1..at + 1 + |rs|] == Wrap(rs)
  {
    var part := ts[at..at + 1 + |rs|];
    assert part[0] == ts[at] && part[1..] == ts[at + 1..at + 1 + |rs|];
  }

  lemma SpacedFrom<R, S>(rs: seq<R>, ss: seq<S>, step: nat, i: nat, lo: nat)
    requires i < |ss| && step == StepFor(|rs|, |ss|) && lo + step <= |rs| && Before(|rs|, step, i) == lo
    requires Share(rs, step, i) == rs[lo..lo + step]
    ensures i + lo + 1 + step <= |Salted(rs, ss)|
    ensures Salted(rs, ss)[i + lo..i + lo + 1 + step] == Block(ss[i], rs[lo..lo + step])
  {
    WovenPrefix(rs, ss, step, i + 1, |ss|);
    BlockAt(rs, ss, step, i, lo, rs[lo..lo + step]);
  }

  lemma WholeShare<R>(rs: seq<R>, s: nat, step: nat, i: nat, lo: nat)
    requires i < s <= |rs| && step == |rs| / s && lo == i * step
    ensures lo + step <= |rs| && Before(|rs|, step, i) == lo && Share(rs, step, i) == rs[lo..lo + step]
  {
    SpacingBefore(|rs|, s, i);
  }

  /** Each share is a whole step. */
  lemma SpacingBefore(r: nat, s: nat, i: nat)
    requires s > 0 && i < s
    ensures i * (r / s) + r / s <= r
    ensures Before(r, r / s, i) == i * (r / s) && Before(r, r / s, i + 1) == i * (r / s) + r / s
  {
    SpacingFits(r, s, i);
    var q := r / s;
    BeforeIs(r, q, i);
  }

  lemma StepIsQuotient(r: nat, s: nat)
    requires 0 < s <= r
    ensures r / s >= 1 && StepFor(r, s) == r / s
  {
  }

  lemma BlockAt<R, S>(rs: seq<R>, ss: seq<S>, step: nat, i: nat, lo: nat, share: seq<R>)
    requires i < |ss| && step == StepFor(|rs|, |ss|) && lo == Before(|rs|, step, i) && share == Share(rs, step, i)
    requires Woven(rs, ss, step, i + 1) <= Woven(rs, ss, step, |ss|)
    ensures i + lo + 1 + |share| <= |Salted(rs, ss)| && Salted(rs, ss)[i + lo..i + lo + 1 + |share|] == Block(ss[i], share)
  {
    WovenLength(rs, ss, step, i);
    var a, b := Woven(rs, ss, step, i), Block(ss[i], share);
    var all := Salted(rs, ss);
    assert a + b <= Woven(rs, ss, step, |ss|) <= all;
    assert all[..|a + b|] == a + b;
  }

  lemma SpacingFits(r: nat, s: nat, i: nat)
    requires s > 0 && i < s
    ensures i * (r / s) + r / s <= r
  {
    var q := r / s;
    assert s * q <= r;
    assert i * q + q == (i + 1) * q;
    SS.MulMono(q, i + 1, s);
  }

  lemma {:induction false} WovenPrefix<R, S>(rs: seq<R>, ss: seq<S>, step: nat, i: nat, k: nat)
    requires i <= k <= |ss|
    ensures Woven(rs, ss, step, i) <= Woven(rs, ss, step, k)
    decreases k
  {
    if i < k { WovenPrefix(rs, ss, step, i, k - 1); }
  }

  // Pairing targets with send times

  function IdOfTarget(t: Target<PackId, nat>): PackId { if t.Recip? then t.r else SeedPack(t.s) }

  /** zip stops at the shorter of the two lists. */
  function Paired(campaign: nat, ts: seq<Target<PackId, nat>>, sendAts: seq<int>): (packs: seq<PackIn>)
    ensures |packs| == Least(|ts|, |sendAts|)
    ensures forall i :: 0 <= i < |packs| ==> packs[i] == PackIn(IdOfTarget(ts[i]), campaign, sendAts[i])
  {
    var n := Least(|ts|, |sendAts|);
    seq(n, i requires 0 <= i < n => PackIn(IdOfTarget(ts[i]), campaign, sendAts[i]))
  }

  method BuildPacks(campaign: nat, ts: seq<Target<PackId, nat>>, sendAts: seq<int>) returns (packs: seq<PackIn>)
    ensures packs == Paired(campaign, ts, sendAts)
  {
    packs := [];
    var i := 0;
    while i < |ts| && i < |sendAts|
      invariant i <= |ts| && i <= |sendAts| && |packs| == i
      invariant forall j :: 0 <= j < i ==> packs[j] == PackIn(IdOfTarget(ts[j]), campaign, sendAts[j])
    {
      packs := packs + [PackIn(IdOfTarget(ts[i]), campaign, sendAts[i])];
      i := i + 1;
    }
  }

  lemma {:induction false} ContactIdsOfTargets(ids: seq<PackId>, ts: seq<Target<PackId, nat>>)
    requires |ids| == |ts| && forall i :: 0 <= i < |ts| ==> ids[i] == IdOfTarget(ts[i])
    requires forall i :: 0 <= i < |ts| && ts[i].Recip? ==> ts[i].r.ContactPack?
    ensures ContactIds(ids) == Recips(ts)
  {
    if ids != [] { ContactIdsOfTargets(ids[..|ids| - 1], ts[..|ts| - 1]); }
  }

  lemma {:induction false} RecipsAre(ts: seq<Target<PackId, nat>>, i: nat)
    requires i < |ts| && ts[i].Recip?
    ensures ts[i].r in Recips(ts)
    decreases |ts|
  {
    if i < |ts| - 1 { RecipsAre(ts[..|ts| - 1], i); }
  }

  /** With enough send times the packs are the planned ids in order, each once, seeds woven in. */
  lemma EveryTargetIsPacked(campaign: nat, ids: seq<PackId>, seeds: seq<nat>, sendAts: seq<int>)
    requires |sendAts| == |ids| + |seeds| && forall id <- ids :: id.ContactPack?
    ensures var packs := Paired(campaign, Salted(ids, seeds), sendAts);
            && |packs| == |ids| + |seeds|
            && ContactIds(IdsOf(packs)) == ids
  {
    var ts := Salted(ids, seeds);
    SaltedInterleaves(ids, seeds);
    var packs := Paired(campaign, ts, sendAts);
    forall i | 0 <= i < |ts| && ts[i].Recip? ensures ts[i].r.ContactPack? {
      RecipsAre(ts, i);
    }
    ContactIdsOfTargets(IdsOf(packs), ts);
  }

  lemma ScheduleIsLongEnough(cfg: SS.Config, draws: SS.Draws, n: nat, after: int)
    requires cfg.cal.Valid() && cfg.Usable() && draws.For(cfg) && SS.Enough(cfg.senderCount, cfg.dailyCap, n)
    ensures |SS.Floors(SS.SendTimes(cfg, draws, n, after))| == n
  {
    SS.EnoughGivesN(cfg, draws, n, after);
  }

  lemma PairedPressesPlan(j: Job, r: Rows, seeds: seq<nat>, sendAts: seq<int>, chunk: ChunkSize, fate: nat -> Fate, commits: bool, now: int)
    requires j.Valid() && |sendAts| == |j.PlanNow(r).sends| + |seeds|
    ensures Presses(j, r, Attempt(Paired(j.campaign, Salted(Ids(j.PlanNow(r).sends), seeds), sendAts), chunk, fate, commits, now))
  {
    var ids := Ids(j.PlanNow(r).sends);
    PlanIsDue(j, r);
    forall id | id in ids ensures id.ContactPack? {
      assert j.Owns(id);
    }
    EveryTargetIsPacked(j.campaign, ids, seeds, sendAts);
  }

  /** A batch press built from a schedule whose guard cannot fire pushes exactly the plan. */
  lemma BatchPressesPlan(j: Job, r: Rows, seeds: seq<nat>, n: nat, cfg: SS.Config, draws: SS.Draws, after: int, chunk: ChunkSize,
                         fate: nat -> Fate, commits: bool, now: int)
    requires j.Valid() && cfg.cal.Valid() && cfg.Usable() && draws.For(cfg)
    requires n == |j.PlanNow(r).sends| + |seeds| && SS.Enough(cfg.senderCount, cfg.dailyCap, n)
    ensures Presses(j, r, Attempt(Paired(j.campaign, Salted(Ids(j.PlanNow(r).sends), seeds), SS.Floors(SS.SendTimes(cfg, draws, n, after))),
                                  chunk, fate, commits, now))
  {
    ScheduleIsLongEnough(cfg, draws, n, after);
    PairedPressesPlan(j, r, seeds, SS.Floors(SS.SendTimes(cfg, draws, n, after)), chunk, fate, commits, now);
  }

  /** Every target of the batch gets a pack, whatever the calendar, the gaps and the start. */
  ghost predicate NoneDropped(campaign: nat, ids: seq<PackId>, seeds: seq<nat>, senderCount: int, dailyCap: int) {
    forall cfg: SS.Config, draws: SS.Draws, after: int ::
      cfg.senderCount == senderCount && cfg.dailyCap == dailyCap && cfg.cal.Valid() && cfg.Usable() && draws.For(cfg) ==>
        |PackedBatch(campaign, ids, seeds, cfg, draws, after)| == |Salted(ids, seeds)|
  }

  function PackedBatch(campaign: nat, ids: seq<PackId>, seeds: seq<nat>, cfg: SS.Config, draws: SS.Draws, after: int): seq<PackIn> {
    Paired(campaign, Salted(ids, seeds), SS.Floors(SS.SendTimes(cfg, draws, |ids| + |seeds|, after)))
  }

  /** Targets are dropped without a word exactly when the settings are not enough for the batch. */
  lemma ShortScheduleDropsTargets(campaign: nat, ids: seq<PackId>, seeds: seq<nat>, senderCount: int, dailyCap: int)
    ensures NoneDropped(campaign, ids, seeds, senderCount, dailyCap) <==> SS.Enough(senderCount, dailyCap, |ids| + |seeds|)
  {
    var n := |ids| + |seeds|;
    if SS.Enough(senderCount, dailyCap, n) {
      forall cfg: SS.Config, draws: SS.Draws, after: int |
        cfg.senderCount == senderCount && cfg.dailyCap == dailyCap && cfg.cal.Valid() && cfg.Usable() && draws.For(cfg)
        ensures |PackedBatch(campaign, ids, seeds, cfg, draws, after)| == |Salted(ids, seeds)|
      {
        SS.EnoughGivesN(cfg, draws, n, after);
        PackedPerTime(campaign, ids, seeds, SS.SendTimes(cfg, draws, n, after));
      }
    } else {
      var cfg, draws, after := SS.TightFails(senderCount, dailyCap, n);
      PackedPerTime(campaign, ids, seeds, SS.SendTimes(cfg, draws, n, after));
      SS.AtMostN(cfg, draws, n, after);
      assert |PackedBatch(campaign, ids, seeds, cfg, draws, after)| != |Salted(ids, seeds)|;
    }
  }

  lemma PackedPerTime(campaign: nat, ids: seq<PackId>, seeds: seq<nat>, times: seq<int>)
    ensures |Salted(ids, seeds)| == |ids| + |seeds|
    ensures |Paired(campaign, Salted(ids, seeds), SS.Floors(times))| == Least(|ids| + |seeds|, |times|)
  {
    SaltedInterleaves(ids, seeds);
    assert |SS.Floors(times)| == |times|;
  }
}
