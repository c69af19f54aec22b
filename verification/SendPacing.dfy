/**
 How far apart the sends of one sender are. The schedule is told by its emitted times, by which sender emitted each,
 and by the gaps drawn, without the loop that computes it.
 */
module SendPacing {
  import opened SendSchedule

  /** The date has taken its share: a positive cap is reached, or the cap is negative. */
  predicate Crowd(cfg: Config, times: seq<int>, d: int) { cfg.dailyCap != 0 && OnDay(cfg.cal, times, d) >= cfg.dailyCap }

  /** From the end of date d a sender came to u: the opening of a later date, every date between having been full. */
  ghost predicate Later(cfg: Config, times: seq<int>, d: int, u: int) {
    var e := cfg.cal.date(u);
    d < e && u == cfg.cal.open(e) && forall f :: d < f < e ==> Crowd(cfg, times, f)
  }

  predicate Rushed(cfg: Config, t: int) { t >= cfg.cal.close(cfg.cal.date(t)) - cfg.rushTail * 60 * SECOND }

  /** The gap drawn after the i-th send, which was at t. */
  function Drawn(cfg: Config, draws: Draws, i: nat, t: int): int { if Rushed(cfg, t) then draws.rush(i) else draws.calm(i) }

  /** A sender whose i-th send was at t stands at u next: one gap on, or at a later opening if that gap reaches the close or the date is full. */
  ghost predicate Goes(cfg: Config, draws: Draws, times: seq<int>, i: nat, t: int, u: int) {
    var d, g := cfg.cal.date(t), Drawn(cfg, draws, i, t);
    if cfg.cal.date(u) == d then u == t + g && u < cfg.cal.close(d)
    else Later(cfg, times, d, u) && (t + g >= cfg.cal.close(d) || Crowd(cfg, times, d))
  }

  /** The k-th sender first stands at u: staggered by its share of jitterMin in the first window, or at a later opening. */
  ghost predicate Starts(cfg: Config, after: int, times: seq<int>, k: nat, u: int) {
    var first := NextWindow(cfg.cal, after).t;
    var d := cfg.cal.date(first);
    var t := first + k * cfg.jitterMin * SECOND / Max(cfg.senderCount, 1);
    if t < cfg.cal.close(d) then u == t || (Crowd(cfg, times, d) && Later(cfg, times, d, u)) else Later(cfg, times, d, u)
  }

  predicate Consecutive(who: seq<nat>, i: nat, j: nat) {
    i < j < |who| && who[i] == who[j] && forall m :: i < m < j ==> who[m] != who[i]
  }

  predicate LastOf(who: seq<nat>, i: nat, k: nat) { i < |who| && who[i] == k && forall m :: i < m < |who| ==> who[m] != k }

  predicate Unsent(who: seq<nat>, k: nat) { forall m :: 0 <= m < |who| ==> who[m] != k }

  predicate First(who: seq<nat>, j: nat) { j < |who| && forall m :: 0 <= m < j ==> who[m] != who[j] }

  ghost predicate SentPaced(cfg: Config, draws: Draws, after: int, times: seq<int>, who: seq<nat>) {
    && |who| == |times|
    && (forall i: nat, j: nat :: Consecutive(who, i, j) ==> Goes(cfg, draws, times, i, times[i], times[j]))
    && (forall j: nat :: First(who, j) ==> Starts(cfg, after, times, who[j], times[j]))
  }

  ghost predicate CursorsPaced(cfg: Config, draws: Draws, after: int, times: seq<int>, who: seq<nat>, cs: seq<Cursor>) {
    && |who| == |times|
    && (forall i: nat, k: nat :: k < |cs| && LastOf(who, i, k) ==> Goes(cfg, draws, times, i, times[i], cs[k].t))
    && (forall k: nat :: k < |cs| && Unsent(who, k) ==> Starts(cfg, after, times, k, cs[k].t))
  }

  ghost predicate PacedSoFar(cfg: Config, draws: Draws, after: int, p: Progress) {
    SentPaced(cfg, draws, after, p.times, p.who) && CursorsPaced(cfg, draws, after, p.times, p.who, p.cursors)
  }

  lemma ConsecutiveSnoc(who: seq<nat>, k: nat, i: nat, j: nat)
    requires Consecutive(who + [k], i, j)
    ensures if j < |who| then Consecutive(who, i, j) else j == |who| && LastOf(who, i, k)
  {
    assert forall m :: 0 <= m < |who| ==> (who + [k])[m] == who[m];
  }

  lemma LastSnoc(who: seq<nat>, k: nat, i: nat, j: nat)
    requires LastOf(who + [k], i, j)
    ensures if i < |who| then j != k && LastOf(who, i, j) else i == |who| && j == k
  {
    assert forall m :: 0 <= m < |who| ==> (who + [k])[m] == who[m];
    assert (who + [k])[|who|] == k;
  }

  lemma UnsentSnoc(who: seq<nat>, k: nat, j: nat)
    requires Unsent(who + [k], j)
    ensures j != k && Unsent(who, j)
  {
    assert forall m :: 0 <= m < |who| ==> (who + [k])[m] == who[m];
    assert (who + [k])[|who|] == k;
  }

  lemma FirstSnoc(who: seq<nat>, k: nat, j: nat)
    requires First(who + [k], j)
    ensures if j < |who| then First(who, j) else j == |who| && Unsent(who, k)
  {
    assert forall m :: 0 <= m < |who| ==> (who + [k])[m] == who[m];
  }

  // Dates only fill up

  lemma CrowdStays(cfg: Config, times: seq<int>, t: int, d: int)
    requires Crowd(cfg, times, d)
    ensures Crowd(cfg, times + [t], d)
  {
    assert (times + [t])[..|times|] == times;
  }

  lemma LaterStays(cfg: Config, times: seq<int>, t: int, d: int, u: int)
    requires Later(cfg, times, d, u)
    ensures Later(cfg, times + [t], d, u)
  {
    forall f | d < f < cfg.cal.date(u) ensures Crowd(cfg, times + [t], f) { CrowdStays(cfg, times, t, f); }
  }

  lemma GoesStays(cfg: Config, draws: Draws, times: seq<int>, t: int, i: nat, from: int, u: int)
    requires Goes(cfg, draws, times, i, from, u)
    ensures Goes(cfg, draws, times + [t], i, from, u)
  {
    var d := cfg.cal.date(from);
    if cfg.cal.date(u) != d {
      LaterStays(cfg, times, t, d, u);
      if Crowd(cfg, times, d) { CrowdStays(cfg, times, t, d); }
    }
  }

  lemma StartsStays(cfg: Config, after: int, times: seq<int>, t: int, k: nat, u: int)
    requires Starts(cfg, after, times, k, u)
    ensures Starts(cfg, after, times + [t], k, u)
  {
    var d := cfg.cal.date(NextWindow(cfg.cal, after).t);
    if Later(cfg, times, d, u) { LaterStays(cfg, times, t, d, u); }
    if Crowd(cfg, times, d) { CrowdStays(cfg, times, t, d); }
  }

  // A roll off a full date

  lemma LaterRolls(cfg: Config, times: seq<int>, d: int, u: int)
    requires cfg.cal.Valid() && (u == cfg.cal.open(cfg.cal.date(u)) && Later(cfg, times, d, u)) && Crowd(cfg, times, cfg.cal.date(u))
    ensures Later(cfg, times, d, cfg.cal.open(cfg.cal.date(u) + 1))
  {
    RollEntersNextDate(cfg.cal, cfg.cal.date(u));
  }

  lemma GoesRolls(cfg: Config, draws: Draws, times: seq<int>, i: nat, from: int, u: int)
    requires cfg.cal.Valid() && Goes(cfg, draws, times, i, from, u) && Crowd(cfg, times, cfg.cal.date(u))
    ensures Goes(cfg, draws, times, i, from, cfg.cal.open(cfg.cal.date(u) + 1))
  {
    RollEntersNextDate(cfg.cal, cfg.cal.date(u));
    if cfg.cal.date(u) != cfg.cal.date(from) { LaterRolls(cfg, times, cfg.cal.date(from), u); }
  }

  lemma StartsRolls(cfg: Config, after: int, times: seq<int>, k: nat, u: int)
    requires cfg.cal.Valid() && cfg.Usable() && Starts(cfg, after, times, k, u) && Crowd(cfg, times, cfg.cal.date(u))
    ensures Starts(cfg, after, times, k, cfg.cal.open(cfg.cal.date(u) + 1))
  {
    var first := NextWindow(cfg.cal, after).t;
    var d := cfg.cal.date(first);
    RollEntersNextDate(cfg.cal, cfg.cal.date(u));
    if Later(cfg, times, d, u) {
      LaterRolls(cfg, times, d, u);
    } else {
      StaggerInDate(cfg, after, k);
    }
  }

  lemma StaggerInDate(cfg: Config, after: int, k: nat)
    requires cfg.cal.Valid() && cfg.Usable()
    ensures var first := NextWindow(cfg.cal, after).t;
      var t := first + k * cfg.jitterMin * SECOND / Max(cfg.senderCount, 1);
      t < cfg.cal.close(cfg.cal.date(first)) ==> cfg.cal.date(t) == cfg.cal.date(first)
  {
    NextWindowIsLeast(cfg.cal, after);
    assert k * cfg.jitterMin >= 0;
    assert k * cfg.jitterMin * SECOND / Max(cfg.senderCount, 1) >= 0;
  }

  lemma RollPaced(cfg: Config, draws: Draws, after: int, times: seq<int>, who: seq<nat>, cs: seq<Cursor>, k: nat, c: Cursor)
    requires cfg.cal.Valid() && cfg.Usable() && k < |cs| && CursorsPaced(cfg, draws, after, times, who, cs)
    requires var d := cfg.cal.date(cs[k].t); Crowd(cfg, times, d) && c.t == cfg.cal.open(d + 1)
    ensures CursorsPaced(cfg, draws, after, times, who, cs[k := c])
  {
    forall i: nat, j: nat | j < |cs| && LastOf(who, i, j) ensures Goes(cfg, draws, times, i, times[i], cs[k := c][j].t) {
      assert Goes(cfg, draws, times, i, times[i], cs[j].t);
      if j == k { GoesRolls(cfg, draws, times, i, times[i], cs[k].t); }
    }
    forall j: nat | j < |cs| && Unsent(who, j) ensures Starts(cfg, after, times, j, cs[k := c][j].t) {
      assert Starts(cfg, after, times, j, cs[j].t);
      if j == k { StartsRolls(cfg, after, times, k, cs[k].t); }
    }
  }

  // A send

  lemma SendPairs(cfg: Config, draws: Draws, after: int, times: seq<int>, who: seq<nat>, cs: seq<Cursor>, k: nat, i: nat, j: nat)
    requires k < |cs| && SentPaced(cfg, draws, after, times, who) && CursorsPaced(cfg, draws, after, times, who, cs)
    requires Consecutive(who + [k], i, j)
    ensures var ts := times + [cs[k].t]; Goes(cfg, draws, ts, i, ts[i], ts[j])
  {
    ConsecutiveSnoc(who, k, i, j);
    GoesStays(cfg, draws, times, cs[k].t, i, times[i], if j < |who| then times[j] else cs[k].t);
  }

  lemma SendFirst(cfg: Config, draws: Draws, after: int, times: seq<int>, who: seq<nat>, cs: seq<Cursor>, k: nat, j: nat)
    requires k < |cs| && SentPaced(cfg, draws, after, times, who) && CursorsPaced(cfg, draws, after, times, who, cs)
    requires First(who + [k], j)
    ensures var ts := times + [cs[k].t]; Starts(cfg, after, ts, (who + [k])[j], ts[j])
  {
    FirstSnoc(who, k, j);
    StartsStays(cfg, after, times, cs[k].t, if j < |who| then who[j] else k, if j < |who| then times[j] else cs[k].t);
  }

  lemma SendPaced(cfg: Config, draws: Draws, after: int, times: seq<int>, who: seq<nat>, cs: seq<Cursor>, k: nat)
    requires k < |cs| && SentPaced(cfg, draws, after, times, who) && CursorsPaced(cfg, draws, after, times, who, cs)
    ensures SentPaced(cfg, draws, after, times + [cs[k].t], who + [k])
  {
    var ts, ws := times + [cs[k].t], who + [k];
    forall i: nat, j: nat | Consecutive(ws, i, j) ensures Goes(cfg, draws, ts, i, ts[i], ts[j]) {
      SendPairs(cfg, draws, after, times, who, cs, k, i, j);
    }
    forall j: nat | First(ws, j) ensures Starts(cfg, after, ts, ws[j], ts[j]) {
      SendFirst(cfg, draws, after, times, who, cs, k, j);
    }
  }

  lemma MovePaced(cfg: Config, draws: Draws, after: int, times: seq<int>, who: seq<nat>, cs: seq<Cursor>, k: nat, c: Cursor)
    requires k < |cs| && CursorsPaced(cfg, draws, after, times, who, cs)
    requires Goes(cfg, draws, times + [cs[k].t], |times|, cs[k].t, c.t)
    ensures CursorsPaced(cfg, draws, after, times + [cs[k].t], who + [k], cs[k := c])
  {
    var t, ts, ws := cs[k].t, times + [cs[k].t], who + [k];
    forall i: nat, j: nat | j < |cs| && LastOf(ws, i, j) ensures Goes(cfg, draws, ts, i, ts[i], cs[k := c][j].t) {
      LastSnoc(who, k, i, j);
      if i < |who| { GoesStays(cfg, draws, times, t, i, times[i], cs[j].t); }
    }
    forall j: nat | j < |cs| && Unsent(ws, j) ensures Starts(cfg, after, ts, j, cs[k := c][j].t) {
      UnsentSnoc(who, k, j);
      StartsStays(cfg, after, times, t, j, cs[j].t);
    }
  }

  /** The loop body moves a sender on by the gap it draws, or to the next opening. */
  lemma SendGoesOn(cfg: Config, draws: Draws, times: seq<int>, i: nat, s: Cursor)
    requires cfg.cal.Valid() && cfg.Usable() && draws.For(cfg) && CursorOk(cfg.cal, s)
    ensures Goes(cfg, draws, times, i, s.t, Advance(cfg, s, Gap(cfg, draws, s, i)).t)
  {
    var d := cfg.cal.date(s.t);
    AdvanceOk(cfg, draws, s, i);
    RollEntersNextDate(cfg.cal, d);
  }

  lemma CloseRolls(cal: Calendar, s: Cursor)
    requires cal.Valid() && CursorOk(cal, s)
    ensures NextWindow(cal, s.close).t == cal.open(cal.date(s.t) + 1)
  {
    RollEntersNextDate(cal, cal.date(s.t));
  }

  lemma FullPaced(cfg: Config, draws: Draws, after: int, times: seq<int>, who: seq<nat>, cs: seq<Cursor>, k: nat)
    requires cfg.cal.Valid() && cfg.Usable() && k < |cs| && CursorsPaced(cfg, draws, after, times, who, cs)
    requires CursorOk(cfg.cal, cs[k]) && Crowd(cfg, times, cfg.cal.date(cs[k].t))
    ensures CursorsPaced(cfg, draws, after, times, who, cs[k := NextWindow(cfg.cal, cs[k].close)])
  {
    CloseRolls(cfg.cal, cs[k]);
    RollPaced(cfg, draws, after, times, who, cs, k, NextWindow(cfg.cal, cs[k].close));
  }

  lemma EmitPaced(cfg: Config, draws: Draws, after: int, p: Progress, k: nat, d: int)
    requires cfg.cal.Valid() && cfg.Usable() && draws.For(cfg) && k < |p.cursors| && PacedSoFar(cfg, draws, after, p)
    requires CursorOk(cfg.cal, p.cursors[k])
    ensures PacedSoFar(cfg, draws, after, Emitted(p, k, d, Advance(cfg, p.cursors[k], Gap(cfg, draws, p.cursors[k], |p.times|))))
  {
    var s := p.cursors[k];
    SendGoesOn(cfg, draws, p.times + [s.t], |p.times|, s);
    SendPaced(cfg, draws, after, p.times, p.who, p.cursors, k);
    MovePaced(cfg, draws, after, p.times, p.who, p.cursors, k, Advance(cfg, s, Gap(cfg, draws, s, |p.times|)));
  }

  lemma StepPacedAll(cfg: Config, draws: Draws, after: int, p: Progress)
    requires cfg.cal.Valid() && cfg.Usable() && draws.For(cfg) && Sound(cfg, after, p) && PacedSoFar(cfg, draws, after, p)
    ensures PacedSoFar(cfg, draws, after, Step(cfg, draws, p))
  {
    var k := Earliest(p.cursors);
    var d := cfg.cal.date(p.cursors[k].t);
    assert CursorOk(cfg.cal, p.cursors[k]) && CountAt(p.counts, d) == OnDay(cfg.cal, p.times, d);
    if Full(cfg, p, d) {
      FullPaced(cfg, draws, after, p.times, p.who, p.cursors, k);
    } else {
      EmitPaced(cfg, draws, after, p, k, d);
    }
  }

  lemma StartsHere(cfg: Config, after: int, k: nat)
    requires cfg.cal.Valid() && cfg.Usable()
    ensures Starts(cfg, after, [], k, StartCursor(cfg, after, k).t)
  {
    var w := NextWindow(cfg.cal, after);
    NextWindowIsLeast(cfg.cal, after);
    RollEntersNextDate(cfg.cal, cfg.cal.date(w.t));
  }

  lemma {:induction false} LoopPacedAll(cfg: Config, draws: Draws, n: nat, after: int, p: Progress)
    requires cfg.cal.Valid() && cfg.Usable() && draws.For(cfg) && Sound(cfg, after, p)
    requires PacedSoFar(cfg, draws, after, p)
    ensures PacedSoFar(cfg, draws, after, Loop(cfg, draws, n, p))
    decreases Limit(n) - p.guard
  {
    if !(|p.times| >= n || p.guard + 1 > Limit(n)) {
      StepSound(cfg, draws, after, p);
      StepPacedAll(cfg, draws, after, p);
      LoopPacedAll(cfg, draws, n, after, Step(cfg, draws, p));
    }
  }

  /** Who emitted each time of the schedule. */
  function Emitters(cfg: Config, draws: Draws, n: nat, after: int): seq<nat> { Loop(cfg, draws, n, Begin(cfg, after)).who }

  lemma ScheduleIsPaced(cfg: Config, draws: Draws, n: nat, after: int)
    requires cfg.cal.Valid() && cfg.Usable() && draws.For(cfg)
    ensures |Emitters(cfg, draws, n, after)| == |SendTimes(cfg, draws, n, after)|
    ensures SentPaced(cfg, draws, after, SendTimes(cfg, draws, n, after), Emitters(cfg, draws, n, after))
  {
    var p := Begin(cfg, after);
    BeginSound(cfg, after);
    forall k: nat | k < |p.cursors| ensures Starts(cfg, after, p.times, k, p.cursors[k].t) { StartsHere(cfg, after, k); }
    LoopPacedAll(cfg, draws, n, after, p);
  }

  /**
   Two consecutive sends of one sender in one window lie between jitterMin and jitterMax seconds apart, in either order
   of the two, when the first is before the last rushTail minutes of the window, and between half and one and a half
   rushJitter when it is not.
   */
  lemma GapsKept(cfg: Config, draws: Draws, n: nat, after: int, i: nat, j: nat)
    requires cfg.cal.Valid() && cfg.Usable() && draws.For(cfg) && Consecutive(Emitters(cfg, draws, n, after), i, j)
    ensures |Emitters(cfg, draws, n, after)| == |SendTimes(cfg, draws, n, after)|
    ensures var t, u := SendTimes(cfg, draws, n, after)[i], SendTimes(cfg, draws, n, after)[j];
      var close := cfg.cal.close(cfg.cal.date(t));
      cfg.cal.date(u) == cfg.cal.date(t) ==>
        && u < close
        && if t < close - cfg.rushTail * 60 * SECOND
           then Min(cfg.jitterMin, cfg.jitterMax) * SECOND <= u - t <= Max(cfg.jitterMin, cfg.jitterMax) * SECOND
           else cfg.rushJitter * SECOND / 2 <= u - t <= cfg.rushJitter * SECOND * 3 / 2
  {
    ScheduleIsPaced(cfg, draws, n, after);
    var ts := SendTimes(cfg, draws, n, after);
    ConsecutiveGoes(cfg, draws, after, ts, Emitters(cfg, draws, n, after), i, j);
    if cfg.cal.date(ts[j]) == cfg.cal.date(ts[i]) { GoesInGap(cfg, draws, ts, i, ts[i], ts[j]); }
  }

  lemma ConsecutiveGoes(cfg: Config, draws: Draws, after: int, times: seq<int>, who: seq<nat>, i: nat, j: nat)
    requires SentPaced(cfg, draws, after, times, who) && Consecutive(who, i, j)
    ensures Goes(cfg, draws, times, i, times[i], times[j])
  {
  }

  lemma GoesInGap(cfg: Config, draws: Draws, times: seq<int>, i: nat, t: int, u: int)
    requires draws.For(cfg) && Goes(cfg, draws, times, i, t, u) && cfg.cal.date(u) == cfg.cal.date(t)
    ensures var close := cfg.cal.close(cfg.cal.date(t));
      && u < close
      && if t < close - cfg.rushTail * 60 * SECOND
         then Min(cfg.jitterMin, cfg.jitterMax) * SECOND <= u - t <= Max(cfg.jitterMin, cfg.jitterMax) * SECOND
         else cfg.rushJitter * SECOND / 2 <= u - t <= cfg.rushJitter * SECOND * 3 / 2
  {
  }

  /** The gap drawn at t reached the close or the date of t was full, as was every date before that of u, an opening. */
  ghost predicate LeftWhenOver(cfg: Config, draws: Draws, times: seq<int>, i: nat, t: int, u: int) {
    var d := cfg.cal.date(t);
    && Later(cfg, times, d, u)
    && (t + (if t < cfg.cal.close(d) - cfg.rushTail * 60 * SECOND then draws.calm(i) else draws.rush(i)) >= cfg.cal.close(d)
        || Crowd(cfg, times, d))
  }

  /**
   A sender leaves a window only because the gap it drew there reaches the close or the date is full; it is next heard
   of at the opening of a later date, every date between being full.
   */
  lemma WindowsLeftOnlyWhenOver(cfg: Config, draws: Draws, n: nat, after: int, i: nat, j: nat)
    requires cfg.cal.Valid() && cfg.Usable() && draws.For(cfg) && Consecutive(Emitters(cfg, draws, n, after), i, j)
    ensures |Emitters(cfg, draws, n, after)| == |SendTimes(cfg, draws, n, after)|
    ensures var ts := SendTimes(cfg, draws, n, after);
      cfg.cal.date(ts[i]) != cfg.cal.date(ts[j]) ==> LeftWhenOver(cfg, draws, ts, i, ts[i], ts[j])
  {
    ScheduleIsPaced(cfg, draws, n, after);
    var ts := SendTimes(cfg, draws, n, after);
    ConsecutiveGoes(cfg, draws, after, ts, Emitters(cfg, draws, n, after), i, j);
    if cfg.cal.date(ts[i]) != cfg.cal.date(ts[j]) { GoesLater(cfg, draws, ts, i, ts[i], ts[j]); }
  }

  lemma GoesLater(cfg: Config, draws: Draws, times: seq<int>, i: nat, t: int, u: int)
    requires Goes(cfg, draws, times, i, t, u) && cfg.cal.date(u) != cfg.cal.date(t)
    ensures LeftWhenOver(cfg, draws, times, i, t, u)
  {
  }

  /** The first send of the k-th sender is its share of jitterMin into the first window, or at a later opening if that lies past the close or the dates before are full. */
  lemma FirstSends(cfg: Config, draws: Draws, n: nat, after: int, j: nat)
    requires cfg.cal.Valid() && cfg.Usable() && draws.For(cfg) && First(Emitters(cfg, draws, n, after), j)
    ensures |Emitters(cfg, draws, n, after)| == |SendTimes(cfg, draws, n, after)|
    ensures var ts, k := SendTimes(cfg, draws, n, after), Emitters(cfg, draws, n, after)[j];
      var first := NextWindow(cfg.cal, after).t;
      var d, e := cfg.cal.date(first), cfg.cal.date(ts[j]);
      || ts[j] == first + k * cfg.jitterMin * SECOND / Max(cfg.senderCount, 1)
      || (d < e && ts[j] == cfg.cal.open(e)
          && (first + k * cfg.jitterMin * SECOND / Max(cfg.senderCount, 1) >= cfg.cal.close(d)
              || (cfg.dailyCap != 0 && OnDay(cfg.cal, ts, d) >= cfg.dailyCap)))
  {
    ScheduleIsPaced(cfg, draws, n, after);
    assert Starts(cfg, after, SendTimes(cfg, draws, n, after), Emitters(cfg, draws, n, after)[j], SendTimes(cfg, draws, n, after)[j]);
  }
}
