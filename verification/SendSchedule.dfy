/**
 Send times for a batch: several cursors walk through daily windows with random gaps, a rush at the end of
 each window, an optional daily cap and a safety guard. Times are whole microseconds; formatting keeps seconds.
 */
module SendSchedule {
  import opened PackIds
  import opened TimeText
  import Desk

  const SECOND := 1_000_000
  const HOUR := 3_600_000_000
  const DAY_LENGTH := 86_400_000_000

  /** The operator's time zone, as far as scheduling sees it: the local date of an instant and each date's window. */
  datatype Calendar = Calendar(date: int -> int, open: int -> int, close: int -> int) {
    /** Windows are nonempty, lie within their own date, open on a whole second, and dates move forward. */
    ghost predicate Valid() {
      && (forall t, u :: t <= u ==> date(t) <= date(u))
      && (forall d :: open(d) < close(d) && open(d) % SECOND == 0)
      && (forall d, t :: open(d) <= t < close(d) ==> date(t) == d)
      && (forall d, t :: date(t) > d ==> close(d) <= t)
      && (forall d, t :: date(t) < d ==> t < open(d))
    }

    predicate InWindow(t: int) { open(date(t)) <= t < close(date(t)) }
  }

  /** A zone without clock changes: the window starts at startHour and lasts windowHours. */
  function FixedZone(startHour: int, windowHours: int): Calendar {
    Calendar(t => t / DAY_LENGTH, d => d * DAY_LENGTH + startHour * HOUR, d => d * DAY_LENGTH + (startHour + windowHours) * HOUR)
  }

  lemma FixedZoneDates(startHour: int, windowHours: int)
    requires 0 <= startHour && 1 <= windowHours && startHour + windowHours <= 24
    ensures FixedZone(startHour, windowHours).Valid()
  {
    var z := FixedZone(startHour, windowHours);
    forall d ensures z.open(d) < z.close(d) && z.open(d) % SECOND == 0 {
      assert z.open(d) == (d * 86400 + startHour * 3600) * SECOND;
    }
    forall d, t | z.open(d) <= t < z.close(d) ensures z.date(t) == d {
      assert d * DAY_LENGTH <= t < d * DAY_LENGTH + DAY_LENGTH;
    }
    forall d, t | z.date(t) > d ensures z.close(d) <= t {
      assert t >= (d + 1) * DAY_LENGTH;
    }
    forall d, t | z.date(t) < d ensures t < z.open(d) {
      assert t < d * DAY_LENGTH;
    }
  }

  lemma FixedZoneNeeds(startHour: int, windowHours: int)
    requires FixedZone(startHour, windowHours).Valid()
    ensures 0 <= startHour && 1 <= windowHours && startHour + windowHours <= 24
  {
    var z := FixedZone(startHour, windowHours);
    var o, c := z.open(0), z.close(0);
    assert o == startHour * HOUR && c == (startHour + windowHours) * HOUR;
    assert o < c;
    assert z.date(o) == 0 && z.date(c - 1) == 0;
    assert o / DAY_LENGTH == 0 && (c - 1) / DAY_LENGTH == 0;
  }

  /** Such a zone fits exactly when the window is nonempty and ends by midnight. */
  lemma FixedZoneFits(startHour: int, windowHours: int)
    ensures FixedZone(startHour, windowHours).Valid() <==> 0 <= startHour && 1 <= windowHours && startHour + windowHours <= 24
  {
    if FixedZone(startHour, windowHours).Valid() {
      FixedZoneNeeds(startHour, windowHours);
    }
    if 0 <= startHour && 1 <= windowHours && startHour + windowHours <= 24 {
      FixedZoneDates(startHour, windowHours);
    }
  }

  function Max(a: int, b: int): int { if a >= b then a else b }

  function Min(a: int, b: int): int { if a <= b then a else b }

  datatype Cursor = Cursor(open: int, close: int, t: int)

  /** The window of a date, entered no earlier than `after`. */
  function Enter(cal: Calendar, d: int, after: int): Cursor { Cursor(cal.open(d), cal.close(d), Max(cal.open(d), after)) }

  function NextWindow(cal: Calendar, after: int): Cursor {
    var d := cal.date(after);
    if cal.close(d) > after then Enter(cal, d, after) else Enter(cal, d + 1, after)
  }

  /** NextWindow is the least in-window instant not before its argument. */
  lemma NextWindowIsLeast(cal: Calendar, after: int)
    requires cal.Valid()
    ensures var w := NextWindow(cal, after);
            && after <= w.t && cal.InWindow(w.t)
            && w.open == cal.open(cal.date(w.t)) && w.close == cal.close(cal.date(w.t))
            && forall t :: after <= t && cal.InWindow(t) ==> w.t <= t
  {
  }

  lemma OpensAscend(cal: Calendar, d: int, e: int)
    requires cal.Valid() && d <= e
    ensures cal.open(d) <= cal.open(e)
    ensures d < e ==> cal.close(d) <= cal.open(e)
  {
    assert cal.date(cal.open(e)) == e;
    assert cal.date(cal.open(d)) == d;
  }

  /** From a window's close the next window is the next date's, at its opening. */
  lemma RollEntersNextDate(cal: Calendar, d: int)
    requires cal.Valid()
    ensures NextWindow(cal, cal.close(d)) == Cursor(cal.open(d + 1), cal.close(d + 1), cal.open(d + 1))
    ensures cal.date(cal.open(d + 1)) == d + 1
  {
  }

  method FindNextWindow(cal: Calendar, after: int) returns (r: Option<Cursor>)
    requires cal.Valid()
    ensures r == Some(NextWindow(cal, after))
  {
    var d := cal.date(after);
    var first := d;
    for i := 0 to 400
      invariant d == first + i && i <= 1
      invariant i == 1 ==> cal.close(first) <= after
    {
      if cal.close(d) > after {
        var start := Max(cal.open(d), after);
        if start < cal.close(d) {
          return Some(Cursor(cal.open(d), cal.close(d), start));
        }
      }
      d := d + 1;
    }
    return None;
  }

  /** The cooldown gate: the next opening strictly after an instant, in whole seconds. */
  method NextWindowOpenAfter(cal: Calendar, after: int) returns (r: Option<int>)
    requires cal.Valid()
    ensures r.Some? && exists d :: r.value == cal.open(d) / SECOND && after < cal.open(d)
                                && forall e :: after < cal.open(e) ==> cal.open(d) <= cal.open(e)
  {
    var d := cal.date(after);
    var first := d;
    for i := 0 to 400
      invariant d == first + i && i <= 1
      invariant i == 1 ==> cal.open(first) <= after
    {
      if cal.open(d) > after {
        forall e ensures after < cal.open(e) ==> cal.open(d) <= cal.open(e) {
          if e >= d {
            OpensAscend(cal, d, e);
          } else if i == 0 {
            assert cal.open(e) < cal.close(e) <= after;
          } else {
            OpensAscend(cal, e, first);
          }
        }
        return Some(cal.open(d) / SECOND);
      }
      d := d + 1;
    }
    return None;
  }

  // The greedy loop, as a step function

  datatype Config = Config(cal: Calendar, senderCount: int, jitterMin: int, jitterMax: int, rushTail: int, rushJitter: int,
                           dailyCap: int) {     // seconds; a cap of 0 is no cap
    function Senders(): nat { Max(senderCount, 1) as nat }

    /** Shortest gaps, in microseconds. */
    function CalmLow(): int { Min(jitterMin, jitterMax) * SECOND }
    function RushLow(): int { rushJitter * SECOND / 2 }

    predicate Usable() { jitterMin >= 0 && jitterMax >= 0 && rushJitter >= 0 }
  }

  /** The random gaps of a run, by how many sends precede them. */
  datatype Draws = Draws(calm: nat -> int, rush: nat -> int) {
    ghost predicate For(cfg: Config) {
      && (forall k :: cfg.CalmLow() <= calm(k) <= Max(cfg.jitterMin, cfg.jitterMax) * SECOND)
      && (forall k :: cfg.RushLow() <= rush(k) <= cfg.rushJitter * SECOND * 3 / 2)
    }
  }

  /** `who` and `rolls` only serve the proofs: which cursor emitted each time, and each cursor's cap rolls. */
  datatype Progress = Progress(cursors: seq<Cursor>, counts: map<int, nat>, times: seq<int>, guard: nat,
                               who: seq<nat>, rolls: seq<nat>)

  function CountAt(counts: map<int, nat>, d: int): nat { if d in counts then counts[d] else 0 }

  /** Index of the first cursor with the least time. */
  function Earliest(cs: seq<Cursor>): (k: nat)
    requires |cs| > 0
    ensures k < |cs| && forall i :: 0 <= i < |cs| ==> cs[k].t <= cs[i].t
  {
    if |cs| == 1 then 0
    else
      var k := Earliest(cs[..|cs| - 1]);
      assert cs[..|cs| - 1][k] == cs[k];
      if cs[|cs| - 1].t < cs[k].t then |cs| - 1 else k
  }

  function Gap(cfg: Config, draws: Draws, s: Cursor, k: nat): int {
    if s.t >= s.close - cfg.rushTail * 60 * SECOND then draws.rush(k) else draws.calm(k)
  }

  predicate Full(cfg: Config, p: Progress, d: int) { cfg.dailyCap != 0 && CountAt(p.counts, d) >= cfg.dailyCap }

  function Advance(cfg: Config, s: Cursor, gap: int): Cursor {
    if s.t + gap >= s.close then NextWindow(cfg.cal, s.close) else s.(t := s.t + gap)
  }

  /** The k-th cursor leaves a full date for the window c. */
  function Rolled(p: Progress, k: nat, c: Cursor): Progress
    requires k < |p.cursors| == |p.rolls|
  {
    p.(cursors := p.cursors[k := c], guard := p.guard + 1, rolls := p.rolls[k := p.rolls[k] + 1])
  }

  /** The k-th cursor emits its time and moves on to c. */
  function Emitted(p: Progress, k: nat, d: int, c: Cursor): Progress
    requires k < |p.cursors|
  {
    p.(cursors := p.cursors[k := c], counts := p.counts[d := CountAt(p.counts, d) + 1],
       times := p.times + [p.cursors[k].t], guard := p.guard + 1, who := p.who + [k])
  }

  function Step(cfg: Config, draws: Draws, p: Progress): Progress
    requires |p.cursors| > 0 && |p.rolls| == |p.cursors|
  {
    var k := Earliest(p.cursors);
    var s := p.cursors[k];
    var d := cfg.cal.date(s.t);
    if Full(cfg, p, d) then Rolled(p, k, NextWindow(cfg.cal, s.close))
    else Emitted(p, k, d, Advance(cfg, s, Gap(cfg, draws, s, |p.times|)))
  }

  function Limit(n: nat): nat { n * 8 + 2000 }

  function Loop(cfg: Config, draws: Draws, n: nat, p: Progress): Progress
    requires |p.cursors| > 0 && |p.rolls| == |p.cursors|
    decreases Limit(n) - p.guard
  {
    if |p.times| >= n || p.guard + 1 > Limit(n) then p else Loop(cfg, draws, n, Step(cfg, draws, p))
  }

  /** Where the i-th cursor starts: staggered by a share of the shortest gap, rolled on if that leaves the window. */
  function StartCursor(cfg: Config, after: int, i: nat): Cursor {
    var w := NextWindow(cfg.cal, after);
    var t := w.t + i * cfg.jitterMin * SECOND / cfg.Senders();
    if t >= w.close then NextWindow(cfg.cal, w.close) else w.(t := t)
  }

  function Begin(cfg: Config, after: int): (p: Progress)
    ensures |p.cursors| == |p.rolls| == cfg.Senders()
  {
    Progress(seq(cfg.Senders(), i requires 0 <= i => StartCursor(cfg, after, i)), map[], [], 0, [],
             seq(cfg.Senders(), i => 0))
  }

  function SendTimes(cfg: Config, draws: Draws, n: nat, after: int): seq<int> { Loop(cfg, draws, n, Begin(cfg, after)).times }

  function Floors(times: seq<int>): (s: seq<int>)
    ensures |s| == |times| && forall i :: 0 <= i < |s| ==> s[i] == times[i] / SECOND
  {
    seq(|times|, i requires 0 <= i < |times| => times[i] / SECOND)
  }

  // What holds throughout the loop

  predicate Ascending(s: seq<int>) { forall i, j :: 0 <= i <= j < |s| ==> s[i] <= s[j] }

  ghost predicate CursorOk(cal: Calendar, s: Cursor) {
    cal.InWindow(s.t) && s.open == cal.open(cal.date(s.t)) && s.close == cal.close(cal.date(s.t))
  }

  function OnDay(cal: Calendar, times: seq<int>, d: int): (n: nat)
    ensures n <= |times|
  {
    if times == [] then 0
    else OnDay(cal, times[..|times| - 1], d) + if cal.date(times[|times| - 1]) == d then 1 else 0
  }

  ghost predicate CursorsSound(cfg: Config, after: int, p: Progress) {
    && |p.cursors| == |p.rolls| == cfg.Senders() && |p.who| == |p.times|
    && (forall i :: 0 <= i < |p.cursors| ==> CursorOk(cfg.cal, p.cursors[i]) && after <= p.cursors[i].t)
    && (forall i, j :: 0 <= i < |p.times| && 0 <= j < |p.cursors| ==> p.times[i] <= p.cursors[j].t)
  }

  predicate TimesSound(cfg: Config, after: int, p: Progress) {
    Ascending(p.times) && forall i :: 0 <= i < |p.times| ==> cfg.cal.InWindow(p.times[i]) && after <= p.times[i]
  }

  ghost predicate CountsSound(cfg: Config, p: Progress) {
    && (forall d :: CountAt(p.counts, d) == OnDay(cfg.cal, p.times, d))
    && (cfg.dailyCap > 0 ==> forall d :: CountAt(p.counts, d) <= cfg.dailyCap)
  }

  /** Cursors stand in windows, never behind what was emitted; emitted times are ordered, in windows, and counted. */
  ghost predicate Sound(cfg: Config, after: int, p: Progress) {
    CursorsSound(cfg, after, p) && TimesSound(cfg, after, p) && CountsSound(cfg, p)
  }

  lemma AdvanceOk(cfg: Config, draws: Draws, s: Cursor, k: nat)
    requires cfg.cal.Valid() && cfg.Usable() && draws.For(cfg) && CursorOk(cfg.cal, s)
    ensures var s' := Advance(cfg, s, Gap(cfg, draws, s, k));
            && CursorOk(cfg.cal, s') && s.t <= s'.t
            && (s'.open != s.open ==> cfg.cal.date(s'.t) == cfg.cal.date(s.t) + 1)
            && (s'.open == s.open ==> cfg.cal.date(s'.t) == cfg.cal.date(s.t) && s'.t == s.t + Gap(cfg, draws, s, k))
  {
    var d := cfg.cal.date(s.t);
    RollEntersNextDate(cfg.cal, d);
    OpensAscend(cfg.cal, d, d + 1);
    assert cfg.cal.open(d + 1) > s.t;
    assert Gap(cfg, draws, s, k) >= 0;
  }

  lemma RollOk(cfg: Config, s: Cursor)
    requires cfg.cal.Valid() && CursorOk(cfg.cal, s)
    ensures var s' := NextWindow(cfg.cal, s.close);
            CursorOk(cfg.cal, s') && s.t <= s'.t && cfg.cal.date(s'.t) == cfg.cal.date(s.t) + 1
  {
    var d := cfg.cal.date(s.t);
    RollEntersNextDate(cfg.cal, d);
    OpensAscend(cfg.cal, d, d + 1);
  }

  lemma RolledSound(cfg: Config, after: int, p: Progress, k: nat, c: Cursor)
    requires Sound(cfg, after, p) && k < |p.cursors| && CursorOk(cfg.cal, c) && p.cursors[k].t <= c.t
    ensures Sound(cfg, after, Rolled(p, k, c))
  {
  }

  lemma EmittedSound(cfg: Config, after: int, p: Progress, k: nat, d: int, c: Cursor)
    requires Sound(cfg, after, p) && k < |p.cursors| && CursorOk(cfg.cal, c) && p.cursors[k].t <= c.t
    requires forall i :: 0 <= i < |p.cursors| ==> p.cursors[k].t <= p.cursors[i].t
    requires d == cfg.cal.date(p.cursors[k].t) && !Full(cfg, p, d)
    ensures Sound(cfg, after, Emitted(p, k, d, c))
  {
  }

  lemma StepSound(cfg: Config, draws: Draws, after: int, p: Progress)
    requires cfg.cal.Valid() && cfg.Usable() && draws.For(cfg) && Sound(cfg, after, p)
    ensures Sound(cfg, after, Step(cfg, draws, p))
  {
    var k := Earliest(p.cursors);
    var s := p.cursors[k];
    var d := cfg.cal.date(s.t);
    assert CursorOk(cfg.cal, s);
    if Full(cfg, p, d) {
      RollOk(cfg, s);
      RolledSound(cfg, after, p, k, NextWindow(cfg.cal, s.close));
    } else {
      AdvanceOk(cfg, draws, s, |p.times|);
      EmittedSound(cfg, after, p, k, d, Advance(cfg, s, Gap(cfg, draws, s, |p.times|)));
    }
  }

  lemma BeginSound(cfg: Config, after: int)
    requires cfg.cal.Valid() && cfg.Usable()
    ensures Sound(cfg, after, Begin(cfg, after))
  {
    var w := NextWindow(cfg.cal, after);
    NextWindowIsLeast(cfg.cal, after);
    RollOk(cfg, w);
    forall i: nat | i < cfg.Senders()
      ensures CursorOk(cfg.cal, StartCursor(cfg, after, i)) && after <= StartCursor(cfg, after, i).t
    {
      assert i * cfg.jitterMin * SECOND / cfg.Senders() >= 0;
    }
  }

  lemma {:induction false} LoopSound(cfg: Config, draws: Draws, n: nat, after: int, p: Progress)
    requires cfg.cal.Valid() && cfg.Usable() && draws.For(cfg) && Sound(cfg, after, p)
    ensures Sound(cfg, after, Loop(cfg, draws, n, p))
    ensures |p.times| <= n ==> |Loop(cfg, draws, n, p).times| <= n
    decreases Limit(n) - p.guard
  {
    if !(|p.times| >= n || p.guard + 1 > Limit(n)) {
      StepSound(cfg, draws, after, p);
      LoopSound(cfg, draws, n, after, Step(cfg, draws, p));
    }
  }

  /** Times come out in order, inside windows, not before the start, and no date exceeds a positive cap. */
  lemma SendTimesFit(cfg: Config, draws: Draws, n: nat, after: int)
    requires cfg.cal.Valid() && cfg.Usable() && draws.For(cfg)
    ensures var ts := SendTimes(cfg, draws, n, after);
            && |ts| <= n && Ascending(ts)
            && (forall t <- ts :: cfg.cal.InWindow(t) && after <= t)
            && (cfg.dailyCap > 0 ==> forall d :: OnDay(cfg.cal, ts, d) <= cfg.dailyCap)
  {
    BeginSound(cfg, after);
    LoopSound(cfg, draws, n, after, Begin(cfg, after));
  }

  lemma FloorFits(cal: Calendar, t: int, after: int)
    requires cal.Valid() && cal.InWindow(t) && after <= t
    ensures var o := t / SECOND;
            after / SECOND <= o && cal.InWindow(o * SECOND) && cal.date(o * SECOND) == cal.date(t)
  {
  }

  /** Formatting to whole seconds keeps the order, the window, and the floored start. */
  lemma FlooredTimesFit(cfg: Config, draws: Draws, n: nat, after: int)
    requires cfg.cal.Valid() && cfg.Usable() && draws.For(cfg)
    ensures var ts := SendTimes(cfg, draws, n, after);
            var out := Floors(ts);
            && Ascending(out)
            && (forall i :: 0 <= i < |out| ==>
                  after / SECOND <= out[i] && cfg.cal.InWindow(out[i] * SECOND) && cfg.cal.date(out[i] * SECOND) == cfg.cal.date(ts[i]))
  {
    SendTimesFit(cfg, draws, n, after);
    var ts := SendTimes(cfg, draws, n, after);
    forall i | 0 <= i < |ts|
      ensures after / SECOND <= ts[i] / SECOND && cfg.cal.InWindow(ts[i] / SECOND * SECOND)
           && cfg.cal.date(ts[i] / SECOND * SECOND) == cfg.cal.date(ts[i])
    {
      assert ts[i] in ts;
      FloorFits(cfg.cal, ts[i], after);
    }
  }

  // The guard

  function Sum(s: seq<nat>): nat { if s == [] then 0 else Sum(s[..|s| - 1]) + s[|s| - 1] }

  lemma {:induction false} SumUpdate(s: seq<nat>, k: nat)
    requires k < |s|
    ensures Sum(s[k := s[k] + 1]) == Sum(s) + 1
  {
    var n := |s| - 1;
    if k < n {
      SumUpdate(s[..n], k);
      assert s[k := s[k] + 1][..n] == s[..n][k := s[k] + 1];
    } else {
      assert s[k := s[k] + 1][..n] == s[..n];
    }
  }

  lemma {:induction false} SumBound(s: seq<nat>, b: nat)
    requires forall i :: 0 <= i < |s| ==> s[i] <= b
    ensures Sum(s) <= |s| * b
  {
    if s != [] {
      var n := |s| - 1;
      SumBound(s[..n], b);
      assert |s| * b == n * b + b;
    }
  }

  lemma {:induction false} SumZero(s: seq<nat>)
    requires forall i :: 0 <= i < |s| ==> s[i] == 0
    ensures Sum(s) == 0
  {
    if s != [] { SumZero(s[..|s| - 1]); }
  }

  /** Dates that have reached the cap. */
  function FullDays(cfg: Config, p: Progress): set<int> { set d | d in p.counts && p.counts[d] >= cfg.dailyCap }

  function FullBefore(cfg: Config, p: Progress, d: int): set<int> { set e | e in FullDays(cfg, p) && e < d }

  /** The amortised count: an iteration emits or rolls, and a cursor is rolled once per full date behind it. */
  ghost predicate Amortised(cfg: Config, p: Progress) {
    && |p.rolls| == |p.cursors|
    && p.guard == |p.times| + Sum(p.rolls)
    && (forall i :: 0 <= i < |p.cursors| ==> p.rolls[i] <= |FullBefore(cfg, p, cfg.cal.date(p.cursors[i].t))|)
  }

  /** Full dates stay full, so the room behind a cursor never shrinks. */
  lemma RoomGrows(cfg: Config, p: Progress, p': Progress, d: int, d': int)
    requires d <= d' && forall e <- p.counts :: e in p'.counts && p.counts[e] <= p'.counts[e]
    ensures |FullBefore(cfg, p, d)| <= |FullBefore(cfg, p', d')|
  {
    Desk.SubsetSize(FullBefore(cfg, p, d), FullBefore(cfg, p', d'));
  }

  lemma RolledAmortised(cfg: Config, p: Progress, k: nat, d: int, c: Cursor)
    requires Amortised(cfg, p) && k < |p.cursors| && cfg.dailyCap >= 1
    requires d == cfg.cal.date(p.cursors[k].t) && Full(cfg, p, d) && cfg.cal.date(c.t) == d + 1
    ensures Amortised(cfg, Rolled(p, k, c))
  {
    var p' := Rolled(p, k, c);
    SumUpdate(p.rolls, k);
    var b, b' := FullBefore(cfg, p, d), FullBefore(cfg, p', d + 1);
    assert d in b' && d !in b;
    Desk.SubsetSize(b + {d}, b');
    forall i | 0 <= i < |p'.cursors| && i != k
      ensures p'.rolls[i] <= |FullBefore(cfg, p', cfg.cal.date(p'.cursors[i].t))|
    {
      RoomGrows(cfg, p, p', cfg.cal.date(p.cursors[i].t), cfg.cal.date(p.cursors[i].t));
    }
  }

  lemma EmittedAmortised(cfg: Config, p: Progress, k: nat, d: int, c: Cursor)
    requires Amortised(cfg, p) && k < |p.cursors| && cfg.cal.date(p.cursors[k].t) <= cfg.cal.date(c.t)
    ensures Amortised(cfg, Emitted(p, k, d, c))
  {
    var p' := Emitted(p, k, d, c);
    forall i | 0 <= i < |p'.cursors|
      ensures p'.rolls[i] <= |FullBefore(cfg, p', cfg.cal.date(p'.cursors[i].t))|
    {
      RoomGrows(cfg, p, p', cfg.cal.date(p.cursors[i].t), cfg.cal.date(p'.cursors[i].t));
    }
  }

  lemma StepAmortised(cfg: Config, draws: Draws, after: int, p: Progress)
    requires cfg.cal.Valid() && cfg.Usable() && draws.For(cfg) && Sound(cfg, after, p) && Amortised(cfg, p) && cfg.dailyCap >= 1
    ensures Amortised(cfg, Step(cfg, draws, p))
  {
    var k := Earliest(p.cursors);
    var s := p.cursors[k];
    var d := cfg.cal.date(s.t);
    assert CursorOk(cfg.cal, s);
    if Full(cfg, p, d) {
      RollOk(cfg, s);
      RolledAmortised(cfg, p, k, d, NextWindow(cfg.cal, s.close));
    } else {
      AdvanceOk(cfg, draws, s, |p.times|);
      EmittedAmortised(cfg, p, k, d, Advance(cfg, s, Gap(cfg, draws, s, |p.times|)));
    }
  }

  function OffDay(cal: Calendar, times: seq<int>, d: int): seq<int> {
    if times == [] then []
    else
      var rest, t := OffDay(cal, times[..|times| - 1], d), times[|times| - 1];
      if cal.date(t) == d then rest else rest + [t]
  }

  lemma {:induction false} OffDayCounts(cal: Calendar, times: seq<int>, d: int)
    ensures |OffDay(cal, times, d)| + OnDay(cal, times, d) == |times|
    ensures forall e :: e != d ==> OnDay(cal, OffDay(cal, times, d), e) == OnDay(cal, times, e)
  {
    if times != [] {
      OffDayCounts(cal, times[..|times| - 1], d);
      var rest, t := OffDay(cal, times[..|times| - 1], d), times[|times| - 1];
      assert (rest + [t])[..|rest|] == rest;
    }
  }

  lemma OneOf<T>(s: set<T>) returns (x: T)
    requires s != {}
    ensures x in s
  {
    x :| x in s;
  }

  /** Full dates are paid for by sends: `cap` each. */
  lemma {:induction false} FullDaysArePaid(cal: Calendar, times: seq<int>, days: set<int>, cap: nat)
    requires forall d <- days :: OnDay(cal, times, d) >= cap
    ensures |days| * cap <= |times|
    decreases |days|
  {
    if days != {} {
      var d := OneOf(days);
      var rest := OffDay(cal, times, d);
      OffDayCounts(cal, times, d);
      FullDaysArePaid(cal, rest, days - {d}, cap);
    }
  }

  lemma RollsBound(cfg: Config, p: Progress)
    requires Amortised(cfg, p)
    ensures Sum(p.rolls) <= |p.cursors| * |FullDays(cfg, p)|
  {
    var days := FullDays(cfg, p);
    forall i | 0 <= i < |p.rolls| ensures p.rolls[i] <= |days| {
      Desk.SubsetSize(FullBefore(cfg, p, cfg.cal.date(p.cursors[i].t)), days);
    }
    SumBound(p.rolls, |days|);
  }

  lemma FullDaysBound(cfg: Config, p: Progress, m: nat)
    requires CountsSound(cfg, p) && cfg.dailyCap >= 1 && |p.times| <= m
    ensures |FullDays(cfg, p)| <= m / cfg.dailyCap
  {
    var days := FullDays(cfg, p);
    forall d | d in days ensures OnDay(cfg.cal, p.times, d) >= cfg.dailyCap {
      assert CountAt(p.counts, d) == OnDay(cfg.cal, p.times, d);
    }
    FullDaysArePaid(cfg.cal, p.times, days, cfg.dailyCap);
    DivideOut(|days|, cfg.dailyCap, m);
  }

  lemma GuardBound(cfg: Config, after: int, n: nat, p: Progress)
    requires Sound(cfg, after, p) && Amortised(cfg, p) && cfg.dailyCap >= 1 && |p.times| < n
    ensures p.guard + 1 <= n + cfg.Senders() * ((n - 1) / cfg.dailyCap)
  {
    RollsBound(cfg, p);
    FullDaysBound(cfg, p, n - 1);
    MulMono(cfg.Senders(), |FullDays(cfg, p)|, (n - 1) / cfg.dailyCap);
  }

  lemma MulMono(a: nat, b: int, c: int)
    requires b <= c
    ensures a * b <= a * c
  {
  }

  lemma MulStep(q: nat, x: nat, cap: nat)
    requires q >= x + 1
    ensures q * cap >= x * cap + cap
  {
    MulMono(cap, x + 1, q);
  }

  lemma DivideOut(q: nat, cap: nat, m: nat)
    requires cap >= 1 && q * cap <= m
    ensures q <= m / cap
  {
    var x := m / cap;
    assert m < x * cap + cap;
    if q >= x + 1 { MulStep(q, x, cap); }
  }

  lemma {:induction false} CappedLoopFinishes(cfg: Config, draws: Draws, n: nat, after: int, p: Progress)
    requires cfg.cal.Valid() && cfg.Usable() && draws.For(cfg) && Sound(cfg, after, p) && Amortised(cfg, p)
    requires cfg.dailyCap >= 1 && n + cfg.Senders() * ((n - 1) / cfg.dailyCap) <= Limit(n) && |p.times| <= n
    ensures |Loop(cfg, draws, n, p).times| == n
    decreases Limit(n) - p.guard
  {
    if |p.times| < n {
      GuardBound(cfg, after, n, p);
      StepSound(cfg, draws, after, p);
      StepAmortised(cfg, draws, after, p);
      CappedLoopFinishes(cfg, draws, n, after, Step(cfg, draws, p));
    }
  }

  lemma {:induction false} UncappedLoopFinishes(cfg: Config, draws: Draws, n: nat, p: Progress)
    requires cfg.dailyCap == 0 && |p.cursors| > 0 && |p.rolls| == |p.cursors| && p.guard == |p.times| <= n
    ensures |Loop(cfg, draws, n, p).times| == n
    decreases Limit(n) - p.guard
  {
    if |p.times| < n {
      UncappedLoopFinishes(cfg, draws, n, Step(cfg, draws, p));
    }
  }

  /** Exactly n times come back: the guard never fires without a cap, nor with one that leaves it room. */
  lemma ExactlyN(cfg: Config, draws: Draws, n: nat, after: int)
    requires cfg.cal.Valid() && cfg.Usable() && draws.For(cfg)
    requires cfg.dailyCap == 0 || (cfg.dailyCap >= 1 && n + cfg.Senders() * ((n - 1) / cfg.dailyCap) <= Limit(n))
    ensures |SendTimes(cfg, draws, n, after)| == n
  {
    var p := Begin(cfg, after);
    if cfg.dailyCap == 0 {
      UncappedLoopFinishes(cfg, draws, n, p);
    } else {
      BeginSound(cfg, after);
      SumZero(p.rolls);
      CappedLoopFinishes(cfg, draws, n, after, p);
    }
  }

  /** In particular whenever a positive cap is at least a seventh of the senders. */
  lemma SevenCapsSuffice(cfg: Config, draws: Draws, n: nat, after: int)
    requires cfg.cal.Valid() && cfg.Usable() && draws.For(cfg)
    requires n >= 1 && cfg.dailyCap >= 1 && cfg.Senders() <= 7 * cfg.dailyCap
    ensures |SendTimes(cfg, draws, n, after)| == n
  {
    SevenfoldFits(cfg.Senders(), cfg.dailyCap, n);
    ExactlyN(cfg, draws, n, after);
  }

  lemma SevenfoldFits(senders: nat, cap: nat, n: nat)
    requires n >= 1 && cap >= 1 && senders <= 7 * cap
    ensures senders * ((n - 1) / cap) <= 7 * n
  {
    var q := (n - 1) / cap;
    MulMono(q, senders, 7 * cap);
    assert q * (7 * cap) == 7 * (q * cap) && q * cap <= n - 1;
    assert senders * q == q * senders;
  }

  /** The settings leave the guard room for n sends: each sender rolls once for every full day before the last send. */
  predicate Enough(senderCount: int, dailyCap: int, n: nat) {
    n == 0 || dailyCap == 0 || (dailyCap >= 1 && n + Max(senderCount, 1) * ((n - 1) / dailyCap) <= 8 * n + 2000)
  }

  // The other direction: without gaps the cursors march in lockstep, and the bound is met.

  predicate Gapless(cfg: Config) { cfg.jitterMin == 0 && cfg.jitterMax == 0 && cfg.rushJitter == 0 }

  function Opening(cal: Calendar, d: int): Cursor { Cursor(cal.open(d), cal.close(d), cal.open(d)) }

  /**
   After d full days, lo sends of full days and turns rolls of whole days: the first j cursors have rolled on, the others
   stand at the opening of day d, and the guard has counted every send and every roll.
   */
  ghost predicate Lockstep(cfg: Config, first: int, p: Progress, d: nat, j: nat, lo: nat, turns: nat) {
    && |p.cursors| == |p.rolls| == cfg.Senders() && j < cfg.Senders()
    && (forall i :: 0 <= i < |p.cursors| ==> p.cursors[i] == Opening(cfg.cal, first + d + if i < j then 1 else 0))
    && lo <= |p.times| <= lo + cfg.dailyCap && (j > 0 ==> |p.times| == lo + cfg.dailyCap)
    && CountAt(p.counts, first + d) == |p.times| - lo
    && (forall e :: e > first + d ==> CountAt(p.counts, e) == 0)
    && p.guard == |p.times| + turns + j
  }

  lemma {:induction false} EarliestIs(cs: seq<Cursor>, j: nat, x: int)
    requires j < |cs| && cs[j].t == x
    requires forall i :: 0 <= i < |cs| ==> (if i < j then cs[i].t > x else cs[i].t >= x)
    ensures Earliest(cs) == j
  {
    if |cs| > 1 && j < |cs| - 1 { EarliestIs(cs[..|cs| - 1], j, x); }
  }

  lemma LockstepEarliest(cfg: Config, first: int, p: Progress, d: nat, j: nat, lo: nat, turns: nat)
    requires cfg.cal.Valid() && Lockstep(cfg, first, p, d, j, lo, turns)
    ensures Earliest(p.cursors) == j && p.cursors[j] == Opening(cfg.cal, first + d) && cfg.cal.date(p.cursors[j].t) == first + d
  {
    OpensAscend(cfg.cal, first + d, first + d + 1);
    EarliestIs(p.cursors, j, cfg.cal.open(first + d));
  }

  /** What a step does in lockstep: cursor j, at the opening of `day`, emits and stays, or rolls off a full day. */
  function Turn(cfg: Config, p: Progress, j: nat, day: int): Progress
    requires j < |p.cursors| == |p.rolls|
  {
    if Full(cfg, p, day) then Rolled(p, j, Opening(cfg.cal, day + 1)) else Emitted(p, j, day, p.cursors[j])
  }

  lemma StepIsTurn(cfg: Config, draws: Draws, first: int, p: Progress, d: nat, j: nat, lo: nat, turns: nat)
    requires cfg.cal.Valid() && Gapless(cfg) && draws.For(cfg) && Lockstep(cfg, first, p, d, j, lo, turns)
    ensures Step(cfg, draws, p) == Turn(cfg, p, j, first + d)
  {
    LockstepEarliest(cfg, first, p, d, j, lo, turns);
    if Full(cfg, p, first + d) {
      FullRolls(cfg, draws, p, j, first + d);
    } else {
      GaplessStays(cfg, draws, p, j, first + d);
    }
  }

  lemma LockstepStep(cfg: Config, first: int, p: Progress, d: nat, j: nat, lo: nat, turns: nat)
      returns (d': nat, j': nat, lo': nat, turns': nat)
    requires cfg.dailyCap >= 1 && Lockstep(cfg, first, p, d, j, lo, turns)
    ensures Lockstep(cfg, first, Turn(cfg, p, j, first + d), d', j', lo', turns')
    ensures (d', lo', turns') == (d, lo, turns) || (d', lo', turns') == (d + 1, lo + cfg.dailyCap, turns + cfg.Senders())
  {
    if Full(cfg, p, first + d) {
      d', j', lo', turns' := LockstepRoll(cfg, first, p, d, j, lo, turns);
    } else {
      LockstepEmit(cfg, first, p, d, j, lo, turns);
      d', j', lo', turns' := d, j, lo, turns;
    }
  }

  lemma LockstepEmit(cfg: Config, first: int, p: Progress, d: nat, j: nat, lo: nat, turns: nat)
    requires Lockstep(cfg, first, p, d, j, lo, turns) && cfg.dailyCap >= 1 && !Full(cfg, p, first + d)
    ensures Lockstep(cfg, first, Emitted(p, j, first + d, p.cursors[j]), d, j, lo, turns)
  {
    var q := Emitted(p, j, first + d, p.cursors[j]);
    forall e | e > first + d ensures CountAt(q.counts, e) == 0 { assert CountAt(p.counts, e) == 0; }
  }

  lemma LockstepRoll(cfg: Config, first: int, p: Progress, d: nat, j: nat, lo: nat, turns: nat)
      returns (d': nat, j': nat, lo': nat, turns': nat)
    requires Lockstep(cfg, first, p, d, j, lo, turns) && cfg.dailyCap >= 1 && Full(cfg, p, first + d)
    ensures Lockstep(cfg, first, Rolled(p, j, Opening(cfg.cal, first + d + 1)), d', j', lo', turns')
    ensures (d', lo', turns') == (d, lo, turns) || (d', lo', turns') == (d + 1, lo + cfg.dailyCap, turns + cfg.Senders())
  {
    if j + 1 == cfg.Senders() {
      d', j', lo', turns' := d + 1, 0, lo + cfg.dailyCap, turns + cfg.Senders();
    } else {
      d', j', lo', turns' := d, j + 1, lo, turns;
    }
  }

  lemma FullRolls(cfg: Config, draws: Draws, p: Progress, j: nat, day: int)
    requires cfg.cal.Valid() && |p.cursors| == |p.rolls| > 0
    requires Earliest(p.cursors) == j && p.cursors[j] == Opening(cfg.cal, day) && cfg.cal.date(p.cursors[j].t) == day && Full(cfg, p, day)
    ensures Step(cfg, draws, p) == Rolled(p, j, Opening(cfg.cal, day + 1))
  {
    RollEntersNextDate(cfg.cal, day);
  }

  lemma GaplessStays(cfg: Config, draws: Draws, p: Progress, j: nat, day: int)
    requires cfg.cal.Valid() && Gapless(cfg) && draws.For(cfg) && |p.cursors| == |p.rolls| > 0
    requires Earliest(p.cursors) == j && p.cursors[j] == Opening(cfg.cal, day) && cfg.cal.date(p.cursors[j].t) == day && !Full(cfg, p, day)
    ensures Step(cfg, draws, p) == Emitted(p, j, day, p.cursors[j])
  {
    assert Gap(cfg, draws, p.cursors[j], |p.times|) == 0;
  }

  lemma {:induction false} LockstepLoop(cfg: Config, draws: Draws, n: nat, first: int, p: Progress, d: nat, j: nat, lo: nat, turns: nat)
    requires cfg.cal.Valid() && Gapless(cfg) && draws.For(cfg) && cfg.dailyCap >= 1 && Lockstep(cfg, first, p, d, j, lo, turns)
    requires lo == d * cfg.dailyCap && turns == d * cfg.Senders() && n >= 1 && |p.times| <= n && p.guard <= Limit(n)
    ensures |Loop(cfg, draws, n, p).times| == n ==> n + cfg.Senders() * ((n - 1) / cfg.dailyCap) <= Limit(n)
    decreases Limit(n) - p.guard
  {
    if |p.times| == n {
      DaysNeeded(n, cfg.dailyCap, d, cfg.Senders());
    } else if p.guard + 1 <= Limit(n) {
      StepIsTurn(cfg, draws, first, p, d, j, lo, turns);
      var d', j', lo', turns' := LockstepStep(cfg, first, p, d, j, lo, turns);
      NextMultiple(d, cfg.dailyCap);
      NextMultiple(d, cfg.Senders());
      LockstepLoop(cfg, draws, n, first, Step(cfg, draws, p), d', j', lo', turns');
    }
  }

  lemma NextMultiple(d: nat, x: int)
    ensures (d + 1) * x == d * x + x
  {
  }

  lemma DaysNeeded(n: nat, cap: nat, d: nat, senders: nat)
    requires n >= 1 && cap >= 1 && n <= d * cap + cap
    ensures senders * ((n - 1) / cap) <= d * senders
  {
    var q := (n - 1) / cap;
    assert q * cap <= n - 1;
    if q >= d + 1 { MulStep(q, d, cap); }
    MulMono(senders, q, d);
  }

  lemma LockstepStart(cfg: Config, first: int)
    requires cfg.cal.Valid() && Gapless(cfg) && cfg.dailyCap >= 1
    ensures Lockstep(cfg, first, Begin(cfg, cfg.cal.open(first)), 0, 0, 0, 0)
  {
    assert NextWindow(cfg.cal, cfg.cal.open(first)) == Opening(cfg.cal, first);
    forall i: nat ensures StartCursor(cfg, cfg.cal.open(first), i) == Opening(cfg.cal, first) {
      assert i * cfg.jitterMin * SECOND / cfg.Senders() == 0;
    }
  }

  /** Without gaps and from an opening, on every calendar, n times come back exactly when the settings are enough. */
  lemma GaplessExactly(cfg: Config, draws: Draws, n: nat, first: int)
    requires cfg.cal.Valid() && Gapless(cfg) && draws.For(cfg)
    ensures |SendTimes(cfg, draws, n, cfg.cal.open(first))| == n <==> Enough(cfg.senderCount, cfg.dailyCap, n)
  {
    var after := cfg.cal.open(first);
    if Enough(cfg.senderCount, cfg.dailyCap, n) {
      EnoughGivesN(cfg, draws, n, after);
    } else if cfg.dailyCap < 0 {
      NegativeCapSendsNothing(cfg, draws, n, after);
    } else {
      LockstepStart(cfg, first);
      LockstepLoop(cfg, draws, n, first, Begin(cfg, after), 0, 0, 0, 0);
    }
  }

  lemma AtMostN(cfg: Config, draws: Draws, n: nat, after: int)
    requires cfg.cal.Valid() && cfg.Usable() && draws.For(cfg)
    ensures |SendTimes(cfg, draws, n, after)| <= n
  {
    SendTimesFit(cfg, draws, n, after);
  }

  /** The schedule has all n times, whatever the calendar, the gaps and the start. */
  ghost predicate AlwaysN(senderCount: int, dailyCap: int, n: nat) {
    forall cfg: Config, draws: Draws, after: int ::
      cfg.senderCount == senderCount && cfg.dailyCap == dailyCap && cfg.cal.Valid() && cfg.Usable() && draws.For(cfg) ==>
        |SendTimes(cfg, draws, n, after)| == n
  }

  function Tight(senderCount: int, dailyCap: int): Config { Config(FixedZone(9, 4), senderCount, 0, 0, 0, 0, dailyCap) }

  /** The guard never fires exactly when the settings are enough: no weaker condition on them will do. */
  lemma ExactlyNForAll(senderCount: int, dailyCap: int, n: nat)
    ensures AlwaysN(senderCount, dailyCap, n) <==> Enough(senderCount, dailyCap, n)
  {
    if Enough(senderCount, dailyCap, n) {
      forall cfg: Config, draws: Draws, after: int |
        cfg.senderCount == senderCount && cfg.dailyCap == dailyCap && cfg.cal.Valid() && cfg.Usable() && draws.For(cfg)
        ensures |SendTimes(cfg, draws, n, after)| == n
      {
        EnoughGivesN(cfg, draws, n, after);
      }
    } else {
      var cfg, draws, after := TightFails(senderCount, dailyCap, n);
      assert |SendTimes(cfg, draws, n, after)| != n;
    }
  }

  lemma EnoughGivesN(cfg: Config, draws: Draws, n: nat, after: int)
    requires cfg.cal.Valid() && cfg.Usable() && draws.For(cfg) && Enough(cfg.senderCount, cfg.dailyCap, n)
    ensures |SendTimes(cfg, draws, n, after)| == n
  {
    if n > 0 { ExactlyN(cfg, draws, n, after); }
  }

  lemma TightFails(senderCount: int, dailyCap: int, n: nat) returns (cfg: Config, draws: Draws, after: int)
    requires !Enough(senderCount, dailyCap, n)
    ensures cfg.senderCount == senderCount && cfg.dailyCap == dailyCap && cfg.cal.Valid() && cfg.Usable() && draws.For(cfg)
    ensures |SendTimes(cfg, draws, n, after)| != n
  {
    cfg, draws := Tight(senderCount, dailyCap), Draws(k => 0, k => 0);
    FixedZoneDates(9, 4);
    after := cfg.cal.open(0);
    GaplessExactly(cfg, draws, n, 0);
  }

  /** How many cursors still stand on a date. */
  function StandingOn(cal: Calendar, cs: seq<Cursor>, d: int): (n: nat)
    ensures n <= |cs|
    ensures n > 0 ==> exists i :: 0 <= i < |cs| && cal.date(cs[i].t) == d
  {
    if cs == [] then 0
    else
      var n := StandingOn(cal, cs[..|cs| - 1], d);
      var last := if cal.date(cs[|cs| - 1].t) == d then 1 else 0;
      assert forall i :: 0 <= i < |cs| - 1 ==> cs[..|cs| - 1][i] == cs[i];
      n + last
  }

  lemma {:induction false} StandingMoves(cal: Calendar, cs: seq<Cursor>, d: int, k: nat, c: Cursor)
    requires k < |cs|
    ensures StandingOn(cal, cs[k := c], d) >= StandingOn(cal, cs, d) - 1
  {
    var n := |cs| - 1;
    if k < n {
      StandingMoves(cal, cs[..n], d, k, c);
      assert cs[k := c][..n] == cs[..n][k := c];
    } else {
      assert cs[k := c][..n] == cs[..n];
    }
  }

  lemma {:induction false} AllStand(cal: Calendar, cs: seq<Cursor>, d: int)
    requires forall i :: 0 <= i < |cs| ==> cal.date(cs[i].t) == d
    ensures StandingOn(cal, cs, d) == |cs|
  {
    if cs != [] { AllStand(cal, cs[..|cs| - 1], d); }
  }

  /** Every cursor is on date d or later, all sends so far are of date d, and the guard runs out before date d empties. */
  ghost predicate Crowded(cfg: Config, n: nat, p: Progress, d: int) {
    && (forall i :: 0 <= i < |p.cursors| ==> cfg.cal.date(p.cursors[i].t) >= d)
    && (forall i :: 0 <= i < |p.times| ==> cfg.cal.date(p.times[i]) == d)
    && StandingOn(cfg.cal, p.cursors, d) + p.guard > Limit(n)
  }

  lemma MovedCrowded(cfg: Config, n: nat, p: Progress, d: int, k: nat, c: Cursor, p': Progress)
    requires Crowded(cfg, n, p, d) && k < |p.cursors| && cfg.cal.date(p.cursors[k].t) == d && cfg.cal.date(c.t) >= d
    requires p'.cursors == p.cursors[k := c] && p'.guard == p.guard + 1
    requires p'.times == p.times || p'.times == p.times + [p.cursors[k].t]
    ensures Crowded(cfg, n, p', d)
  {
    StandingMoves(cfg.cal, p.cursors, d, k, c);
  }

  lemma StepCrowded(cfg: Config, draws: Draws, after: int, n: nat, p: Progress, d: int)
    requires cfg.cal.Valid() && cfg.Usable() && draws.For(cfg) && Sound(cfg, after, p)
    requires Crowded(cfg, n, p, d) && p.guard + 1 <= Limit(n)
    ensures Crowded(cfg, n, Step(cfg, draws, p), d)
  {
    var k := Earliest(p.cursors);
    var s := p.cursors[k];
    assert CursorOk(cfg.cal, s);
    RollOk(cfg, s);
    AdvanceOk(cfg, draws, s, |p.times|);
    MovedCrowded(cfg, n, p, d, k, Step(cfg, draws, p).cursors[k], Step(cfg, draws, p));
  }

  /** While cursors remain on the first date, everything emitted is on it. */
  lemma {:induction false} CrowdedLoopStops(cfg: Config, draws: Draws, n: nat, after: int, p: Progress, d: int)
    requires cfg.cal.Valid() && cfg.Usable() && draws.For(cfg) && Sound(cfg, after, p)
    requires 1 <= cfg.dailyCap < n && Crowded(cfg, n, p, d)
    ensures |Loop(cfg, draws, n, p).times| <= cfg.dailyCap
    decreases Limit(n) - p.guard
  {
    AllOnDay(cfg.cal, p.times, d);
    assert CountAt(p.counts, d) == |p.times|;
    if p.guard + 1 <= Limit(n) {
      StepSound(cfg, draws, after, p);
      StepCrowded(cfg, draws, after, n, p, d);
      CrowdedLoopStops(cfg, draws, n, after, Step(cfg, draws, p), d);
    }
  }

  lemma {:induction false} AllOnDay(cal: Calendar, times: seq<int>, d: int)
    requires forall i :: 0 <= i < |times| ==> cal.date(times[i]) == d
    ensures OnDay(cal, times, d) == |times|
  {
    if times != [] { AllOnDay(cal, times[..|times| - 1], d); }
  }

  /** The guard does fire: with more cursors in the first window than it allows iterations, a cap below n starves the rest. */
  lemma TooManySenders(cfg: Config, draws: Draws, n: nat, after: int)
    requires cfg.cal.Valid() && cfg.Usable() && draws.For(cfg)
    requires 1 <= cfg.dailyCap < n && cfg.Senders() > Limit(n)
    requires forall i: nat :: i < cfg.Senders() ==>
               cfg.cal.date(StartCursor(cfg, after, i).t) == cfg.cal.date(NextWindow(cfg.cal, after).t)
    ensures |SendTimes(cfg, draws, n, after)| <= cfg.dailyCap < n
  {
    var d := cfg.cal.date(NextWindow(cfg.cal, after).t);
    var p := Begin(cfg, after);
    BeginSound(cfg, after);
    AllStand(cfg.cal, p.cursors, d);
    CrowdedLoopStops(cfg, draws, n, after, p, d);
  }

  /** A first window as long as the shortest gap holds the whole stagger, so then no draw of gaps helps. */
  lemma CrowdedForEveryDraw(cfg: Config, draws: Draws, n: nat, after: int)
    requires cfg.cal.Valid() && cfg.Usable() && draws.For(cfg) && 1 <= cfg.dailyCap < n && cfg.Senders() > Limit(n)
    requires cfg.jitterMin * SECOND <= NextWindow(cfg.cal, after).close - NextWindow(cfg.cal, after).t
    ensures |SendTimes(cfg, draws, n, after)| <= cfg.dailyCap
  {
    var w := NextWindow(cfg.cal, after);
    NextWindowIsLeast(cfg.cal, after);
    forall i: nat | i < cfg.Senders() ensures cfg.cal.date(StartCursor(cfg, after, i).t) == cfg.cal.date(w.t) {
      ShareBelow(i, cfg.jitterMin, cfg.Senders());
    }
    TooManySenders(cfg, draws, n, after);
  }

  lemma ShareBelow(i: nat, jitter: int, senders: nat)
    requires i < senders && jitter >= 0
    ensures 0 <= i * jitter * SECOND / senders
    ensures i * jitter * SECOND / senders < jitter * SECOND || jitter == 0 == i * jitter * SECOND / senders
  {
    var x := jitter * SECOND;
    assert i * jitter * SECOND == i * x;
    if jitter > 0 { ShareOf(i, x, senders); } else { assert i * x == 0; }
  }

  lemma ShareOf(i: nat, x: nat, senders: nat)
    requires i < senders && x > 0
    ensures i * x / senders < x
  {
    MulMono(x, i + 1, senders);
    assert i * x < senders * x;
    var q := i * x / senders;
    assert q * senders <= i * x;
    if q >= x { MulMono(senders, x, q); }
  }

  lemma {:induction false} NegativeCapLoop(cfg: Config, draws: Draws, n: nat, p: Progress)
    requires cfg.dailyCap < 0 && |p.cursors| > 0 && |p.rolls| == |p.cursors| && p.times == []
    ensures Loop(cfg, draws, n, p).times == []
    decreases Limit(n) - p.guard
  {
    if !(|p.times| >= n || p.guard + 1 > Limit(n)) {
      NegativeCapLoop(cfg, draws, n, Step(cfg, draws, p));
    }
  }

  /** A negative cap is not "no cap": it sends nothing at all. */
  lemma NegativeCapSendsNothing(cfg: Config, draws: Draws, n: nat, after: int)
    requires cfg.dailyCap < 0
    ensures SendTimes(cfg, draws, n, after) == []
  {
    NegativeCapLoop(cfg, draws, n, Begin(cfg, after));
  }

  // How dense a window can get

  function Slowest(cfg: Config): int { Min(cfg.CalmLow(), cfg.RushLow()) }

  /** Sends of cursor i on date d. */
  function By(cal: Calendar, times: seq<int>, who: seq<nat>, i: nat, d: int): nat
    requires |times| == |who|
  {
    if times == [] then 0
    else
      var n := |times| - 1;
      By(cal, times[..n], who[..n], i, d) + if who[n] == i && cal.date(times[n]) == d then 1 else 0
  }

  /** A cursor that emitted c times in its window has moved at least c shortest gaps past the opening. */
  ghost predicate Paced(cfg: Config, p: Progress, i: nat)
    requires i < |p.cursors| && |p.times| == |p.who|
  {
    var g := Slowest(cfg);
    var here := cfg.cal.date(p.cursors[i].t);
    && (forall d :: d > here ==> By(cfg.cal, p.times, p.who, i, d) == 0)
    && By(cfg.cal, p.times, p.who, i, here) * g <= p.cursors[i].t - p.cursors[i].open
    && (forall d :: By(cfg.cal, p.times, p.who, i, d) * g <= cfg.cal.close(d) - cfg.cal.open(d) + g - 1)
  }

  lemma OneMore(c: nat, g: int, x: int, len: int)
    requires c * g <= x < len
    ensures (c + 1) * g <= len + g - 1
    ensures (c + 1) * g == c * g + g
  {
  }

  /** Another cursor's emission leaves this one's pace alone. */
  lemma OthersPaced(cfg: Config, p: Progress, k: nat, day: int, c: Cursor, i: nat)
    requires k < |p.cursors| && i < |p.cursors| && i != k && |p.times| == |p.who| && day == cfg.cal.date(p.cursors[k].t)
    requires Paced(cfg, p, i)
    ensures Paced(cfg, Emitted(p, k, day, c), i)
  {
    forall d ensures By(cfg.cal, Emitted(p, k, day, c).times, Emitted(p, k, day, c).who, i, d) == By(cfg.cal, p.times, p.who, i, d) {
    }
  }

  lemma EmitterPaced(cfg: Config, p: Progress, k: nat, day: int, c: Cursor)
    requires k < |p.cursors| && |p.times| == |p.who| && day == cfg.cal.date(p.cursors[k].t) && Paced(cfg, p, k)
    requires CursorOk(cfg.cal, p.cursors[k]) && CursorOk(cfg.cal, c) && Slowest(cfg) > 0
    requires if cfg.cal.date(c.t) == day then c.open == p.cursors[k].open && c.t >= p.cursors[k].t + Slowest(cfg)
             else cfg.cal.date(c.t) > day
    ensures Paced(cfg, Emitted(p, k, day, c), k)
  {
    var p' := Emitted(p, k, day, c);
    forall d ensures By(cfg.cal, p'.times, p'.who, k, d) == By(cfg.cal, p.times, p.who, k, d) + if d == day then 1 else 0 {
    }
    OneMore(By(cfg.cal, p.times, p.who, k, day), Slowest(cfg), p.cursors[k].t - p.cursors[k].open,
            cfg.cal.close(day) - cfg.cal.open(day));
  }

  lemma RolledPaced(cfg: Config, p: Progress, k: nat, c: Cursor, i: nat)
    requires k < |p.cursors| == |p.rolls| && i < |p.cursors| && |p.times| == |p.who| && Paced(cfg, p, i)
    requires CursorOk(cfg.cal, c) && cfg.cal.date(c.t) > cfg.cal.date(p.cursors[k].t)
    ensures Paced(cfg, Rolled(p, k, c), i)
  {
  }

  lemma StepPaced(cfg: Config, draws: Draws, after: int, p: Progress, i: nat)
    requires cfg.cal.Valid() && cfg.Usable() && draws.For(cfg) && Sound(cfg, after, p) && i < |p.cursors| && Paced(cfg, p, i)
    requires Slowest(cfg) > 0
    ensures Paced(cfg, Step(cfg, draws, p), i)
  {
    var k := Earliest(p.cursors);
    var s := p.cursors[k];
    var day := cfg.cal.date(s.t);
    assert CursorOk(cfg.cal, s);
    if Full(cfg, p, day) {
      RollOk(cfg, s);
      RolledPaced(cfg, p, k, NextWindow(cfg.cal, s.close), i);
    } else {
      AdvanceOk(cfg, draws, s, |p.times|);
      var c := Advance(cfg, s, Gap(cfg, draws, s, |p.times|));
      if i == k { EmitterPaced(cfg, p, k, day, c); } else { OthersPaced(cfg, p, k, day, c, i); }
    }
  }

  lemma {:induction false} LoopPaced(cfg: Config, draws: Draws, n: nat, after: int, p: Progress, i: nat)
    requires cfg.cal.Valid() && cfg.Usable() && draws.For(cfg) && Sound(cfg, after, p) && i < |p.cursors| && Paced(cfg, p, i)
    requires Slowest(cfg) > 0
    ensures var q := Loop(cfg, draws, n, p); |q.cursors| == |p.cursors| && |q.times| == |q.who| && Paced(cfg, q, i)
    decreases Limit(n) - p.guard
  {
    if !(|p.times| >= n || p.guard + 1 > Limit(n)) {
      StepSound(cfg, draws, after, p);
      StepPaced(cfg, draws, after, p, i);
      LoopPaced(cfg, draws, n, after, Step(cfg, draws, p), i);
    }
  }

  /** Emitters are real cursors. */
  ghost predicate KnownEmitters(p: Progress) { forall j :: 0 <= j < |p.who| ==> p.who[j] < |p.cursors| }

  lemma {:induction false} LoopEmitters(cfg: Config, draws: Draws, n: nat, p: Progress)
    requires |p.cursors| > 0 && |p.rolls| == |p.cursors| && |p.who| == |p.times| && KnownEmitters(p)
    ensures KnownEmitters(Loop(cfg, draws, n, p))
    decreases Limit(n) - p.guard
  {
    if !(|p.times| >= n || p.guard + 1 > Limit(n)) {
      LoopEmitters(cfg, draws, n, Step(cfg, draws, p));
    }
  }

  function ByAll(cal: Calendar, times: seq<int>, who: seq<nat>, s: nat, d: int): nat
    requires |times| == |who|
  {
    if s == 0 then 0 else ByAll(cal, times, who, s - 1, d) + By(cal, times, who, s - 1, d)
  }

  lemma {:induction false} ByAllSnoc(cal: Calendar, times: seq<int>, who: seq<nat>, s: nat, d: int)
    requires |times| == |who| > 0
    ensures var n := |times| - 1;
            ByAll(cal, times, who, s, d) == ByAll(cal, times[..n], who[..n], s, d)
              + if who[n] < s && cal.date(times[n]) == d then 1 else 0
  {
    if s > 0 { ByAllSnoc(cal, times, who, s - 1, d); }
  }

  lemma {:induction false} ByAllEmpty(cal: Calendar, s: nat, d: int)
    ensures ByAll(cal, [], [], s, d) == 0
  {
    if s > 0 { ByAllEmpty(cal, s - 1, d); }
  }

  lemma {:induction false} DaySplits(cal: Calendar, times: seq<int>, who: seq<nat>, s: nat, d: int)
    requires |times| == |who| && forall j :: 0 <= j < |who| ==> who[j] < s
    ensures OnDay(cal, times, d) == ByAll(cal, times, who, s, d)
  {
    if times == [] {
      ByAllEmpty(cal, s, d);
    } else {
      var n := |times| - 1;
      DaySplits(cal, times[..n], who[..n], s, d);
      ByAllSnoc(cal, times, who, s, d);
    }
  }

  lemma {:induction false} ByAllBound(cal: Calendar, times: seq<int>, who: seq<nat>, s: nat, d: int, b: nat)
    requires |times| == |who| && forall i: nat :: i < s ==> By(cal, times, who, i, d) <= b
    ensures ByAll(cal, times, who, s, d) <= s * b
  {
    if s > 0 {
      ByAllBound(cal, times, who, s - 1, d, b);
      assert s * b == (s - 1) * b + b;
    }
  }

  lemma StartPaced(cfg: Config, after: int, i: nat)
    requires cfg.cal.Valid() && cfg.Usable() && i < cfg.Senders() && Slowest(cfg) > 0
    ensures Paced(cfg, Begin(cfg, after), i)
  {
    BeginSound(cfg, after);
    var p := Begin(cfg, after);
    assert CursorOk(cfg.cal, p.cursors[i]);
    NoSendsPaced(cfg, p, i);
  }

  lemma NoSendsPaced(cfg: Config, p: Progress, i: nat)
    requires cfg.cal.Valid() && i < |p.cursors| && p.cursors[i].open <= p.cursors[i].t && p.times == [] && p.who == [] && Slowest(cfg) > 0
    ensures Paced(cfg, p, i)
  {
    forall d ensures By(cfg.cal, p.times, p.who, i, d) == 0 && 0 <= cfg.cal.close(d) - cfg.cal.open(d) {
      OpensAscend(cfg.cal, d, d);
    }
  }

  lemma PacedBound(cfg: Config, q: Progress, i: nat, d: int)
    requires i < |q.cursors| && |q.times| == |q.who| && Paced(cfg, q, i) && Slowest(cfg) > 0
    requires cfg.cal.open(d) < cfg.cal.close(d)
    ensures By(cfg.cal, q.times, q.who, i, d) <= (cfg.cal.close(d) - cfg.cal.open(d) + Slowest(cfg) - 1) / Slowest(cfg)
  {
    var c := By(cfg.cal, q.times, q.who, i, d);
    var room := cfg.cal.close(d) - cfg.cal.open(d) + Slowest(cfg) - 1;
    assert c * Slowest(cfg) <= room;
    DivideOut(c, Slowest(cfg), room);
  }

  lemma CursorDensity(cfg: Config, draws: Draws, n: nat, after: int, i: nat, d: int)
    requires cfg.cal.Valid() && cfg.Usable() && draws.For(cfg) && Slowest(cfg) > 0 && i < cfg.Senders()
    ensures var q := Loop(cfg, draws, n, Begin(cfg, after));
            var g := Slowest(cfg);
            |q.times| == |q.who| && By(cfg.cal, q.times, q.who, i, d) <= (cfg.cal.close(d) - cfg.cal.open(d) + g - 1) / g
  {
    var p := Begin(cfg, after);
    BeginSound(cfg, after);
    StartPaced(cfg, after, i);
    LoopPaced(cfg, draws, n, after, p, i);
    PacedBound(cfg, Loop(cfg, draws, n, p), i, d);
  }

  lemma LoopKeepsSenders(cfg: Config, draws: Draws, n: nat, after: int)
    requires cfg.cal.Valid() && cfg.Usable() && draws.For(cfg)
    ensures var q := Loop(cfg, draws, n, Begin(cfg, after)); |q.cursors| == cfg.Senders() && |q.who| == |q.times| && KnownEmitters(q)
  {
    BeginSound(cfg, after);
    LoopSound(cfg, draws, n, after, Begin(cfg, after));
    LoopEmitters(cfg, draws, n, Begin(cfg, after));
  }

  /** A window holds at most senders * ceil(length / shortest gap) sends. */
  lemma WindowDensity(cfg: Config, draws: Draws, n: nat, after: int, d: int)
    requires cfg.cal.Valid() && cfg.Usable() && draws.For(cfg) && Slowest(cfg) > 0
    ensures var g := Slowest(cfg);
            OnDay(cfg.cal, SendTimes(cfg, draws, n, after), d)
              <= cfg.Senders() * ((cfg.cal.close(d) - cfg.cal.open(d) + g - 1) / g)
  {
    var q := Loop(cfg, draws, n, Begin(cfg, after));
    LoopKeepsSenders(cfg, draws, n, after);
    var b := (cfg.cal.close(d) - cfg.cal.open(d) + Slowest(cfg) - 1) / Slowest(cfg);
    forall i: nat | i < cfg.Senders() ensures By(cfg.cal, q.times, q.who, i, d) <= b {
      CursorDensity(cfg, draws, n, after, i, d);
    }
    DaySplits(cfg.cal, q.times, q.who, cfg.Senders(), d);
    CursorDensity(cfg, draws, n, after, 0, d);
    ByAllBound(cfg.cal, q.times, q.who, cfg.Senders(), d, b);
  }

  // The imperative scheduler

  /** The staggered cursors. None stands for "no send window found"; it does not happen. */
  method PlaceSenders(cfg: Config, after: int) returns (r: Option<array<Cursor>>)
    requires cfg.cal.Valid()
    ensures r.Some? && fresh(r.value) && r.value[..] == Begin(cfg, after).cursors
  {
    var first := FindNextWindow(cfg.cal, after);
    if first.None? {
      return None;
    }
    ghost var all := Begin(cfg, after).cursors;
    var senders := new Cursor[cfg.Senders()](_ => first.value);
    for i := 0 to senders.Length
      invariant senders[..i] == all[..i]
    {
      var start := PlaceSender(cfg, after, first.value, i, all);
      if start.None? {
        return None;
      }
      senders[i] := start.value;
      assert senders[..i + 1] == senders[..i] + [start.value] && all[..i + 1] == all[..i] + [all[i]];
    }
    assert senders[..senders.Length] == senders[..] && all[..senders.Length] == all;
    return Some(senders);
  }

  /** The i-th cursor, staggered within the first window or moved on to the next. */
  method PlaceSender(cfg: Config, after: int, first: Cursor, i: nat, ghost all: seq<Cursor>) returns (r: Option<Cursor>)
    requires cfg.cal.Valid() && first == NextWindow(cfg.cal, after) && all == Begin(cfg, after).cursors && i < |all|
    ensures r == Some(all[i])
  {
    var t := first.t + i * cfg.jitterMin * SECOND / cfg.Senders();
    if t < first.close {
      return Some(first.(t := t));
    }
    r := FindNextWindow(cfg.cal, first.close);
  }

  /** One pass of the loop body over the senders array, the day counts and the output. */
  method Pass(cfg: Config, draws: Draws, senders: array<Cursor>, dayCounts: map<int, nat>, out: seq<int>, ghost p: Progress)
    returns (dayCounts': map<int, nat>, out': seq<int>)
    requires cfg.cal.Valid() && |p.cursors| == |p.rolls| > 0
    requires senders[..] == p.cursors && dayCounts == p.counts && out == Floors(p.times)
    modifies senders
    ensures var q := Step(cfg, draws, p); senders[..] == q.cursors && dayCounts' == q.counts && out' == Floors(q.times)
  {
    dayCounts', out' := dayCounts, out;
    var k := Earliest(senders[..]);
    var s := senders[k];
    var day := cfg.cal.date(s.t);
    if cfg.dailyCap != 0 && CountAt(dayCounts, day) >= cfg.dailyCap {
      var w := FindNextWindow(cfg.cal, s.close);
      senders[k] := w.value;
      return;
    }
    var emitted := |out|;
    out' := out + [s.t / SECOND];
    dayCounts' := dayCounts[day := CountAt(dayCounts, day) + 1];
    var gap := if s.t >= s.close - cfg.rushTail * 60 * SECOND then draws.rush(emitted) else draws.calm(emitted);
    var nxt := s.t + gap;
    if nxt >= s.close {
      var w := FindNextWindow(cfg.cal, s.close);
      senders[k] := w.value;
    } else {
      senders[k] := s.(t := nxt);
    }
  }

  /** The greedy loop: the emitted instants, in whole seconds, in the order they were emitted. */
  method EmitTimes(cfg: Config, draws: Draws, n: int, after: int) returns (r: Option<seq<int>>)
    requires cfg.cal.Valid() && cfg.Usable() && draws.For(cfg)
    ensures r == Some(if n <= 0 then [] else Floors(SendTimes(cfg, draws, n, after)))
  {
    if n <= 0 {
      return Some([]);
    }
    var placed := PlaceSenders(cfg, after);
    if placed.None? {
      return None;
    }
    var senders := placed.value;
    var out: seq<int>, dayCounts: map<int, nat>, guard := [], map[], 0;
    ghost var p := Begin(cfg, after);
    while |out| < n
      invariant |p.cursors| == |p.rolls| > 0 && Loop(cfg, draws, n, p) == Loop(cfg, draws, n, Begin(cfg, after))
      invariant senders[..] == p.cursors && dayCounts == p.counts && out == Floors(p.times)
      invariant guard == p.guard <= Limit(n)
      decreases Limit(n) + 1 - guard
    {
      guard := guard + 1;
      if guard > n * 8 + 2000 {
        break;
      }
      dayCounts, out := Pass(cfg, draws, senders, dayCounts, out, p);
      p := Step(cfg, draws, p);
    }
    return Some(out);
  }

  function Emission(cfg: Config, draws: Draws, n: int, after: int): seq<int> {
    if n <= 0 then [] else Floors(SendTimes(cfg, draws, n, after))
  }

  /** The emitted instants print in order already, so sorting their texts changes nothing. */
  lemma EmissionPrintsInOrder(cfg: Config, draws: Draws, n: int, after: int)
    requires cfg.cal.Valid() && cfg.Usable() && draws.For(cfg) && Printable(Emission(cfg, draws, n, after))
    ensures TextsAscend(Texts(Emission(cfg, draws, n, after)))
    ensures SortTexts(Texts(Emission(cfg, draws, n, after))) == Texts(Emission(cfg, draws, n, after))
  {
    if n > 0 { FlooredTimesFit(cfg, draws, n, after); }
    AscendingPrints(Emission(cfg, draws, n, after));
  }

  lemma AscendingPrints(ts: seq<int>)
    requires Printable(ts) && Ascending(ts)
    ensures TextsAscend(Texts(ts)) && SortTexts(Texts(ts)) == Texts(ts)
  {
    TextsAscendExactly(ts);
    SortTextsIsIdentity(Texts(ts));
  }

  /** The send times as texts, oldest first. None stands for an instant that has no four-digit year. */
  method ComputeSendAts(cfg: Config, draws: Draws, n: int, after: int) returns (r: Option<seq<string>>)
    requires cfg.cal.Valid() && cfg.Usable() && draws.For(cfg)
    ensures r.Some? <==> Printable(Emission(cfg, draws, n, after))
    ensures r.Some? ==> r.value == Texts(Emission(cfg, draws, n, after)) && TextsAscend(r.value)
  {
    var emitted := EmitTimes(cfg, draws, n, after);
    var out := Format(emitted.value);
    if out.None? {
      return None;
    }
    EmissionPrintsInOrder(cfg, draws, n, after);
    return Some(SortTexts(out.value));
  }

  lemma OneMoreText(ts: seq<int>, t: int)
    requires Printable(ts) && FourDigitYear(t)
    ensures Printable(ts + [t]) && Texts(ts + [t]) == Texts(ts) + [Text(t)]
  {
  }

  method Format(ts: seq<int>) returns (out: Option<seq<string>>)
    ensures out.Some? <==> Printable(ts)
    ensures out.Some? ==> out.value == Texts(ts)
  {
    var texts: seq<string> := [];
    for i := 0 to |ts|
      invariant Printable(ts[..i]) && texts == Texts(ts[..i])
    {
      if !FourDigitYear(ts[i]) {
        return None;
      }
      OneMoreText(ts[..i], ts[i]);
      assert ts[..i + 1] == ts[..i] + [ts[i]];
      texts := texts + [Text(ts[i])];
    }
    assert ts[..|ts|] == ts;
    return Some(texts);
  }
}
