/** Unsubscribes: the cloud's cache and log, the terminal's suppression table, and what they block. */
module Unsubscribes {
  import opened PackIds
  import opened Desk

  datatype Scope = Promotional | All

  // Levels order the scopes: no unsubscribe, promotional mail only, all mail.

  function Rank(s: Scope): nat { if s == All then 2 else 1 }

  function Level(m: map<nat, Scope>, h: nat): nat { if h in m then Rank(m[h]) else 0 }

  function Max(a: nat, b: nat): nat { if a < b then b else a }

  // The cloud

  /** A log row is keyed by second and hash, so two writes of one second and hash share a row. */
  datatype Cloud = Cloud(cache: map<nat, Scope>, log: map<(int, nat), Scope>)

  /** The conditional put, or the upgrade after it failed. */
  function WriteCache(c: Cloud, h: nat, scope: Scope): Cloud {
    if h !in c.cache || scope == All then c.(cache := c.cache[h := scope]) else c
  }

  predicate Logs(c: Cloud, h: nat, scope: Scope) { h !in c.cache || scope == All }

  function WriteLog(c: Cloud, h: nat, scope: Scope, now: int): Cloud { c.(log := c.log[(now, h) := scope]) }

  /** One completed call. */
  function Put(c: Cloud, h: nat, scope: Scope, now: int): Cloud {
    if Logs(c, h, scope) then WriteLog(WriteCache(c, h, scope), h, scope, now) else WriteCache(c, h, scope)
  }

  class UnsubStore {
    var cloud: Cloud

    constructor ()
      ensures cloud == Cloud(map[], map[])
    {
      cloud := Cloud(map[], map[]);
    }

    method PutUnsub(h: nat, scope: Scope, now: int) returns (isNew: bool)
      modifies this
      ensures cloud == Put(old(cloud), h, scope, now)
      ensures isNew <==> h !in old(cloud).cache
      ensures Level(cloud.cache, h) == Max(Level(old(cloud).cache, h), Rank(scope))
      ensures forall k :: k != h ==> Level(cloud.cache, k) == Level(old(cloud).cache, k)
    {
      isNew := true;
      if h !in cloud.cache {
        cloud := cloud.(cache := cloud.cache[h := scope]);
      } else {
        isNew := false;
        if scope == All {
          cloud := cloud.(cache := cloud.cache[h := All]);
        }
      }
      if isNew || scope == All {
        cloud := cloud.(log := cloud.log[(now, h) := scope]);
      }
    }
  }

  /** The log and the cache tell the same scope for each hash: no log row is above it, and some row reaches it. */
  ghost predicate Agrees(c: Cloud) {
    && (forall k <- c.log :: Rank(c.log[k]) <= Level(c.cache, k.1))
    && (forall h <- c.cache :: exists now: int :: (now, h) in c.log && c.log[(now, h)] == c.cache[h])
  }

  lemma PutReaches(c: Cloud, h: nat, scope: Scope, now: int, g: nat, c': Cloud)
    requires Agrees(c) && c' == Put(c, h, scope, now) && g in c'.cache
    ensures exists t: int :: (t, g) in c'.log && c'.log[(t, g)] == c'.cache[g]
  {
  }

  lemma PutKeepsAgreement(c: Cloud, h: nat, scope: Scope, now: int)
    requires Agrees(c)
    ensures Agrees(Put(c, h, scope, now))
  {
    var c' := Put(c, h, scope, now);
    forall g | g in c'.cache ensures exists t: int :: (t, g) in c'.log && c'.log[(t, g)] == c'.cache[g] {
      PutReaches(c, h, scope, now, g, c');
    }
  }

  datatype Call = Call(hash: nat, scope: Scope, now: int)

  function PutAll(c: Cloud, calls: seq<Call>): Cloud {
    if calls == [] then c
    else
      var last := calls[|calls| - 1];
      Put(PutAll(c, calls[..|calls| - 1]), last.hash, last.scope, last.now)
  }

  lemma {:induction false} CallsAgree(calls: seq<Call>)
    ensures Agrees(PutAll(Cloud(map[], map[]), calls))
  {
    if calls != [] {
      var last := calls[|calls| - 1];
      CallsAgree(calls[..|calls| - 1]);
      PutKeepsAgreement(PutAll(Cloud(map[], map[]), calls[..|calls| - 1]), last.hash, last.scope, last.now);
    }
  }

  function CallTop(calls: seq<Call>, h: nat): nat {
    if calls == [] then 0
    else Max(CallTop(calls[..|calls| - 1], h), if calls[|calls| - 1].hash == h then Rank(calls[|calls| - 1].scope) else 0)
  }

  /** The cache holds, for each hash, the widest scope ever asked for. */
  lemma {:induction false} CacheIsJoin(calls: seq<Call>, h: nat)
    ensures Level(PutAll(Cloud(map[], map[]), calls).cache, h) == CallTop(calls, h)
  {
    if calls != [] { CacheIsJoin(calls[..|calls| - 1], h); }
  }

  // The terminal

  /** A pulled log row, whose fields may be missing or malformed. */
  datatype Entry = Entry(hash: Option<nat>, scope: Option<string>)

  datatype Suppression = Suppression(reason: string, scope: Scope)

  type Table = map<nat, Suppression>

  function Coerced(e: Entry): Scope { if e.scope == Some("promotional") then Promotional else All }

  function ScopeText(s: Scope): string { if s == All then "all" else "promotional" }

  function MergeOne(t: Table, e: Entry): Table {
    if e.hash.None? then t
    else if e.hash.value !in t then t[e.hash.value := Suppression("unsubscribe", Coerced(e))]
    else if Coerced(e) == All && t[e.hash.value].scope != All then t[e.hash.value := t[e.hash.value].(scope := All)]
    else t
  }

  function Merged(t: Table, es: seq<Entry>): Table {
    if es == [] then t else MergeOne(Merged(t, es[..|es| - 1]), es[|es| - 1])
  }

  function Changes(t: Table, es: seq<Entry>): nat {
    if es == [] then 0
    else
      var before := Merged(t, es[..|es| - 1]);
      Changes(t, es[..|es| - 1]) + if MergeOne(before, es[|es| - 1]) == before then 0 else 1
  }

  class SuppressionList {
    var rows: Table

    constructor ()
      ensures rows == map[]
    {
      rows := map[];
    }

    method MergeUnsubs(unsubs: seq<Entry>) returns (applied: nat)
      modifies this
      ensures rows == Merged(old(rows), unsubs) && applied == Changes(old(rows), unsubs)
    {
      applied := 0;
      for i := 0 to |unsubs|
        invariant rows == Merged(old(rows), unsubs[..i]) && applied == Changes(old(rows), unsubs[..i])
      {
        assert unsubs[..i + 1][..i] == unsubs[..i];
        var u := unsubs[i];
        if u.hash.None? {
          continue;
        }
        var h, scope := u.hash.value, Coerced(u);
        if h !in rows {
          rows := rows[h := Suppression("unsubscribe", scope)];
          applied := applied + 1;
        } else if scope == All && rows[h].scope != All {
          rows := rows[h := rows[h].(scope := All)];
          applied := applied + 1;
        }
      }
      assert unsubs[..|unsubs|] == unsubs;
    }

    /** An insert-or-ignore by an operator, a bounce or a sync event; the scope defaults to all. */
    method Suppress(h: nat, reason: string)
      modifies this
      ensures rows == Ignored(old(rows), h, reason)
    {
      if h !in rows {
        rows := rows[h := Suppression(reason, All)];
      }
    }
  }

  function Ignored(t: Table, h: nat, reason: string): Table { if h in t then t else t[h := Suppression(reason, All)] }

  function TableLevel(t: Table, h: nat): nat { if h in t then Rank(t[h].scope) else 0 }

  /** The highest scope a list of entries asks for a hash. */
  function Top(es: seq<Entry>, h: nat): nat {
    if es == [] then 0
    else Max(Top(es[..|es| - 1], h), if es[|es| - 1].hash == Some(h) then Rank(Coerced(es[|es| - 1])) else 0)
  }

  /** Merging is the join of the scope lattice, hash by hash; reasons already there stay. */
  lemma {:induction false} MergeIsJoin(t: Table, es: seq<Entry>, h: nat)
    ensures TableLevel(Merged(t, es), h) == Max(TableLevel(t, h), Top(es, h))
    ensures h in Merged(t, es) ==> Merged(t, es)[h].reason == if h in t then t[h].reason else "unsubscribe"
  {
    if es != [] { MergeIsJoin(t, es[..|es| - 1], h); }
  }

  lemma {:induction false} TopIsReached(es: seq<Entry>, h: nat)
    ensures forall e <- es :: e.hash == Some(h) ==> Rank(Coerced(e)) <= Top(es, h)
    ensures Top(es, h) > 0 ==> exists e :: e in es && e.hash == Some(h) && Rank(Coerced(e)) == Top(es, h)
    ensures Top(es, h) <= 2
  {
    if es != [] {
      var last := es[|es| - 1];
      TopIsReached(es[..|es| - 1], h);
      assert es == es[..|es| - 1] + [last];
      assert last in es;
    }
  }

  lemma SameEntriesSameTop(es: seq<Entry>, fs: seq<Entry>, h: nat)
    requires forall e :: e in es <==> e in fs
    ensures Top(es, h) == Top(fs, h)
  {
    TopIsReached(es, h);
    TopIsReached(fs, h);
  }

  lemma LevelsDecide(t: Table, u: Table)
    requires forall h :: TableLevel(t, h) == TableLevel(u, h)
    requires forall h :: h in t && h in u ==> t[h].reason == u[h].reason
    ensures t == u
  {
    forall h ensures h in t <==> h in u { assert TableLevel(t, h) == TableLevel(u, h); }
    forall h | h in t ensures t[h] == u[h] { assert TableLevel(t, h) == TableLevel(u, h); }
  }

  /** Merging a row again later would change nothing, and the count is zero exactly when nothing changed. */
  lemma {:induction false} CountsChanges(t: Table, es: seq<Entry>)
    ensures Changes(t, es) == 0 <==> Merged(t, es) == t
  {
    if es != [] {
      var rest, last := es[..|es| - 1], es[|es| - 1];
      CountsChanges(t, rest);
      if Merged(t, es) == t { MergeNeverGoesBack(t, rest, last); }
    }
  }

  lemma MergeNeverGoesBack(t: Table, rest: seq<Entry>, last: Entry)
    requires MergeOne(Merged(t, rest), last) == t
    ensures Merged(t, rest) == t
  {
    var u := Merged(t, rest);
    forall h ensures TableLevel(u, h) == TableLevel(t, h) { MergeIsJoin(t, rest, h); }
    forall h | h in t && h in u ensures t[h].reason == u[h].reason { MergeIsJoin(t, rest, h); }
    LevelsDecide(u, t);
  }

  /** The order, the batching and the repetition of merged rows do not matter. */
  lemma MergeIsOrderFree(t: Table, es: seq<Entry>, fs: seq<Entry>)
    requires forall e :: e in es <==> e in fs
    ensures Merged(t, es) == Merged(t, fs)
  {
    forall h ensures TableLevel(Merged(t, es), h) == TableLevel(Merged(t, fs), h) {
      MergeIsJoin(t, es, h);
      MergeIsJoin(t, fs, h);
      SameEntriesSameTop(es, fs, h);
    }
    forall h | h in Merged(t, es) && h in Merged(t, fs) ensures Merged(t, es)[h].reason == Merged(t, fs)[h].reason {
      MergeIsJoin(t, es, h);
      MergeIsJoin(t, fs, h);
    }
    LevelsDecide(Merged(t, es), Merged(t, fs));
  }

  lemma {:induction false} MergeInParts(t: Table, es: seq<Entry>, fs: seq<Entry>)
    ensures Merged(t, es + fs) == Merged(Merged(t, es), fs)
  {
    if fs == [] {
      assert es + fs == es;
    } else {
      assert (es + fs)[..|es + fs| - 1] == es + fs[..|fs| - 1];
      MergeInParts(t, es, fs[..|fs| - 1]);
    }
  }

  function LogEntry(c: Cloud, k: (int, nat)): Entry requires k in c.log { Entry(Some(k.1), Some(ScopeText(c.log[k]))) }

  /** A listing of the log: every row at least once, in any order, and nothing else. */
  ghost predicate Lists(es: seq<Entry>, c: Cloud) {
    && (forall k <- c.log :: LogEntry(c, k) in es)
    && (forall e <- es :: exists k :: k in c.log && e == LogEntry(c, k))
  }

  lemma LogTop(c: Cloud, es: seq<Entry>, h: nat)
    requires Agrees(c) && Lists(es, c)
    ensures Top(es, h) == Level(c.cache, h)
  {
    TopIsReached(es, h);
    if h in c.cache {
      var now: int :| (now, h) in c.log && c.log[(now, h)] == c.cache[h];
      assert LogEntry(c, (now, h)) in es;
      assert Coerced(LogEntry(c, (now, h))) == c.cache[h];
    }
    if Top(es, h) > 0 {
      var e :| e in es && e.hash == Some(h) && Rank(Coerced(e)) == Top(es, h);
      var k :| k in c.log && e == LogEntry(c, k);
      assert Coerced(e) == c.log[k];
    }
  }

  /** After any sequence of completed calls, merging the log into an empty table, in any order, with any repetition, gives the cache. */
  lemma LogFoldsToCache(calls: seq<Call>, es: seq<Entry>)
    requires Lists(es, PutAll(Cloud(map[], map[]), calls))
    ensures Merged(map[], es).Keys == PutAll(Cloud(map[], map[]), calls).cache.Keys
    ensures forall h <- Merged(map[], es) ::
      Merged(map[], es)[h] == Suppression("unsubscribe", PutAll(Cloud(map[], map[]), calls).cache[h])
  {
    CallsAgree(calls);
    var c := PutAll(Cloud(map[], map[]), calls);
    forall h
      ensures h in Merged(map[], es) <==> h in c.cache
      ensures h in c.cache ==> Merged(map[], es)[h] == Suppression("unsubscribe", c.cache[h])
    {
      LogFoldsAt(c, es, h);
    }
  }

  lemma LogFoldsAt(c: Cloud, es: seq<Entry>, h: nat)
    requires Agrees(c) && Lists(es, c)
    ensures h in Merged(map[], es) <==> h in c.cache
    ensures h in c.cache ==> Merged(map[], es)[h] == Suppression("unsubscribe", c.cache[h])
  {
    MergeIsJoin(map[], es, h);
    LogTop(c, es, h);
    assert TableLevel(Merged(map[], es), h) == Level(c.cache, h);
  }

  // Overlapping calls

  /** Calls between their cache write and their log write. */
  datatype Overlap = Overlap(cloud: Cloud, pending: multiset<Call>)

  predicate CacheStep(o: Overlap, o': Overlap, call: Call) {
    && o'.cloud == WriteCache(o.cloud, call.hash, call.scope)
    && o'.pending == if Logs(o.cloud, call.hash, call.scope) then o.pending + multiset{call} else o.pending
  }

  predicate LogStep(o: Overlap, o': Overlap, call: Call) {
    && call in o.pending
    && o'.cloud == WriteLog(o.cloud, call.hash, call.scope, call.now) && o'.pending == o.pending - multiset{call}
  }

  predicate InStep(o: Overlap, o': Overlap, call: Call) { CacheStep(o, o', call) || LogStep(o, o', call) }

  ghost predicate OverlapRun(run: seq<Overlap>, calls: seq<Call>) {
    && |run| == |calls| + 1 && run[0] == Overlap(Cloud(map[], map[]), multiset{})
    && forall i :: 0 <= i < |calls| ==> StepAt(run, calls, i)
  }

  predicate StepAt(run: seq<Overlap>, calls: seq<Call>, i: nat)
    requires i < |calls| && |run| == |calls| + 1
  {
    InStep(run[i], run[i + 1], calls[i])
  }

  /** The calls that wrote to the log in the first k steps, in the order of those writes. */
  function Writes(run: seq<Overlap>, calls: seq<Call>, k: nat): seq<Call>
    requires |run| == |calls| + 1 && k <= |calls|
  {
    if k == 0 then []
    else Writes(run, calls, k - 1) + if LogStep(run[k - 1], run[k], calls[k - 1]) then [calls[k - 1]] else []
  }

  /** The scope of the last write to a second and hash. */
  function LastWrite(ws: seq<Call>, now: int, h: nat): Option<Scope> {
    if ws == [] then None
    else
      var last := ws[|ws| - 1];
      if last.now == now && last.hash == h then Some(last.scope) else LastWrite(ws[..|ws| - 1], now, h)
  }

  /** Some call asks to be unsubscribed from everything. */
  predicate Asked(calls: seq<Call>, h: nat) { exists c <- calls :: c.hash == h && c.scope == All }

  lemma LastWriteSnoc(ws: seq<Call>, c: Call, now: int, h: nat)
    ensures LastWrite(ws + [c], now, h) == if c.now == now && c.hash == h then Some(c.scope) else LastWrite(ws, now, h)
  {
    assert (ws + [c])[..|ws|] == ws;
  }

  function InLog(o: Overlap, now: int, h: nat): Option<Scope> {
    if (now, h) in o.cloud.log then Some(o.cloud.log[(now, h)]) else None
  }

  lemma LastWriteStep(o: Overlap, o': Overlap, call: Call, ws: seq<Call>, now: int, h: nat)
    requires InStep(o, o', call) && LastWrite(ws, now, h) == InLog(o, now, h)
    ensures LastWrite(ws + if LogStep(o, o', call) then [call] else [], now, h) == InLog(o', now, h)
  {
    if LogStep(o, o', call) { LastWriteSnoc(ws, call, now, h); } else { assert ws + [] == ws; }
  }

  lemma {:induction false} LogIsLastWrites(run: seq<Overlap>, calls: seq<Call>, k: nat, now: int, h: nat)
    requires OverlapRun(run, calls) && k <= |calls|
    ensures LastWrite(Writes(run, calls, k), now, h) == InLog(run[k], now, h)
  {
    if k > 0 {
      LogIsLastWrites(run, calls, k - 1, now, h);
      LastWriteAt(run, calls, k - 1, Writes(run, calls, k - 1), now, h);
    }
  }

  lemma LastWriteAt(run: seq<Overlap>, calls: seq<Call>, i: nat, ws: seq<Call>, now: int, h: nat)
    requires OverlapRun(run, calls) && i < |calls| && ws == Writes(run, calls, i) && LastWrite(ws, now, h) == InLog(run[i], now, h)
    ensures LastWrite(Writes(run, calls, i + 1), now, h) == InLog(run[i + 1], now, h)
  {
    assert StepAt(run, calls, i);
    LastWriteStep(run[i], run[i + 1], calls[i], ws, now, h);
  }

  ghost predicate PromotionalBacked(o: Overlap, h: nat) {
    || (exists now: int :: (now, h) in o.cloud.log && o.cloud.log[(now, h)] == Promotional)
    || (exists p :: p in o.pending && p.hash == h && p.scope == Promotional)
  }

  /** Nothing exceeds the cache, and a promotional cache row has its log row written or still to come. */
  ghost predicate OverlapInv(o: Overlap) {
    && (forall k <- o.cloud.log :: Rank(o.cloud.log[k]) <= Level(o.cloud.cache, k.1))
    && (forall p <- o.pending :: Rank(p.scope) <= Level(o.cloud.cache, p.hash))
    && (forall h <- o.cloud.cache :: o.cloud.cache[h] == Promotional ==> PromotionalBacked(o, h))
  }

  lemma BackedAfterCache(o: Overlap, o': Overlap, call: Call, h: nat)
    requires OverlapInv(o) && CacheStep(o, o', call) && h in o'.cloud.cache && o'.cloud.cache[h] == Promotional
    ensures PromotionalBacked(o', h)
  {
    if h == call.hash && h !in o.cloud.cache {
      assert call in o'.pending;
    } else {
      assert PromotionalBacked(o, h);
      assert forall p <- o.pending :: p in o'.pending;
    }
  }

  lemma BackedAfterLog(o: Overlap, o': Overlap, call: Call, h: nat)
    requires OverlapInv(o) && LogStep(o, o', call) && h in o.cloud.cache && o.cloud.cache[h] == Promotional
    ensures PromotionalBacked(o', h)
  {
    assert PromotionalBacked(o, h);
    if call.hash == h {
      assert (call.now, h) in o'.cloud.log && o'.cloud.log[(call.now, h)] == Promotional;
    } else if now: int :| (now, h) in o.cloud.log && o.cloud.log[(now, h)] == Promotional {
      assert (now, h) in o'.cloud.log;
    } else {
      var p :| p in o.pending && p.hash == h && p.scope == Promotional;
      assert p in o'.pending;
    }
  }

  lemma OverlapStep(o: Overlap, o': Overlap, call: Call)
    requires OverlapInv(o) && InStep(o, o', call)
    ensures OverlapInv(o')
    ensures forall h :: Level(o'.cloud.cache, h) == 2 <==> Level(o.cloud.cache, h) == 2 || (call.hash == h && call.scope == All)
  {
    if CacheStep(o, o', call) {
      forall h | h in o'.cloud.cache && o'.cloud.cache[h] == Promotional ensures PromotionalBacked(o', h) { BackedAfterCache(o, o', call, h); }
    } else {
      forall h | h in o'.cloud.cache && o'.cloud.cache[h] == Promotional ensures PromotionalBacked(o', h) { BackedAfterLog(o, o', call, h); }
    }
  }

  lemma {:induction false} OverlapRunInv(run: seq<Overlap>, calls: seq<Call>, k: nat)
    requires OverlapRun(run, calls) && k <= |calls|
    ensures OverlapInv(run[k])
    ensures forall h :: Level(run[k].cloud.cache, h) == 2 <==> Asked(calls[..k], h)
  {
    if k > 0 {
      OverlapRunInv(run, calls, k - 1);
      OverlapStepAt(run, calls, k - 1, run[k - 1], run[k]);
      forall h ensures Asked(calls[..k], h) <==> Asked(calls[..k - 1], h) || (calls[k - 1].hash == h && calls[k - 1].scope == All) {
        assert calls[..k] == calls[..k - 1] + [calls[k - 1]];
        AskedSnoc(calls[..k - 1], calls[k - 1], h);
      }
    }
  }

  lemma OverlapStepAt(run: seq<Overlap>, calls: seq<Call>, i: nat, o: Overlap, o': Overlap)
    requires OverlapRun(run, calls) && i < |calls| && o == run[i] && o' == run[i + 1] && OverlapInv(o)
    ensures OverlapInv(o')
    ensures forall h :: Level(o'.cloud.cache, h) == 2 <==> Level(o.cloud.cache, h) == 2 || (calls[i].hash == h && calls[i].scope == All)
  {
    assert StepAt(run, calls, i);
    OverlapStep(o, o', calls[i]);
  }

  lemma AskedSnoc(calls: seq<Call>, c: Call, h: nat)
    ensures Asked(calls + [c], h) <==> Asked(calls, h) || (c.hash == h && c.scope == All)
  {
    assert forall x :: x in calls + [c] <==> x in calls || x == c;
  }

  lemma FinishedAgrees(o: Overlap)
    requires OverlapInv(o) && o.pending == multiset{}
    ensures Agrees(o.cloud) <==>
      forall h: nat :: Level(o.cloud.cache, h) == 2 ==> exists now: int :: (now, h) in o.cloud.log && o.cloud.log[(now, h)] == All
  {
    if forall h: nat :: Level(o.cloud.cache, h) == 2 ==> exists now: int :: (now, h) in o.cloud.log && o.cloud.log[(now, h)] == All {
      forall h | h in o.cloud.cache ensures exists now: int :: (now, h) in o.cloud.log && o.cloud.log[(now, h)] == o.cloud.cache[h] {
        if o.cloud.cache[h] == Promotional { assert PromotionalBacked(o, h); } else { assert Level(o.cloud.cache, h) == 2; }
      }
    }
  }

  /** Of the log writes of the hash, the last one in some second is an 'all' call's. */
  ghost predicate AllWritesLast(ws: seq<Call>, h: nat) { exists now: int :: LastWrite(ws, now, h) == Some(All) }

  /**
   However calls overlap, once all are done the log agrees with the cache exactly when every hash that asked to be
   unsubscribed from everything has a second whose last log write asked for that too.
   */
  lemma OverlapsAgreeExactly(run: seq<Overlap>, calls: seq<Call>)
    requires OverlapRun(run, calls) && run[|calls|].pending == multiset{}
    ensures Agrees(run[|calls|].cloud) <==> forall h :: Asked(calls, h) ==> AllWritesLast(Writes(run, calls, |calls|), h)
  {
    var n := |calls|;
    var o := run[n];
    OverlapRunInv(run, calls, n);
    assert calls[..n] == calls;
    FinishedAgrees(o);
    forall h: nat ensures AllWritesLast(Writes(run, calls, n), h) <==> exists now: int :: (now, h) in o.cloud.log && o.cloud.log[(now, h)] == All {
      forall now: int ensures LastWrite(Writes(run, calls, n), now, h) == Some(All) <==> (now, h) in o.cloud.log && o.cloud.log[(now, h)] == All {
        LogIsLastWrites(run, calls, n, now, h);
      }
    }
  }

  /** A promotional call and an 'all' call of one second can leave the log below the cache: the slower promotional write takes the shared row. */
  lemma SameSecondLosesUpgrade(h: nat, now: int) returns (run: seq<Overlap>, calls: seq<Call>)
    ensures OverlapRun(run, calls)
    ensures var last := run[|calls|];
      last.pending == multiset{} && last.cloud.cache == map[h := All] && last.cloud.log == map[(now, h) := Promotional]
  {
    var p, a := Call(h, Promotional, now), Call(h, All, now);
    var o0 := Overlap(Cloud(map[], map[]), multiset{});
    var o1 := Overlap(Cloud(map[h := Promotional], map[]), multiset{p});
    var o2 := Overlap(Cloud(map[h := All], map[]), multiset{p, a});
    var o3 := Overlap(Cloud(map[h := All], map[(now, h) := All]), multiset{p});
    var o4 := Overlap(Cloud(map[h := All], map[(now, h) := Promotional]), multiset{});
    calls := [p, a, a, p];
    run := [o0, o1, o2, o3, o4];
    assert InStep(o0, o1, p) && InStep(o1, o2, a) && InStep(o2, o3, a) && InStep(o3, o4, p);
  }

  // What is blocked

  /** {hash: reason} for a send of a kind. */
  function Blocked(t: Table, promotional: bool): map<nat, string> {
    map h | h in t && (t[h].reason != "unsubscribe" || t[h].scope == All || promotional) :: t[h].reason
  }

  datatype Write = Merging(es: seq<Entry>) | Adding(hash: nat, reason: string)

  function Written(t: Table, w: Write): Table {
    match w
    case Merging(es) => Merged(t, es)
    case Adding(h, reason) => Ignored(t, h, reason)
  }

  function AllWritten(t: Table, ws: seq<Write>): Table {
    if ws == [] then t else Written(AllWritten(t, ws[..|ws| - 1]), ws[|ws| - 1])
  }

  lemma WriteKeepsBlocked(t: Table, w: Write, promotional: bool, h: nat)
    requires h in Blocked(t, promotional)
    ensures h in Blocked(Written(t, w), promotional) && Blocked(Written(t, w), promotional)[h] == Blocked(t, promotional)[h]
  {
    if w.Merging? {
      MergeIsJoin(t, w.es, h);
      TopIsReached(w.es, h);
    }
  }

  /** Whatever is merged or added later, a blocked hash stays blocked, for the same reason. */
  lemma {:induction false} BlockedNeverShrinks(t: Table, ws: seq<Write>, promotional: bool, h: nat)
    requires h in Blocked(t, promotional)
    ensures h in Blocked(AllWritten(t, ws), promotional)
    ensures Blocked(AllWritten(t, ws), promotional)[h] == Blocked(t, promotional)[h]
  {
    if ws != [] {
      BlockedNeverShrinks(t, ws[..|ws| - 1], promotional, h);
      WriteKeepsBlocked(AllWritten(t, ws[..|ws| - 1]), ws[|ws| - 1], promotional, h);
    }
  }

  /**
   What merging blocks, for a hash that was not suppressed before: promotional mail if any row names it, and all mail
   exactly if one of those rows does not say 'promotional', a missing or unknown scope included.
   */
  lemma MergedBlocksExactly(t: Table, es: seq<Entry>, h: nat)
    requires h !in t
    ensures h in Blocked(Merged(t, es), true) <==> exists e <- es :: e.hash == Some(h)
    ensures h in Blocked(Merged(t, es), false) <==> exists e <- es :: e.hash == Some(h) && e.scope != Some("promotional")
  {
    MergeIsJoin(t, es, h);
    TopIsReached(es, h);
  }

  /** No plan made after a hash was blocked sends to it: each such candidate is listed as suppressed. */
  lemma LaterPlansSuppress(t: Table, ws: seq<Write>, promotional: bool, h: nat, jobs: Jobs, campaign: nat, key: SendKey, cands: seq<Candidate>)
    requires h in Blocked(t, promotional)
    ensures var p := PlanOf(jobs, Blocked(AllWritten(t, ws), promotional), campaign, key, cands);
      forall e <- p.sends :: e.0.hash != h
  {
    BlockedNeverShrinks(t, ws, promotional, h);
    PlanPartitions(jobs, Blocked(AllWritten(t, ws), promotional), campaign, key, cands);
  }

  /** A completed call whose log row has been merged stops promotional mail for good, and all mail if its scope is all. */
  lemma UnsubscribeIsHonoured(t: Table, es: seq<Entry>, ws: seq<Write>, call: Call, promotional: bool,
                              jobs: Jobs, campaign: nat, key: SendKey, cands: seq<Candidate>)
    requires exists e :: e in es && e.hash == Some(call.hash) && Rank(Coerced(e)) >= Rank(call.scope)
    requires promotional || call.scope == All
    ensures var p := PlanOf(jobs, Blocked(AllWritten(Merged(t, es), ws), promotional), campaign, key, cands);
      forall e <- p.sends :: e.0.hash != call.hash
  {
    MergeIsJoin(t, es, call.hash);
    TopIsReached(es, call.hash);
    LaterPlansSuppress(Merged(t, es), ws, promotional, call.hash, jobs, campaign, key, cands);
  }

  /**
   Adding a suppression by hand blocks every kind of mail except in one case: the hash already has a
   promotional unsubscribe, the insert is ignored, and transactional mail still goes.
   */
  lemma AddingBlocksExactly(t: Table, h: nat, reason: string, promotional: bool)
    ensures h in Blocked(Ignored(t, h, reason), promotional)
       <==> promotional || h !in t || t[h].reason != "unsubscribe" || t[h].scope == All
  {
  }
}
