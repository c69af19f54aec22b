/** One dispatcher invocation: a batch of queue records, processed in sender groups. */
module Dispatcher {
  import opened PackIds
  import opened PackStore
  import CM = CloudMachine
  import Desk

  datatype Record = Malformed | Message(id: PackId)

  /** What decrypting a payload yields. */
  datatype Body = Garbled | Plain(hasApiKey: bool, senders: int)

  /** Everything the invocation cannot decide: keys, payloads, the provider's answers. */
  datatype Env = Env(keyPresent: nat -> bool,          // at the n-th processed record
                     body: PackId -> Body,
                     answer: nat -> CM.Answer,         // to the n-th post
                     now: int)

  datatype Trace = Trace(packs: Packs, visited: seq<PackId>, posts: seq<PackId>, replies: seq<CM.Reply>,
                         accepted: seq<PackId>)

  datatype Outcome = Skipped | Processed(senders: int) | Stopped

  function ProcessOne(env: Env, t: Trace, id: PackId): (Trace, Outcome) {
    var t0 := t.(visited := t.visited + [id]);
    if !IsPending(t.packs, id) then (t0, Skipped)
    else
      var claimed := Claim(t.packs, id, env.now);
      if !env.keyPresent(|t.visited|) then
        (t0.(packs := Resolve(claimed, id, StuckNoKey, true, env.now)), Processed(1))
      else match env.body(id)
        case Garbled => (t0.(packs := Resolve(claimed, id, Failed, false, env.now)), Processed(1))
        case Plain(hasApiKey, senders) =>
          if !hasApiKey then (t0.(packs := Resolve(claimed, id, Failed, false, env.now)), Processed(senders))
          else
            var a := env.answer(|t.posts|);
            var status := CM.SendStatus(a.reply);
            (t0.(packs := Resolve(claimed, id, status, false, env.now),
                 posts := t.posts + [id],
                 replies := t.replies + [a.reply],
                 accepted := if a.accepted then t.accepted + [id] else t.accepted),
             if status == Unknown then Stopped else Processed(senders))
  }

  // What processing one pack comes to, told without saying how it is computed

  predicate Sendable(env: Env, step: nat, id: PackId) {
    env.keyPresent(step) && env.body(id).Plain? && env.body(id).hasApiKey
  }

  /** Posted once; the row and the stop say what the provider's answer means. */
  predicate PostedAs(reply: CM.Reply, t: Trace, t': Trace, id: PackId, o: Outcome)
    requires id in t'.packs
  {
    var row := t'.packs[id];
    && t'.posts == t.posts + [id] && t'.replies == t.replies + [reply] && !row.payload
    && (row.status == Sent <==> reply == CM.Accepted2xx)
    && (row.status == Failed <==> reply == CM.Rejected4xx)
    && (row.status == Unknown <==> reply in {CM.Error5xx, CM.NetworkError})
    && (o == Stopped <==> reply in {CM.Error5xx, CM.NetworkError})
  }

  /** Given up without a post: stuck with its payload while there is no key, failed without it when it cannot be sent. */
  predicate GivenUpAs(hasKey: bool, t: Trace, t': Trace, id: PackId, o: Outcome)
    requires id in t.packs && id in t'.packs
  {
    && t'.posts == t.posts && t'.replies == t.replies && t'.accepted == t.accepted && o.Processed?
    && (if hasKey then t'.packs[id].status == Failed && !t'.packs[id].payload
        else t'.packs[id].status == StuckNoKey && t'.packs[id].payload == t.packs[id].payload)
  }

  predicate ProcessedAs(env: Env, t: Trace, t': Trace, id: PackId, o: Outcome) {
    && t'.visited == t.visited + [id] && t'.packs.Keys == t.packs.Keys
    && (forall k <- t.packs :: k != id ==> t'.packs[k] == t.packs[k])
    && if id in t.packs && t.packs[id].status == Pending then
         && t'.packs[id].resolvedAt == Some(env.now) && t'.packs[id].claimedAt == Some(env.now)
         && (if Sendable(env, |t.visited|, id) then PostedAs(env.answer(|t.posts|).reply, t, t', id, o)
             else GivenUpAs(env.keyPresent(|t.visited|), t, t', id, o))
       else t' == t.(visited := t'.visited) && o == Skipped
  }

  lemma ProcessExactly(env: Env, t: Trace, id: PackId)
    ensures ProcessedAs(env, t, ProcessOne(env, t, id).0, id, ProcessOne(env, t, id).1)
  {
  }

  datatype Results = Results(processed: nat, skipped: nat, failed: nat)

  datatype Drained = Drained(trace: Trace, results: Results, stopped: bool)

  function DrainOne(env: Env, d: Drained, r: Record): Drained {
    match r
    case Malformed => d.(results := d.results.(failed := d.results.failed + 1))
    case Message(id) =>
      var (t, o) := ProcessOne(env, d.trace, id);
      match o
      case Skipped => d.(trace := t, results := d.results.(skipped := d.results.skipped + 1))
      case Processed(_) => d.(trace := t, results := d.results.(processed := d.results.processed + 1))
      case Stopped => d.(trace := t, stopped := true)
  }

  /** The batch as one flat pass: record after record, ending at the first unknown send. */
  function Drain(env: Env, t: Trace, records: seq<Record>): Drained {
    if records == [] then Drained(t, Results(0, 0, 0), false)
    else
      var d := Drain(env, t, records[..|records| - 1]);
      if d.stopped then d else DrainOne(env, d, records[|records| - 1])
  }

  function Ids(records: seq<Record>): seq<PackId> {
    if records == [] then []
    else
      var rest, r := Ids(records[..|records| - 1]), records[|records| - 1];
      if r.Message? then rest + [r.id] else rest
  }

  class Worker {
    var table: PackTable
    var visited: seq<PackId>    // packs handed to Process, in order
    var posts: seq<PackId>
    var replies: seq<CM.Reply>
    var accepted: seq<PackId>

    constructor (table: PackTable)
      ensures this.table == table && visited == [] && posts == [] && replies == [] && accepted == []
    {
      this.table := table;
      visited, posts, replies, accepted := [], [], [], [];
    }

    function Now(): Trace reads this, table { Trace(table.packs, visited, posts, replies, accepted) }

    /** One pack: skip, give up, or send it once. `Stopped` stands for the exception that ends the invocation. */
    method Process(env: Env, id: PackId) returns (o: Outcome)
      modifies this`visited, this`posts, this`replies, this`accepted, table
      ensures table == old(table)
      ensures (Now(), o) == ProcessOne(env, old(Now()), id)
      ensures ProcessedAs(env, old(Now()), Now(), id, o)
    {
      ProcessExactly(env, Now(), id);
      var step := |visited|;
      visited := visited + [id];
      if id !in table.packs || table.packs[id].status != Pending {
        return Skipped;
      }
      var won := table.ClaimPack(id, env.now);
      if !won {
        return Skipped;
      }
      if !env.keyPresent(step) {
        table.UpdatePack(id, StuckNoKey, true, env.now);
        return Processed(1);
      }
      match env.body(id) {
        case Garbled =>
          table.UpdatePack(id, Failed, false, env.now);
          return Processed(1);
        case Plain(hasApiKey, senders) =>
          if !hasApiKey {
            table.UpdatePack(id, Failed, false, env.now);
            return Processed(senders);
          }
          var a := env.answer(|posts|);
          posts := posts + [id];
          replies := replies + [a.reply];
          if a.accepted {
            accepted := accepted + [id];
          }
          table.UpdatePack(id, CM.SendStatus(a.reply), false, env.now);
          return if CM.SendStatus(a.reply) == Unknown then Stopped else Processed(senders);
      }
    }

    /** The i-th record's share of the loop body, with the sender count its pack asks for. */
    method HandleRecord(env: Env, ghost start: Trace, records: seq<Record>, i: nat, results: Results)
      returns (results': Results, senders: int, stopped: bool)
      requires i < |records| && Drained(Now(), results, false) == Drain(env, start, records[..i])
      modifies this`visited, this`posts, this`replies, this`accepted, table
      ensures table == old(table)
      ensures Drained(Now(), results', stopped) == Drain(env, start, records[..i + 1])
    {
      DrainSnoc(env, start, records, i);
      senders, stopped := 1, false;
      if records[i].Malformed? {
        results' := results.(failed := results.failed + 1);
        return;
      }
      var o := Process(env, records[i].id);
      match o {
        case Skipped => results' := results.(skipped := results.skipped + 1);
        case Processed(n) =>
          results' := results.(processed := results.processed + 1);
          senders := n;
        case Stopped =>
          results' := results;
          stopped := true;
      }
    }

    /** The rest of a sender group: up to `senders - 1` further records, however many there are. */
    method HandleGroup(env: Env, ghost start: Trace, records: seq<Record>, first: nat, senders: int, results: Results)
      returns (i: nat, results': Results, stopped: bool)
      requires first <= |records| && Drained(Now(), results, false) == Drain(env, start, records[..first])
      modifies this`visited, this`posts, this`replies, this`accepted, table
      ensures table == old(table) && first <= i <= |records|
      ensures Drained(Now(), results', stopped) == Drain(env, start, records[..i])
    {
      i, results', stopped := first, results, false;
      var k := 1;
      while k < senders && i < |records| && !stopped
        invariant first <= i <= |records| && table == old(table)
        invariant Drained(Now(), results', stopped) == Drain(env, start, records[..i])
        decreases |records| - i
      {
        var more;
        results', more, stopped := HandleRecord(env, start, records, i, results');
        i, k := i + 1, k + 1;
      }
    }

    /** The two nested loops, group by group, do exactly what the flat pass does, whatever the group sizes. */
    method Handle(env: Env, records: seq<Record>) returns (results: Results, stopped: bool)
      modifies this`visited, this`posts, this`replies, this`accepted, table
      ensures table == old(table)
      ensures Drained(Now(), results, stopped) == Drain(env, old(Now()), records)
    {
      ghost var start := Now();
      results, stopped := Results(0, 0, 0), false;
      var i := 0;
      while i < |records| && !stopped
        invariant i <= |records| && table == old(table)
        invariant Drained(Now(), results, stopped) == Drain(env, start, records[..i])
        decreases |records| - i
      {
        var senders;
        var malformed := records[i].Malformed?;
        results, senders, stopped := HandleRecord(env, start, records, i, results);
        i := i + 1;
        if !malformed && !stopped {
          i, results, stopped := HandleGroup(env, start, records, i, senders, results);
        }
      }
      if stopped {
        DrainStopped(env, start, records, i);
      } else {
        assert records[..i] == records;
      }
    }
  }

  lemma DrainSnoc(env: Env, t: Trace, records: seq<Record>, i: nat)
    requires i < |records|
    ensures Drain(env, t, records[..i + 1]) ==
              var d := Drain(env, t, records[..i]); if d.stopped then d else DrainOne(env, d, records[i])
  {
    assert records[..i + 1][..i] == records[..i];
  }

  lemma {:induction false} DrainStopped(env: Env, t: Trace, records: seq<Record>, i: nat)
    requires i <= |records| && Drain(env, t, records[..i]).stopped
    ensures Drain(env, t, records) == Drain(env, t, records[..i])
    decreases |records|
  {
    if i < |records| {
      assert records[..|records| - 1][..i] == records[..i];
      DrainStopped(env, t, records[..|records| - 1], i);
    } else {
      assert records[..i] == records;
    }
  }

  /** Every well-formed record reaches Process exactly once, in order, and every record is counted once. */
  lemma {:induction false} DrainCountsAll(env: Env, t: Trace, records: seq<Record>)
    requires !Drain(env, t, records).stopped
    ensures var d := Drain(env, t, records);
            && d.trace.visited == t.visited + Ids(records)
            && d.results.processed + d.results.skipped + d.results.failed == |records|
            && d.results.failed == |records| - |Ids(records)|
  {
    if records != [] {
      DrainCountsAll(env, t, records[..|records| - 1]);
    }
  }

  /** A stopped invocation got exactly as far as the record whose send came out unknown. */
  lemma {:induction false} DrainStopsAt(env: Env, t: Trace, records: seq<Record>) returns (i: nat)
    requires Drain(env, t, records).stopped
    ensures i < |records| && records[i].Message? && !Drain(env, t, records[..i]).stopped
    ensures var d := Drain(env, t, records);
            && d == Drain(env, t, records[..i + 1])
            && d.trace.visited == t.visited + Ids(records[..i + 1])
            && IsPending(Drain(env, t, records[..i]).trace.packs, records[i].id)
            && records[i].id in d.trace.packs && d.trace.packs[records[i].id].status == Unknown
  {
    var n := |records| - 1;
    if Drain(env, t, records[..n]).stopped {
      i := DrainStopsAt(env, t, records[..n]);
      assert records[..n][..i] == records[..i] && records[..n][..i + 1] == records[..i + 1];
    } else {
      i := n;
      DrainCountsAll(env, t, records[..n]);
      assert records[..i + 1] == records;
    }
  }

  predicate Unsure(reply: CM.Reply) { reply in {CM.Error5xx, CM.NetworkError} }

  /** Rows of the packs posted since t0 read as their posts were answered. */
  predicate ReadAsAnswered(env: Env, t0: Trace, t: Trace) {
    && t0.posts <= t.posts
    && forall i :: |t0.posts| <= i < |t.posts| ==> t.posts[i] in t.packs && CM.Means(t.packs[t.posts[i]].status, env.answer(i).reply)
  }

  ghost predicate SomeUnsure(env: Env, t0: Trace, t: Trace) { exists i :: |t0.posts| <= i < |t.posts| && Unsure(env.answer(i).reply) }

  lemma ProcessBooks(env: Env, t0: Trace, t: Trace, id: PackId)
    requires ReadAsAnswered(env, t0, t) && !SomeUnsure(env, t0, t)
    ensures var (t', o) := ProcessOne(env, t, id);
      ReadAsAnswered(env, t0, t') && (SomeUnsure(env, t0, t') <==> o == Stopped)
  {
    ProcessExactly(env, t, id);
    var (t', o) := ProcessOne(env, t, id);
    forall i | |t0.posts| <= i < |t'.posts| ensures t'.posts[i] in t'.packs && CM.Means(t'.packs[t'.posts[i]].status, env.answer(i).reply) {
      if i < |t.posts| { assert t'.posts[i] == t.posts[i]; }
    }
    if o == Stopped { assert Unsure(env.answer(|t.posts|).reply); }
  }

  /**
   After a delivery every pack it posted reads sent, failed or unknown exactly as its post was answered, and the
   delivery stopped exactly if some post came back with a 5xx or not at all.
   */
  lemma {:induction false} DrainBooks(env: Env, t: Trace, records: seq<Record>)
    ensures ReadAsAnswered(env, t, Drain(env, t, records).trace)
    ensures Drain(env, t, records).stopped <==> SomeUnsure(env, t, Drain(env, t, records).trace)
  {
    if records != [] {
      var n := |records| - 1;
      DrainBooks(env, t, records[..n]);
      var d := Drain(env, t, records[..n]);
      if !d.stopped && records[n].Message? { ProcessBooks(env, t, d.trace, records[n].id); }
    }
  }

  /** The packs that were pending in t and are no more. */
  function TakenOut(t: Trace, t': Trace): set<PackId> { set id | id in t.packs && IsPending(t.packs, id) && !IsPending(t'.packs, id) }

  /** Nothing turns pending. */
  predicate OnlyTaken(t: Trace, t': Trace) { forall id <- t'.packs :: IsPending(t'.packs, id) ==> IsPending(t.packs, id) }

  lemma ProcessTakes(env: Env, t0: Trace, t: Trace, id: PackId)
    requires OnlyTaken(t0, t) && t.packs.Keys == t0.packs.Keys
    ensures var (t', o) := ProcessOne(env, t, id);
      && OnlyTaken(t0, t') && t'.packs.Keys == t0.packs.Keys
      && |TakenOut(t0, t')| == |TakenOut(t0, t)| + if o == Skipped then 0 else 1
  {
    ProcessExactly(env, t, id);
    var (t', o) := ProcessOne(env, t, id);
    if IsPending(t.packs, id) {
      assert id !in TakenOut(t0, t) && TakenOut(t0, t') == TakenOut(t0, t) + {id};
    } else {
      assert TakenOut(t0, t') == TakenOut(t0, t);
    }
  }

  /** A delivery counts as processed exactly the packs it took out of pending, the one it stopped at aside. */
  lemma {:induction false} DrainCountsTaken(env: Env, t: Trace, records: seq<Record>)
    ensures var d := Drain(env, t, records);
      && OnlyTaken(t, d.trace) && d.trace.packs.Keys == t.packs.Keys
      && d.results.processed + (if d.stopped then 1 else 0) == |TakenOut(t, d.trace)|
  {
    if records == [] {
      assert TakenOut(t, t) == {};
    } else {
      var n := |records| - 1;
      DrainCountsTaken(env, t, records[..n]);
      var d := Drain(env, t, records[..n]);
      if !d.stopped && records[n].Message? { ProcessTakes(env, t, d.trace, records[n].id); }
    }
  }

  lemma {:induction false} IdsAre(records: seq<Record>)
    ensures forall id :: id in Ids(records) <==> Message(id) in records
  {
    if records != [] {
      IdsAre(records[..|records| - 1]);
      assert records == records[..|records| - 1] + [records[|records| - 1]];
    }
  }

  /** Packs not visited keep their rows; a visited pack is left not pending; rows never vanish. */
  predicate RowsVisited(t: Trace, t': Trace) {
    && t.visited <= t'.visited
    && t'.packs.Keys == t.packs.Keys
    && (forall id <- t.packs :: t'.packs[id] == t.packs[id] || (id in t'.visited[|t.visited|..] && IsPending(t.packs, id)))
    && (forall id <- t'.visited[|t.visited|..] :: !IsPending(t'.packs, id))
  }

  /** New posts are of visited packs that were pending and are no more, each once. */
  predicate PostsVisited(t: Trace, t': Trace) {
    && t.posts <= t'.posts && t.visited <= t'.visited
    && (forall id <- t'.posts[|t.posts|..] ::
          id in t'.visited[|t.visited|..] && IsPending(t.packs, id) && !IsPending(t'.packs, id))
    && CM.Distinct(t'.posts[|t.posts|..])
  }

  predicate OnlyVisited(t: Trace, t': Trace) { RowsVisited(t, t') && PostsVisited(t, t') }

  lemma OneVisit(env: Env, t: Trace, id: PackId)
    ensures OnlyVisited(t, ProcessOne(env, t, id).0)
  {
    OneVisitRows(env, t, id);
    OneVisitPosts(env, t, id);
  }

  lemma OneVisitPosts(env: Env, t: Trace, id: PackId)
    ensures PostsVisited(t, ProcessOne(env, t, id).0)
  {
    var t' := ProcessOne(env, t, id).0;
    assert t'.visited[|t.visited|..] == [id];
    assert t'.posts[|t.posts|..] == [] || t'.posts[|t.posts|..] == [id];
  }

  lemma OneVisitRows(env: Env, t: Trace, id: PackId)
    ensures RowsVisited(t, ProcessOne(env, t, id).0)
  {
    assert ProcessOne(env, t, id).0.visited[|t.visited|..] == [id];
  }

  lemma TailJoin<T>(a: seq<T>, b: seq<T>, c: seq<T>)
    requires a <= b <= c
    ensures c[|a|..] == b[|a|..] + c[|b|..]
  {
  }

  lemma RowsCompose(t: Trace, t1: Trace, t2: Trace)
    requires RowsVisited(t, t1) && RowsVisited(t1, t2)
    ensures RowsVisited(t, t2)
  {
    TailJoin(t.visited, t1.visited, t2.visited);
    forall id | id in t2.visited[|t.visited|..] ensures !IsPending(t2.packs, id) {
      assert id in t1.visited[|t.visited|..] ==> !IsPending(t1.packs, id);
    }
  }

  lemma DistinctJoin<T>(a: seq<T>, b: seq<T>)
    requires CM.Distinct(a) && CM.Distinct(b) && forall x <- a :: x !in b
    ensures CM.Distinct(a + b)
  {
    forall i, j | 0 <= i < j < |a + b| ensures (a + b)[i] != (a + b)[j] {
      if i < |a| <= j { assert a[i] in a && b[j - |a|] in b; }
    }
  }

  lemma VisitsCompose(t: Trace, t1: Trace, t2: Trace)
    requires OnlyVisited(t, t1) && OnlyVisited(t1, t2)
    ensures OnlyVisited(t, t2)
  {
    RowsCompose(t, t1, t2);
    TailJoin(t.visited, t1.visited, t2.visited);
    TailJoin(t.posts, t1.posts, t2.posts);
    var a, b := t1.posts[|t.posts|..], t2.posts[|t1.posts|..];
    DistinctJoin(a, b);
    forall id | id in a + b
      ensures id in t2.visited[|t.visited|..] && IsPending(t.packs, id) && !IsPending(t2.packs, id)
    {
      assert id in a ==> !IsPending(t1.packs, id);
    }
  }

  lemma {:induction false} DrainVisits(env: Env, t: Trace, records: seq<Record>)
    ensures OnlyVisited(t, Drain(env, t, records).trace)
  {
    if records != [] {
      var n := |records| - 1;
      DrainVisits(env, t, records[..n]);
      var d := Drain(env, t, records[..n]);
      if !d.stopped && records[n].Message? {
        OneVisit(env, d.trace, records[n].id);
        VisitsCompose(t, d.trace, ProcessOne(env, d.trace, records[n].id).0);
      }
    }
  }

  /** After an unknown send the records behind it are untouched, unless an earlier record named the same pack. */
  lemma RestUntouched(env: Env, t: Trace, records: seq<Record>, i: nat, id: PackId)
    requires i < |records| && Drain(env, t, records[..i + 1]).stopped
    requires id in t.packs && Message(id) !in records[..i + 1]
    ensures var t' := Drain(env, t, records).trace;
            && id in t'.packs && t'.packs[id] == t.packs[id]
            && t.posts <= t'.posts && id !in t'.posts[|t.posts|..]
  {
    DrainStopped(env, t, records, i + 1);
    var part := records[..i + 1];
    DrainVisits(env, t, part);
    var k := DrainStopsAt(env, t, part);
    assert part[..k + 1] <= part;
    IdsAre(part[..k + 1]);
    var d := Drain(env, t, part);
    assert d.trace.visited[|t.visited|..] == Ids(part[..k + 1]);
    assert id !in Ids(part[..k + 1]);
  }

  /** Any number of deliveries, whole or repeated, post no pack twice. */
  function Deliver(envs: seq<Env>, t: Trace, batches: seq<seq<Record>>): Trace
    requires |envs| == |batches|
  {
    if batches == [] then t
    else
      var n := |batches| - 1;
      Drain(envs[n], Deliver(envs[..n], t, batches[..n]), batches[n]).trace
  }

  lemma {:induction false} DeliveriesPostOnce(envs: seq<Env>, t: Trace, batches: seq<seq<Record>>)
    requires |envs| == |batches|
    requires CM.Distinct(t.posts) && forall id <- t.posts :: !IsPending(t.packs, id)
    ensures var t' := Deliver(envs, t, batches);
            && OnlyVisited(t, t') && CM.Distinct(t'.posts) && forall id <- t'.posts :: !IsPending(t'.packs, id)
  {
    if batches != [] {
      var n := |batches| - 1;
      var t1 := Deliver(envs[..n], t, batches[..n]);
      DeliveriesPostOnce(envs[..n], t, batches[..n]);
      DrainVisits(envs[n], t1, batches[n]);
      var t2 := Drain(envs[n], t1, batches[n]).trace;
      VisitsCompose(t, t1, t2);
      var added := t2.posts[|t1.posts|..];
      assert t2.posts == t1.posts + added;
      forall id | id in t1.posts ensures id !in added && !IsPending(t2.packs, id) {
      }
      DistinctJoin(t1.posts, added);
    }
  }

  function PendingOf(t: Trace, records: seq<Record>): set<PackId> {
    set id | id in Ids(records) && IsPending(t.packs, id)
  }

  /** Each stop costs a pending pack, so redelivering the same batch gets through after at most as many stops. */
  lemma StopsMakeProgress(env: Env, t: Trace, records: seq<Record>)
    requires Drain(env, t, records).stopped
    ensures PendingOf(Drain(env, t, records).trace, records) < PendingOf(t, records)
  {
    var t' := Drain(env, t, records).trace;
    DrainVisits(env, t, records);
    var i := DrainStopsAt(env, t, records);
    DrainVisits(env, t, records[..i]);
    IdsAre(records);
    var id := records[i].id;
    var mid := Drain(env, t, records[..i]).trace;
    assert OnlyVisited(t, mid);
    assert id in PendingOf(t, records) && id !in PendingOf(t', records);
    forall x | x in PendingOf(t', records) ensures x in PendingOf(t, records) {
      assert x in t.packs;
    }
  }

  /** The same batch delivered again and again. */
  function Redeliver(envs: seq<Env>, t: Trace, records: seq<Record>): Trace {
    if envs == [] then t else Drain(envs[|envs| - 1], Redeliver(envs[..|envs| - 1], t, records), records).trace
  }

  /** How many of the deliveries stopped at an unknown send. */
  function Stops(envs: seq<Env>, t: Trace, records: seq<Record>): nat {
    if envs == [] then 0
    else
      var before := Redeliver(envs[..|envs| - 1], t, records);
      Stops(envs[..|envs| - 1], t, records) + if Drain(envs[|envs| - 1], before, records).stopped then 1 else 0
  }

  lemma PendingShrinks(env: Env, t: Trace, records: seq<Record>)
    ensures PendingOf(Drain(env, t, records).trace, records) <= PendingOf(t, records)
  {
    DrainVisits(env, t, records);
    forall x | x in PendingOf(Drain(env, t, records).trace, records) ensures x in PendingOf(t, records) { assert x in t.packs; }
  }

  /** Of all deliveries of one batch at most as many stop as it had pending packs, so any more deliveries than that include one that gets through. */
  lemma {:induction false} StopsAreBounded(envs: seq<Env>, t: Trace, records: seq<Record>)
    ensures Stops(envs, t, records) + |PendingOf(Redeliver(envs, t, records), records)| <= |PendingOf(t, records)|
  {
    if envs != [] {
      var n := |envs| - 1;
      var before := Redeliver(envs[..n], t, records);
      StopsAreBounded(envs[..n], t, records);
      PendingShrinks(envs[n], before, records);
      var after := Drain(envs[n], before, records).trace;
      Desk.SubsetSize(PendingOf(after, records), PendingOf(before, records));
      if Drain(envs[n], before, records).stopped {
        StopsMakeProgress(envs[n], before, records);
        var x :| x in PendingOf(before, records) && x !in PendingOf(after, records);
        Desk.SubsetSize(PendingOf(after, records), PendingOf(before, records) - {x});
      }
    }
  }

  /** Processing one pack is a run of the cloud machine by one idle worker: nothing, or claim, then give up or post and finalise. */
  lemma ProcessRefinesMachine(env: Env, c: CM.Cloud, visited: seq<PackId>, w: nat, id: PackId)
    requires CM.WorkerAt(c, w).Idle? && w in c.workers && env.answer(|c.posts|).Honest()
    ensures var t' := ProcessOne(env, Trace(c.packs, visited, c.posts, c.replies, c.accepted), id).0;
            var claim := CM.ClaimStep(w, id, env.now);
            var c1 := CM.Apply(c, claim);
            var c' := CM.Cloud(t'.packs, c.workers, t'.posts, t'.replies, t'.accepted);
            || c' == c1
            || (exists status, keep :: CM.Enabled(c1, CM.GiveUpStep(w, status, keep, env.now))
                  && c' == CM.Apply(c1, CM.GiveUpStep(w, status, keep, env.now)))
            || (CM.Enabled(c1, CM.PostStep(w, env.answer(|c.posts|)))
                  && var c2 := CM.Apply(c1, CM.PostStep(w, env.answer(|c.posts|)));
                     CM.Enabled(c2, CM.FinaliseStep(w, env.now)) && c' == CM.Apply(c2, CM.FinaliseStep(w, env.now)))
  {
    if IsPending(c.packs, id) {
      var c1 := CM.Apply(c, CM.ClaimStep(w, id, env.now));
      assert c1.workers[w := CM.Idle] == c.workers;
      if !env.keyPresent(|visited|) {
        assert CM.Enabled(c1, CM.GiveUpStep(w, StuckNoKey, true, env.now));
      } else if env.body(id).Garbled? || !env.body(id).hasApiKey {
        assert CM.Enabled(c1, CM.GiveUpStep(w, Failed, false, env.now));
      } else {
        var c2 := CM.Apply(c1, CM.PostStep(w, env.answer(|c.posts|)));
        assert c2.workers[w := CM.Idle] == c.workers;
      }
    }
  }

  // A whole delivery as a run of the machine

  ghost predicate Path(tr: seq<CM.Cloud>, c: CM.Cloud, c': CM.Cloud) {
    && |tr| > 0 && tr[0] == c && tr[|tr| - 1] == c'
    && forall i :: 0 <= i < |tr| - 1 ==> CM.Next(tr[i], tr[i + 1])
  }

  ghost predicate Reaches(c: CM.Cloud, c': CM.Cloud) { exists tr :: Path(tr, c, c') }

  lemma ReachesStep(c: CM.Cloud, s: CM.Step, c': CM.Cloud)
    requires CM.Enabled(c, s) && c' == CM.Apply(c, s)
    ensures Reaches(c, c')
  {
    assert CM.Next(c, c');
    assert Path([c, c'], c, c');
  }

  lemma ReachesOn(c: CM.Cloud, d: CM.Cloud, e: CM.Cloud)
    requires Reaches(c, d) && Reaches(d, e)
    ensures Reaches(c, e)
  {
    var a :| Path(a, c, d);
    var b :| Path(b, d, e);
    var tr := a + b[1..];
    forall i | 0 <= i < |tr| - 1 ensures CM.Next(tr[i], tr[i + 1]) {
      if i >= |a| - 1 {
        var k := i - (|a| - 1);
        assert tr[i] == b[k] && tr[i + 1] == b[k + 1];
        assert CM.Next(b[k], b[k + 1]);
      }
    }
    assert Path(tr, c, e);
  }

  function CloudOf(t: Trace, workers: map<nat, CM.Worker>): CM.Cloud { CM.Cloud(t.packs, workers, t.posts, t.replies, t.accepted) }

  lemma ProcessIsARun(env: Env, t: Trace, workers: map<nat, CM.Worker>, w: nat, id: PackId)
    requires w in workers && workers[w].Idle? && env.answer(|t.posts|).Honest()
    ensures Reaches(CloudOf(t, workers), CloudOf(ProcessOne(env, t, id).0, workers))
  {
    var c := CloudOf(t, workers);
    var c' := CloudOf(ProcessOne(env, t, id).0, workers);
    var claim := CM.ClaimStep(w, id, env.now);
    var c1 := CM.Apply(c, claim);
    ProcessRefinesMachine(env, c, t.visited, w, id);
    ReachesStep(c, claim, c1);
    if c' != c1 {
      if status, keep :| CM.Enabled(c1, CM.GiveUpStep(w, status, keep, env.now)) && c' == CM.Apply(c1, CM.GiveUpStep(w, status, keep, env.now)) {
        ReachesStep(c1, CM.GiveUpStep(w, status, keep, env.now), c');
      } else {
        var post := CM.PostStep(w, env.answer(|c.posts|));
        var c2 := CM.Apply(c1, post);
        ReachesStep(c1, post, c2);
        ReachesStep(c2, CM.FinaliseStep(w, env.now), c');
        ReachesOn(c1, c2, c');
      }
      ReachesOn(c, c1, c');
    }
  }

  /** A delivery of any batch by one worker is a run of the cloud machine, so all that holds over its runs holds after it. */
  lemma {:induction false} DrainIsARun(env: Env, t: Trace, workers: map<nat, CM.Worker>, w: nat, records: seq<Record>)
    requires w in workers && workers[w].Idle? && forall k :: env.answer(k).Honest()
    ensures Reaches(CloudOf(t, workers), CloudOf(Drain(env, t, records).trace, workers))
  {
    if records == [] {
      assert Path([CloudOf(t, workers)], CloudOf(t, workers), CloudOf(t, workers));
    } else {
      var n := |records| - 1;
      var d := Drain(env, t, records[..n]);
      DrainIsARun(env, t, workers, w, records[..n]);
      if !d.stopped && records[n].Message? {
        ProcessIsARun(env, d.trace, workers, w, records[n].id);
        ReachesOn(CloudOf(t, workers), CloudOf(d.trace, workers), CloudOf(Drain(env, t, records).trace, workers));
      }
    }
  }

  // One pack while others act

  /** Not a step of worker w. */
  predicate ByOther(s: CM.Step, w: nat) {
    match s
    case ClaimStep(v, _, _) => v != w
    case GiveUpStep(v, _, _, _) => v != w
    case PostStep(v, _) => v != w
    case FinaliseStep(v, _) => v != w
    case CrashStep(v) => v != w
    case _ => true
  }

  ghost predicate OthersPath(tr: seq<CM.Cloud>, c: CM.Cloud, c': CM.Cloud, w: nat) {
    && |tr| > 0 && tr[0] == c && tr[|tr| - 1] == c'
    && forall i :: 0 <= i < |tr| - 1 ==> OthersNext(tr[i], tr[i + 1], w)
  }

  ghost predicate OthersNext(c: CM.Cloud, c': CM.Cloud, w: nat) { exists s :: CM.Enabled(c, s) && c' == CM.Apply(c, s) && ByOther(s, w) }

  lemma OthersStep(c: CM.Cloud, c': CM.Cloud, w: nat)
    requires OthersNext(c, c', w)
    ensures CM.Next(c, c') && CM.WorkerAt(c', w) == CM.WorkerAt(c, w) && c.packs.Keys <= c'.packs.Keys
  {
    var s :| CM.Enabled(c, s) && c' == CM.Apply(c, s) && ByOther(s, w);
  }

  lemma {:induction false} OthersKeep(tr: seq<CM.Cloud>, c: CM.Cloud, c': CM.Cloud, w: nat)
    requires OthersPath(tr, c, c', w)
    ensures Reaches(c, c') && CM.WorkerAt(c', w) == CM.WorkerAt(c, w) && c.packs.Keys <= c'.packs.Keys
    decreases |tr|
  {
    if |tr| == 1 {
      assert Path([c], c, c');
    } else {
      var k := |tr| - 2;
      assert tr[..k + 1][k] == tr[k];
      OthersKeep(tr[..k + 1], c, tr[k], w);
      assert OthersNext(tr[k], tr[k + 1], w);
      OthersStep(tr[k], c', w);
      assert Path([tr[k], c'], tr[k], c');
      ReachesOn(c, tr[k], c');
    }
  }

  /**
   However other workers, sweeps, cancels and deliveries act between a worker's claim, its post and its finalising, the
   worker can go through with all three; the whole is a run of the machine, and its own outcome ends in the row.
   */
  lemma ProcessAmongOthers(c: CM.Cloud, w: nat, id: PackId, answer: CM.Answer, now: int, later: int,
                           tr1: seq<CM.Cloud>, c1': CM.Cloud, tr2: seq<CM.Cloud>, c2': CM.Cloud)
    requires CM.WorkerAt(c, w).Idle? && IsPending(c.packs, id) && answer.Honest()
    requires OthersPath(tr1, CM.Apply(c, CM.ClaimStep(w, id, now)), c1', w)
    requires CM.Enabled(c1', CM.PostStep(w, answer)) ==> OthersPath(tr2, CM.Apply(c1', CM.PostStep(w, answer)), c2', w)
    ensures CM.Enabled(c1', CM.GiveUpStep(w, StuckNoKey, true, later)) && CM.Enabled(c1', CM.GiveUpStep(w, Failed, false, later))
    ensures CM.Enabled(c1', CM.PostStep(w, answer)) && CM.Enabled(c2', CM.FinaliseStep(w, later))
    ensures var c' := CM.Apply(c2', CM.FinaliseStep(w, later));
      Reaches(c, c') && id in c'.packs && c'.packs[id].status == CM.SendStatus(answer.reply) && CM.WorkerAt(c', w).Idle?
  {
    var c1 := CM.Apply(c, CM.ClaimStep(w, id, now));
    ReachesStep(c, CM.ClaimStep(w, id, now), c1);
    OthersKeep(tr1, c1, c1', w);
    var c2 := CM.Apply(c1', CM.PostStep(w, answer));
    ReachesStep(c1', CM.PostStep(w, answer), c2);
    OthersKeep(tr2, c2, c2', w);
    var c' := CM.Apply(c2', CM.FinaliseStep(w, later));
    ReachesStep(c2', CM.FinaliseStep(w, later), c');
    ReachesOn(c, c1, c1');
    ReachesOn(c, c1', c2);
    ReachesOn(c, c2, c2');
    ReachesOn(c, c2', c');
  }
}
