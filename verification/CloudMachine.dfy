/**
 The cloud as a transition system: any number of dispatcher workers, duplicate queue messages,
 late finalisers, sweeps and cancels, all interleaved freely, against a provider that is only
 trusted to mean "not accepted" by a 4xx answer.
 */
module CloudMachine {
  import opened PackIds
  import opened PackStore

  datatype Reply = Accepted2xx | Rejected4xx | Error5xx | NetworkError

  /** What the provider did, and what the worker saw of it. */
  datatype Answer = Answer(accepted: bool, reply: Reply) {
    predicate Honest() { reply == Rejected4xx ==> !accepted }
  }

  /** The outcome class a worker records for a reply. */
  function SendStatus(reply: Reply): PackStatus {
    match reply
    case Accepted2xx => Sent
    case Rejected4xx => Failed
    case Error5xx => Unknown
    case NetworkError => Unknown
  }

  datatype Worker = Idle | Holding(id: PackId) | Answered(id: PackId, status: PackStatus)

  datatype Cloud = Cloud(packs: Packs, workers: map<nat, Worker>,
                         posts: seq<PackId>,      // every request handed to the provider, in order
                         replies: seq<Reply>,     // what the worker saw come back for each of them
                         accepted: seq<PackId>)   // every mail the provider accepted, in order

  datatype Step =
    | PutStep(id: PackId, campaign: nat, sendAt: int, now: int)
    | ClaimStep(w: nat, id: PackId, now: int)
    | GiveUpStep(w: nat, status: PackStatus, keepPayload: bool, now: int)   // no key, undecryptable, no API key
    | PostStep(w: nat, answer: Answer)
    | FinaliseStep(w: nat, now: int)
    | CrashStep(w: nat)
    | ExpireStep(id: PackId, claimedAt: int, now: int)
    | CancelStep(id: PackId, now: int)

  function WorkerAt(c: Cloud, w: nat): Worker { if w in c.workers then c.workers[w] else Idle }

  predicate Enabled(c: Cloud, s: Step) {
    match s
    case ClaimStep(w, _, _) => WorkerAt(c, w).Idle?
    case GiveUpStep(w, status, _, _) =>
      WorkerAt(c, w).Holding? && status in {StuckNoKey, Failed} && WorkerAt(c, w).id in c.packs
    case PostStep(w, answer) => WorkerAt(c, w).Holding? && answer.Honest()
    case FinaliseStep(w, _) =>
      WorkerAt(c, w).Answered? && Resolved(WorkerAt(c, w).status) && WorkerAt(c, w).id in c.packs
    case _ => true
  }

  function Apply(c: Cloud, s: Step): Cloud
    requires Enabled(c, s)
  {
    match s
    case PutStep(id, campaign, sendAt, now) => c.(packs := Put(c.packs, id, campaign, sendAt, now))
    case ClaimStep(w, id, now) =>
      if IsPending(c.packs, id)
      then c.(packs := Claim(c.packs, id, now), workers := c.workers[w := Holding(id)])
      else c
    case GiveUpStep(w, status, keepPayload, now) =>
      c.(packs := Resolve(c.packs, c.workers[w].id, status, keepPayload, now), workers := c.workers[w := Idle])
    case PostStep(w, answer) =>
      var id := c.workers[w].id;
      c.(workers := c.workers[w := Answered(id, SendStatus(answer.reply))],
         posts := c.posts + [id],
         replies := c.replies + [answer.reply],
         accepted := if answer.accepted then c.accepted + [id] else c.accepted)
    case FinaliseStep(w, now) =>
      c.(packs := Resolve(c.packs, c.workers[w].id, c.workers[w].status, false, now), workers := c.workers[w := Idle])
    case CrashStep(w) => c.(workers := c.workers[w := Idle])
    case ExpireStep(id, claimedAt, now) => c.(packs := Expire(c.packs, id, claimedAt, now))
    case CancelStep(id, now) => c.(packs := Cancel(c.packs, id, now))
  }

  predicate Init(c: Cloud) { c == Cloud(map[], map[], [], [], []) }

  ghost predicate Next(c: Cloud, c': Cloud) { exists s :: Enabled(c, s) && c' == Apply(c, s) }

  predicate Distinct<T(==)>(s: seq<T>) { forall i, j :: 0 <= i < j < |s| ==> s[i] != s[j] }

  /** The row will never be posted again, and no mail of it was accepted. */
  predicate Dead(c: Cloud, id: PackId) { id in c.packs && DeadStatus(c.packs[id].status) }

  // The invariant, clause by clause.

  predicate WorkersHoldClaims(c: Cloud) {
    && (forall w <- c.workers :: c.workers[w] != Idle ==>
          c.workers[w].id in c.packs && c.packs[c.workers[w].id].status in {Claimed, Unknown})
    && (forall v <- c.workers, w <- c.workers :: v != w && c.workers[v] != Idle && c.workers[w] != Idle ==>
          c.workers[v].id != c.workers[w].id)
  }

  predicate PostsAreClaimedOnce(c: Cloud) {
    && Distinct(c.posts)
    && (forall id <- c.posts :: id in c.packs && c.packs[id].status in {Claimed, Sent, Failed, Unknown})
    && (forall w <- c.workers :: c.workers[w].Holding? ==> c.workers[w].id !in c.posts)
    && (forall w <- c.workers :: c.workers[w].Answered? ==>
          c.workers[w].id in c.posts && c.workers[w].status in {Sent, Failed, Unknown})
  }

  predicate AcceptedWasPosted(c: Cloud) {
    && Distinct(c.accepted)
    && (forall id <- c.accepted :: id in c.posts)
    && (forall id <- c.accepted :: id in c.packs && c.packs[id].status in {Claimed, Sent, Unknown})
    && (forall w <- c.workers :: c.workers[w].Answered? && c.workers[w].status == Failed ==>
          c.workers[w].id !in c.accepted)
  }

  /** A row says sent or failed of a posted pack only if that is how the post was answered. */
  predicate BooksReply(status: PackStatus, reply: Reply) {
    (status == Sent ==> reply == Accepted2xx) && (status == Failed ==> reply == Rejected4xx) && status != StuckNoKey
  }

  predicate RepliesBooked(c: Cloud) {
    && |c.replies| == |c.posts|
    && (forall i :: 0 <= i < |c.posts| ==> c.posts[i] in c.packs && BooksReply(c.packs[c.posts[i]].status, c.replies[i]))
    && (forall id <- c.packs :: c.packs[id].status == Sent ==> id in c.posts)
  }

  /** A worker holding an answer will write what the answer means: unknown exactly for a 5xx or no answer at all. */
  predicate AnswersKept(c: Cloud)
    requires |c.replies| == |c.posts|
  {
    forall w <- c.workers, i: nat :: c.workers[w].Answered? && i < |c.posts| && c.posts[i] == c.workers[w].id ==>
      Means(c.workers[w].status, c.replies[i])
  }

  predicate Means(status: PackStatus, reply: Reply) {
    && (status == Sent <==> reply == Accepted2xx) && (status == Failed <==> reply == Rejected4xx)
    && (status == Unknown <==> reply in {Error5xx, NetworkError})
  }

  predicate Inv(c: Cloud) {
    WorkersHoldClaims(c) && PostsAreClaimedOnce(c) && AcceptedWasPosted(c) && RepliesBooked(c) && AnswersKept(c)
  }

  lemma PostKeepsInv(c: Cloud, w: nat, answer: Answer)
    requires Inv(c) && Enabled(c, PostStep(w, answer))
    ensures Inv(Apply(c, PostStep(w, answer)))
  {
    PostKeepsPosts(c, w, answer);
    PostKeepsReplies(c, w, answer, Apply(c, PostStep(w, answer)));
  }

  lemma PostKeepsPosts(c: Cloud, w: nat, answer: Answer)
    requires Inv(c) && Enabled(c, PostStep(w, answer))
    ensures var c' := Apply(c, PostStep(w, answer)); WorkersHoldClaims(c') && PostsAreClaimedOnce(c') && AcceptedWasPosted(c')
  {
  }

  lemma PostKeepsReplies(c: Cloud, w: nat, answer: Answer, c': Cloud)
    requires Inv(c) && Enabled(c, PostStep(w, answer)) && c' == Apply(c, PostStep(w, answer))
    ensures RepliesBooked(c') && AnswersKept(c')
  {
    var id, n := c.workers[w].id, |c.posts|;
    assert c.workers[w] != Idle && forall j :: 0 <= j < n ==> c.posts[j] != id;
    forall i | 0 <= i < |c'.posts| ensures c'.posts[i] in c'.packs && BooksReply(c'.packs[c'.posts[i]].status, c'.replies[i]) {
      if i < n { assert c'.posts[i] == c.posts[i] && c'.replies[i] == c.replies[i]; }
    }
    forall v, i: nat | v in c'.workers && c'.workers[v].Answered? && i < |c'.posts| && c'.posts[i] == c'.workers[v].id
      ensures Means(c'.workers[v].status, c'.replies[i])
    {
      if v != w { assert c.workers[v] == c'.workers[v]; }
    }
  }

  lemma FinaliseKeepsInv(c: Cloud, w: nat, now: int)
    requires Inv(c) && Enabled(c, FinaliseStep(w, now))
    ensures Inv(Apply(c, FinaliseStep(w, now)))
  {
  }

  lemma ClaimKeepsInv(c: Cloud, w: nat, id: PackId, now: int)
    requires Inv(c) && Enabled(c, ClaimStep(w, id, now))
    ensures Inv(Apply(c, ClaimStep(w, id, now)))
  {
    ClaimKeepsReplies(c, w, id, now);
  }

  lemma GiveUpKeepsInv(c: Cloud, s: Step)
    requires Inv(c) && Enabled(c, s) && s.GiveUpStep?
    ensures Inv(Apply(c, s))
  {
  }

  lemma RowStepKeepsInv(c: Cloud, s: Step)
    requires Inv(c) && Enabled(c, s) && (s.PutStep? || s.CrashStep? || s.ExpireStep? || s.CancelStep?)
    ensures Inv(Apply(c, s))
  {
    RowStepKeepsPosts(c, s);
    RowStepKeepsReplies(c, s);
  }

  lemma RowStepKeepsPosts(c: Cloud, s: Step)
    requires Inv(c) && Enabled(c, s) && (s.PutStep? || s.CrashStep? || s.ExpireStep? || s.CancelStep?)
    ensures var c' := Apply(c, s); WorkersHoldClaims(c') && PostsAreClaimedOnce(c') && AcceptedWasPosted(c')
  {
  }

  lemma RowStepKeepsReplies(c: Cloud, s: Step)
    requires Inv(c) && Enabled(c, s) && (s.PutStep? || s.CrashStep? || s.ExpireStep? || s.CancelStep?)
    ensures RepliesBooked(Apply(c, s)) && AnswersKept(Apply(c, s))
  {
  }

  lemma ClaimKeepsReplies(c: Cloud, w: nat, id: PackId, now: int)
    requires Inv(c) && Enabled(c, ClaimStep(w, id, now))
    ensures RepliesBooked(Apply(c, ClaimStep(w, id, now))) && AnswersKept(Apply(c, ClaimStep(w, id, now)))
  {
  }

  /** Every step of every interleaving keeps the invariant. */
  lemma NextKeepsInv(c: Cloud, s: Step)
    requires Inv(c) && Enabled(c, s)
    ensures Inv(Apply(c, s))
  {
    match s
    case PostStep(w, answer) => PostKeepsInv(c, w, answer);
    case FinaliseStep(w, now) => FinaliseKeepsInv(c, w, now);
    case ClaimStep(w, id, now) => ClaimKeepsInv(c, w, id, now);
    case GiveUpStep(_, _, _, _) => GiveUpKeepsInv(c, s);
    case _ => RowStepKeepsInv(c, s);
  }

  /** The only status changes a step can make; a row is never removed. */
  predicate StatusEdge(s: PackStatus, t: PackStatus) {
    || s == t
    || (s == Pending && t in {Claimed, Cancelled})
    || (s in {Claimed, Unknown} && t in {Sent, Failed, StuckNoKey, Unknown})
  }

  lemma NextFollowsEdges(c: Cloud, s: Step)
    requires Inv(c) && Enabled(c, s)
    ensures c.packs.Keys <= Apply(c, s).packs.Keys
    ensures forall id <- c.packs :: StatusEdge(c.packs[id].status, Apply(c, s).packs[id].status)
    ensures c.posts <= Apply(c, s).posts && c.accepted <= Apply(c, s).accepted
  {
  }

  // Whole runs.

  ghost predicate Run(tr: seq<Cloud>) {
    && |tr| > 0 && Init(tr[0])
    && forall i :: 0 <= i < |tr| - 1 ==> StepAt(tr, i)
  }

  ghost predicate StepAt(tr: seq<Cloud>, i: nat)
    requires i + 1 < |tr|
  {
    Next(tr[i], tr[i + 1])
  }

  /** What the inductions over a run use of one step, seen from its two states. */
  lemma RunStep(tr: seq<Cloud>, i: nat, c: Cloud, c': Cloud)
    requires Run(tr) && i + 1 < |tr| && c == tr[i] && c' == tr[i + 1] && Inv(c)
    ensures Inv(c') && c.packs.Keys <= c'.packs.Keys
    ensures forall id <- c.packs :: StatusEdge(c.packs[id].status, c'.packs[id].status)
    ensures c.posts <= c'.posts && c.accepted <= c'.accepted
  {
    assert StepAt(tr, i);
    var s :| Enabled(c, s) && c' == Apply(c, s);
    NextKeepsInv(c, s);
    NextFollowsEdges(c, s);
  }

  lemma {:induction false} RunInv(tr: seq<Cloud>, i: nat)
    requires Run(tr) && i < |tr|
    ensures Inv(tr[i])
  {
    if i > 0 {
      RunInv(tr, i - 1);
      RunStep(tr, i - 1, tr[i - 1], tr[i]);
    }
  }

  lemma FinalStep(tr: seq<Cloud>, i: nat, c: Cloud, c': Cloud, id: PackId)
    requires Run(tr) && i + 1 < |tr| && c == tr[i] && c' == tr[i + 1]
    requires id in c.packs && c.packs[id].status in {Sent, Failed, StuckNoKey, Cancelled}
    ensures id in c'.packs && c'.packs[id].status == c.packs[id].status
  {
    RunInv(tr, i);
    RunStep(tr, i, c, c');
    assert StatusEdge(c.packs[id].status, c'.packs[id].status);
  }

  /** A final status is final: `sent` and the dead statuses survive every later step, late finalisers included. */
  lemma {:induction false} FinalStatusStays(tr: seq<Cloud>, i: nat, j: nat, id: PackId)
    requires Run(tr) && i <= j < |tr|
    requires id in tr[i].packs && tr[i].packs[id].status in {Sent, Failed, StuckNoKey, Cancelled}
    ensures id in tr[j].packs && tr[j].packs[id].status == tr[i].packs[id].status
    decreases j
  {
    if i < j {
      FinalStatusStays(tr, i, j - 1, id);
      FinalStep(tr, j - 1, tr[j - 1], tr[j], id);
    }
  }

  /** A pack is posted at most once in a whole run, whatever the queue repeats. */
  lemma PostedAtMostOnce(tr: seq<Cloud>, i: nat)
    requires Run(tr) && i < |tr|
    ensures Distinct(tr[i].posts) && Distinct(tr[i].accepted)
    ensures forall id <- tr[i].accepted :: id in tr[i].posts
  {
    RunInv(tr, i);
  }

  /** A cancel that succeeded at step i is never posted, before or after. */
  lemma CancelledIsNeverPosted(tr: seq<Cloud>, i: nat, j: nat, id: PackId, now: int)
    requires Run(tr) && i + 1 < |tr| && j < |tr|
    requires IsPending(tr[i].packs, id) && tr[i + 1] == Apply(tr[i], CancelStep(id, now))
    ensures id !in tr[j].posts
  {
    if j <= i {
      PostsGrow(tr, j, i);
      RunInv(tr, i);
    } else {
      FinalStatusStays(tr, i + 1, j, id);
      RunInv(tr, j);
    }
  }

  lemma {:induction false} PostsGrow(tr: seq<Cloud>, i: nat, j: nat)
    requires Run(tr) && i <= j < |tr|
    ensures tr[i].posts <= tr[j].posts && tr[i].accepted <= tr[j].accepted
    decreases j
  {
    if i < j {
      PostsGrow(tr, i, j - 1);
      RunInv(tr, j - 1);
      RunStep(tr, j - 1, tr[j - 1], tr[j]);
    }
  }

  /**
   A row says sent only if its post was answered with a 2xx; a post answered with a 4xx never reads sent, and one that
   came back with a 5xx or not at all reads neither sent nor failed, whoever finishes it and however late.
   */
  lemma BookedAsAnswered(tr: seq<Cloud>, i: nat, k: nat)
    requires Run(tr) && i < |tr| && k < |tr[i].posts|
    ensures k < |tr[i].replies| && tr[i].posts[k] in tr[i].packs
    ensures var status := tr[i].packs[tr[i].posts[k]].status;
      match tr[i].replies[k]
      case Accepted2xx => status in {Claimed, Sent, Unknown}
      case Rejected4xx => status in {Claimed, Failed, Unknown}
      case Error5xx => status in {Claimed, Unknown}
      case NetworkError => status in {Claimed, Unknown}
  {
    RunInv(tr, i);
  }

  lemma SentWasAnswered2xx(tr: seq<Cloud>, i: nat, id: PackId) returns (k: nat)
    requires Run(tr) && i < |tr| && id in tr[i].packs && tr[i].packs[id].status == Sent
    ensures k < |tr[i].posts| == |tr[i].replies| && tr[i].posts[k] == id && tr[i].replies[k] == Accepted2xx
  {
    RunInv(tr, i);
    k :| k < |tr[i].posts| && tr[i].posts[k] == id;
  }

  /** A pack once seen dead was not accepted and never will be, at any point of the run. */
  lemma DeadIsNeverAccepted(tr: seq<Cloud>, i: nat, j: nat, id: PackId)
    requires Run(tr) && i < |tr| && j < |tr|
    requires Dead(tr[i], id)
    ensures id !in tr[j].accepted
  {
    if j <= i {
      PostsGrow(tr, j, i);
      RunInv(tr, i);
    } else {
      FinalStatusStays(tr, i, j, id);
      RunInv(tr, j);
    }
  }

  /** `unknown` is not final: a slow worker may finish a pack the sweep has already expired. */
  lemma LateFinaliserOverwritesUnknown(c: Cloud, w: nat, id: PackId, claimedAt: int, now: int, answer: Answer)
    requires Inv(c) && WorkerAt(c, w) == Holding(id) && SameClaim(c.packs, id, claimedAt)
    requires answer.reply == Accepted2xx
    ensures var c1 := Apply(c, ExpireStep(id, claimedAt, now));
            var c2 := Apply(c1, PostStep(w, answer));
            && c1.packs[id].status == Unknown
            && Enabled(c2, FinaliseStep(w, now))
            && Apply(c2, FinaliseStep(w, now)).packs[id].status == Sent
  {
  }
}
