/** The identity of packs, shared by the terminal and the cloud. */
module PackIds {

  /** One send of a campaign: the first launch, a numbered Re-launch, or a stage. */
  datatype SendKey = Main | Relaunch(gen: nat) | Stage(stage: nat)

  /** What must receive at most one mail: one contact in one generation of one campaign. */
  datatype Slot = Slot(campaign: nat, key: SendKey, contact: nat)

  /** Contact packs have derived ids; seed packs draw a fresh one each time. */
  datatype PackId = ContactPack(slot: Slot, ordinal: nat) | SeedPack(serial: nat)

  datatype Option<+T> = None | Some(value: T)
}

/** The pack rows of the cloud table, and the conditional writes on them. */
module PackStore {
  import opened PackIds

  datatype PackStatus = Pending | Claimed | Sent | Failed | StuckNoKey | Cancelled | Unknown

  datatype Pack = Pack(campaign: nat, status: PackStatus, sendAt: int, enqueuedAt: int,
                       claimedAt: Option<int>, resolvedAt: Option<int>, payload: bool)

  type Packs = map<PackId, Pack>

  predicate Resolved(s: PackStatus) { s !in {Pending, Claimed} }

  /** A resolved status that says the mail was not, and never will be, handed to the provider. */
  predicate DeadStatus(s: PackStatus) { s in {Failed, StuckNoKey, Cancelled} }

  predicate IsPending(m: Packs, id: PackId) { id in m && m[id].status == Pending }

  // The writes, as functions on the table. A conditional write whose condition fails changes nothing.

  function Put(m: Packs, id: PackId, campaign: nat, sendAt: int, now: int): Packs {
    if id in m then m else m[id := Pack(campaign, Pending, sendAt, now, None, None, true)]
  }

  function Claim(m: Packs, id: PackId, now: int): Packs {
    if IsPending(m, id) then m[id := m[id].(status := Claimed, claimedAt := Some(now))] else m
  }

  function Cancel(m: Packs, id: PackId, now: int): Packs {
    if IsPending(m, id) then m[id := m[id].(status := Cancelled, payload := false, resolvedAt := Some(now))] else m
  }

  /** update_pack with a resolving status: unconditional, and it stamps resolvedAt. */
  function Resolve(m: Packs, id: PackId, status: PackStatus, keepPayload: bool, now: int): Packs
    requires id in m && Resolved(status)
  {
    m[id := m[id].(status := status, payload := keepPayload && m[id].payload, resolvedAt := Some(now))]
  }

  predicate SameClaim(m: Packs, id: PackId, claimedAt: int) {
    id in m && m[id].status == Claimed && m[id].claimedAt == Some(claimedAt)
  }

  function Expire(m: Packs, id: PackId, claimedAt: int, now: int): Packs {
    if SameClaim(m, id, claimedAt)
    then m[id := m[id].(status := Unknown, payload := false, resolvedAt := Some(now))]
    else m
  }

  /** Writes of a sweep over an index listing, in listing order, at most `limit` of them. */
  function ExpireListed(m: Packs, listed: seq<(PackId, int)>, limit: nat, now: int): (r: (Packs, nat))
    ensures r.1 <= limit
    decreases |listed|
  {
    if listed == [] || limit == 0 then (m, 0)
    else if SameClaim(m, listed[0].0, listed[0].1) then
      var rest := ExpireListed(Expire(m, listed[0].0, listed[0].1, now), listed[1..], limit - 1, now);
      (rest.0, rest.1 + 1)
    else ExpireListed(m, listed[1..], limit, now)
  }

  function CancelListed(m: Packs, listed: seq<PackId>, now: int): (Packs, nat)
    decreases |listed|
  {
    if listed == [] then (m, 0)
    else
      var rest := CancelListed(Cancel(m, listed[0], now), listed[1..], now);
      (rest.0, rest.1 + if IsPending(m, listed[0]) then 1 else 0)
  }

  function Flatten<T>(pages: seq<seq<T>>): seq<T> {
    if pages == [] then [] else pages[0] + Flatten(pages[1..])
  }

  /** A sweep rewrites nothing but claims, and only into `unknown`; every other row keeps its value. */
  lemma {:induction false} ExpireListedOnlyClaims(m: Packs, listed: seq<(PackId, int)>, limit: nat, now: int)
    ensures var r := ExpireListed(m, listed, limit, now).0;
            && r.Keys == m.Keys
            && forall id <- m :: r[id] == m[id]
                 || (m[id].status == Claimed && r[id] == m[id].(status := Unknown, payload := false, resolvedAt := Some(now)))
    decreases |listed|
  {
    if listed != [] && limit != 0 {
      if SameClaim(m, listed[0].0, listed[0].1) {
        ExpireListedOnlyClaims(Expire(m, listed[0].0, listed[0].1, now), listed[1..], limit - 1, now);
      } else {
        ExpireListedOnlyClaims(m, listed[1..], limit, now);
      }
    }
  }

  /** A sweep that stays under its limit leaves none of the claims it listed. */
  lemma {:induction false} ExpireListedClears(m: Packs, listed: seq<(PackId, int)>, limit: nat, now: int)
    requires ExpireListed(m, listed, limit, now).1 < limit
    ensures forall e <- listed :: !SameClaim(ExpireListed(m, listed, limit, now).0, e.0, e.1)
    decreases |listed|
  {
    if listed != [] {
      var first := listed[0];
      var m' := Expire(m, first.0, first.1, now);
      var left := if SameClaim(m, first.0, first.1) then limit - 1 else limit;
      ExpireListedClears(m', listed[1..], left, now);
      ExpireListedOnlyClaims(m', listed[1..], left, now);
      forall e | e in listed
        ensures !SameClaim(ExpireListed(m, listed, limit, now).0, e.0, e.1)
      {
        if e != first { assert e in listed[1..]; }
      }
    }
  }

  /** The abort counts exactly the packs it moved; a listed pack is pending no more, and no other row changes. */
  lemma {:induction false} CancelListedExact(m: Packs, listed: seq<PackId>, now: int)
    ensures var r := CancelListed(m, listed, now);
            && r.0.Keys == m.Keys
            && r.1 == |set id | id in listed && IsPending(m, id)|
            && forall id <- m ::
                 r.0[id] == if id in listed && IsPending(m, id)
                            then m[id].(status := Cancelled, payload := false, resolvedAt := Some(now))
                            else m[id]
    decreases |listed|
  {
    if listed != [] {
      var first := listed[0];
      var m' := Cancel(m, first, now);
      CancelListedExact(m', listed[1..], now);
      var before := set id | id in listed && IsPending(m, id);
      var after := set id | id in listed[1..] && IsPending(m', id);
      forall id ensures id in before <==> id in after || (id == first && IsPending(m, first)) {
        assert id in listed <==> id == first || id in listed[1..];
      }
      if IsPending(m, first) {
        assert before == after + {first};
      } else {
        assert before == after;
      }
    } else {
      assert (set id | id in listed && IsPending(m, id)) == {};
    }
  }

  lemma {:induction false} ExpireListedAppend(m: Packs, a: seq<(PackId, int)>, b: seq<(PackId, int)>, limit: nat, now: int)
    ensures var r := ExpireListed(m, a, limit, now);
            var q := ExpireListed(r.0, b, limit - r.1, now);
            ExpireListed(m, a + b, limit, now) == (q.0, r.1 + q.1)
    decreases |a|
  {
    if a == [] {
      assert a + b == b;
    } else {
      assert (a + b)[1..] == a[1..] + b;
      if limit != 0 {
        if SameClaim(m, a[0].0, a[0].1) {
          ExpireListedAppend(Expire(m, a[0].0, a[0].1, now), a[1..], b, limit - 1, now);
        } else {
          ExpireListedAppend(m, a[1..], b, limit, now);
        }
      }
    }
  }

  lemma ExpireMorePages(m: Packs, pages: seq<seq<(PackId, int)>>, p: nat, limit: nat, now: int)
    requires p < |pages|
    ensures var r := ExpireListed(m, Flatten(pages[..p]), limit, now);
            var q := ExpireListed(r.0, pages[p], limit - r.1, now);
            ExpireListed(m, Flatten(pages[..p + 1]), limit, now) == (q.0, r.1 + q.1)
  {
    ExpireListedAppend(m, Flatten(pages[..p]), pages[p], limit, now);
    FlattenSnoc(pages, p);
  }

  /** Once the limit is reached, or no page is left, the pages not read change nothing. */
  lemma ExpireRestOfPages(m: Packs, pages: seq<seq<(PackId, int)>>, p: nat, limit: nat, now: int)
    requires p <= |pages| && (p < |pages| ==> ExpireListed(m, Flatten(pages[..p]), limit, now).1 >= limit)
    ensures ExpireListed(m, Flatten(pages), limit, now) == ExpireListed(m, Flatten(pages[..p]), limit, now)
  {
    if p == |pages| {
      assert pages[..p] == pages;
    } else {
      FlattenSplit(pages, p);
      ExpireListedAppend(m, Flatten(pages[..p]), Flatten(pages[p..]), limit, now);
    }
  }

  lemma {:induction false} CancelListedAppend(m: Packs, a: seq<PackId>, b: seq<PackId>, now: int)
    ensures var r := CancelListed(m, a, now);
            var q := CancelListed(r.0, b, now);
            CancelListed(m, a + b, now) == (q.0, r.1 + q.1)
    decreases |a|
  {
    if a == [] {
      assert a + b == b;
    } else {
      assert (a + b)[1..] == a[1..] + b;
      CancelListedAppend(Cancel(m, a[0], now), a[1..], b, now);
    }
  }

  lemma {:induction false} FlattenSnoc<T>(pages: seq<seq<T>>, i: nat)
    requires i < |pages|
    ensures Flatten(pages[..i + 1]) == Flatten(pages[..i]) + pages[i]
  {
    if i == 0 {
      assert pages[..1] == [pages[0]];
    } else {
      FlattenSnoc(pages[1..], i - 1);
      assert pages[..i + 1][1..] == pages[1..][..i];
      assert pages[..i][1..] == pages[1..][..i - 1];
    }
  }

  // The filters of the two index queries

  function Aged(page: seq<(PackId, int)>, cutoff: int): (r: seq<(PackId, int)>)
    ensures forall e :: e in r <==> e in page && e.1 <= cutoff
  {
    if page == [] then []
    else
      var rest, last := Aged(page[..|page| - 1], cutoff), page[|page| - 1];
      assert page == page[..|page| - 1] + [last];
      if last.1 <= cutoff then rest + [last] else rest
  }

  function EachAged(index: seq<seq<(PackId, int)>>, cutoff: int): (r: seq<seq<(PackId, int)>>)
    ensures |r| == |index| && forall i :: 0 <= i < |r| ==> r[i] == Aged(index[i], cutoff)
  {
    seq(|index|, i requires 0 <= i < |index| => Aged(index[i], cutoff))
  }

  function OfCampaign(page: seq<(PackId, nat)>, campaign: nat): (r: seq<PackId>)
    ensures forall id :: id in r <==> (id, campaign) in page
  {
    if page == [] then []
    else
      var rest, last := OfCampaign(page[..|page| - 1], campaign), page[|page| - 1];
      assert page == page[..|page| - 1] + [last];
      if last.1 == campaign then rest + [last.0] else rest
  }

  function EachOfCampaign(index: seq<seq<(PackId, nat)>>, campaign: nat): (r: seq<seq<PackId>>)
    ensures |r| == |index| && forall i :: 0 <= i < |r| ==> r[i] == OfCampaign(index[i], campaign)
  {
    seq(|index|, i requires 0 <= i < |index| => OfCampaign(index[i], campaign))
  }

  lemma {:induction false} InFlat<T>(pages: seq<seq<T>>, x: T)
    ensures x in Flatten(pages) <==> exists i :: 0 <= i < |pages| && x in pages[i]
  {
    if pages != [] {
      InFlat(pages[1..], x);
      assert forall i :: 0 <= i < |pages[1..]| ==> pages[1..][i] == pages[i + 1];
      if i :| 0 <= i < |pages| && x in pages[i] { assert i > 0 ==> x in pages[1..][i - 1]; }
    }
  }

  /** The claims an up-to-date index lists, and nothing of another age, come to the sweep. */
  lemma AgedListed(index: seq<seq<(PackId, int)>>, cutoff: int, e: (PackId, int))
    ensures e in Flatten(EachAged(index, cutoff)) <==> e in Flatten(index) && e.1 <= cutoff
  {
    InFlat(index, e);
    InFlat(EachAged(index, cutoff), e);
    assert forall i :: 0 <= i < |index| ==> (e in EachAged(index, cutoff)[i] <==> e in index[i] && e.1 <= cutoff);
  }

  lemma CampaignListed(index: seq<seq<(PackId, nat)>>, campaign: nat, id: PackId)
    ensures id in Flatten(EachOfCampaign(index, campaign)) <==> (id, campaign) in Flatten(index)
  {
    InFlat(index, (id, campaign));
    InFlat(EachOfCampaign(index, campaign), id);
    assert forall i :: 0 <= i < |index| ==> (id in EachOfCampaign(index, campaign)[i] <==> (id, campaign) in index[i]);
  }

  function RowOf(m: Packs, id: PackId): Option<Pack> { if id in m then Some(m[id]) else None }

  /** A sweep touches only claims it listed, so none younger than its cutoff. */
  lemma {:induction false} ExpireListedOnlyListed(m: Packs, listed: seq<(PackId, int)>, limit: nat, now: int, id: PackId)
    requires id in m && RowOf(ExpireListed(m, listed, limit, now).0, id) != Some(m[id])
    ensures exists e :: e in listed && e.0 == id && m[id].claimedAt == Some(e.1)
    decreases |listed|
  {
    ExpireListedOnlyClaims(m, listed, limit, now);
    if listed != [] && limit != 0 {
      var first := listed[0];
      var m' := Expire(m, first.0, first.1, now);
      var left := if SameClaim(m, first.0, first.1) then limit - 1 else limit;
      if m'[id] == m[id] {
        ExpireListedOnlyListed(m', listed[1..], left, now, id);
        var e :| e in listed[1..] && e.0 == id && m'[id].claimedAt == Some(e.1);
        assert e in listed;
      } else {
        assert first in listed;
      }
    }
  }

  /** No sweep expires a claim younger than olderThan, whatever the index shows. */
  lemma SweepSparesYoung(m: Packs, index: seq<seq<(PackId, int)>>, olderThan: int, limit: nat, now: int, id: PackId)
    requires id in m && RowOf(ExpireListed(m, Flatten(EachAged(index, now - olderThan)), limit, now).0, id) != Some(m[id])
    ensures m[id].status == Claimed && exists t :: m[id].claimedAt == Some(t) && t <= now - olderThan
  {
    var listed := Flatten(EachAged(index, now - olderThan));
    ExpireListedOnlyClaims(m, listed, limit, now);
    ExpireListedOnlyListed(m, listed, limit, now, id);
    var e :| e in listed && e.0 == id && m[id].claimedAt == Some(e.1);
    AgedListed(index, now - olderThan, e);
  }

  /** With an index that lists every claim, a sweep below its limit leaves no claim as old as olderThan. */
  lemma SweepClearsOld(m: Packs, index: seq<seq<(PackId, int)>>, olderThan: int, limit: nat, now: int, id: PackId, t: int)
    requires ExpireListed(m, Flatten(EachAged(index, now - olderThan)), limit, now).1 < limit
    requires SameClaim(m, id, t) && t <= now - olderThan && (id, t) in Flatten(index)
    ensures RowOf(ExpireListed(m, Flatten(EachAged(index, now - olderThan)), limit, now).0, id)
         == Some(m[id].(status := Unknown, payload := false, resolvedAt := Some(now)))
  {
    var listed := Flatten(EachAged(index, now - olderThan));
    AgedListed(index, now - olderThan, (id, t));
    ExpireListedClears(m, listed, limit, now);
    ExpireListedOnlyClaims(m, listed, limit, now);
  }

  /** A pack claimed at t and still claimed is expired by a sweep that lists it, below its limit, exactly from olderThan after t on. */
  lemma ClaimExpiresWhenOld(m: Packs, id: PackId, t: int, index: seq<seq<(PackId, int)>>, olderThan: int, limit: nat, now: int)
    requires IsPending(m, id) && (id, t) in Flatten(index)
    requires ExpireListed(Claim(m, id, t), Flatten(EachAged(index, now - olderThan)), limit, now).1 < limit
    ensures var row := RowOf(ExpireListed(Claim(m, id, t), Flatten(EachAged(index, now - olderThan)), limit, now).0, id);
      row.Some? && row.value.status in {Claimed, Unknown} && (row.value.status == Unknown <==> t + olderThan <= now)
  {
    var c := Claim(m, id, t);
    ExpireListedOnlyClaims(c, Flatten(EachAged(index, now - olderThan)), limit, now);
    if t + olderThan <= now {
      SweepClearsOld(c, index, olderThan, limit, now, id, t);
    } else if RowOf(ExpireListed(c, Flatten(EachAged(index, now - olderThan)), limit, now).0, id) != Some(c[id]) {
      SweepSparesYoung(c, index, olderThan, limit, now, id);
      assert false;
    }
  }

  /** With an index that tells each pack's campaign, the cancel touches no other campaign, and cancels each pending pack the index lists. */
  lemma CampaignCancelExact(m: Packs, index: seq<seq<(PackId, nat)>>, campaign: nat, now: int, id: PackId)
    requires id in m && forall e <- Flatten(index) :: e.0 in m ==> m[e.0].campaign == e.1
    ensures RowOf(CancelListed(m, Flatten(EachOfCampaign(index, campaign)), now).0, id) ==
      if (id, m[id].campaign) in Flatten(index) && m[id].campaign == campaign && m[id].status == Pending
      then Some(m[id].(status := Cancelled, payload := false, resolvedAt := Some(now)))
      else Some(m[id])
  {
    CancelListedExact(m, Flatten(EachOfCampaign(index, campaign)), now);
    CampaignListed(index, campaign, id);
  }

  /** The table object. Each write is one atomic conditional update. */
  class PackTable {
    var packs: Packs

    constructor ()
      ensures packs == map[]
    {
      packs := map[];
    }

    /** False is PackAlreadyExists: the stored row is untouched. */
    method PutPack(id: PackId, campaign: nat, sendAt: int, now: int) returns (inserted: bool)
      modifies this
      ensures inserted == (id !in old(packs))
      ensures packs == Put(old(packs), id, campaign, sendAt, now)
      ensures packs == if inserted then old(packs)[id := Pack(campaign, Pending, sendAt, now, None, None, true)] else old(packs)
    {
      if id in packs {
        return false;
      }
      packs := packs[id := Pack(campaign, Pending, sendAt, now, None, None, true)];
      return true;
    }

    method ClaimPack(id: PackId, now: int) returns (won: bool)
      modifies this
      ensures won == IsPending(old(packs), id)
      ensures packs == Claim(old(packs), id, now)
      ensures packs == if won then old(packs)[id := old(packs)[id].(status := Claimed, claimedAt := Some(now))] else old(packs)
    {
      won := IsPending(packs, id);
      if won {
        packs := packs[id := packs[id].(status := Claimed, claimedAt := Some(now))];
      }
    }

    method CancelPack(id: PackId, now: int) returns (cancelled: bool)
      modifies this
      ensures cancelled == IsPending(old(packs), id)
      ensures packs == Cancel(old(packs), id, now)
      ensures packs == if cancelled
                       then old(packs)[id := old(packs)[id].(status := Cancelled, payload := false, resolvedAt := Some(now))]
                       else old(packs)
    {
      cancelled := IsPending(packs, id);
      if cancelled {
        packs := packs[id := packs[id].(status := Cancelled, payload := false, resolvedAt := Some(now))];
      }
    }

    /** The unconditional write: it does not look at the status it replaces. */
    method UpdatePack(id: PackId, status: PackStatus, keepPayload: bool, now: int)
      requires id in packs && Resolved(status)
      modifies this
      ensures packs == Resolve(old(packs), id, status, keepPayload, now)
      ensures var row := old(packs)[id];
        packs == old(packs)[id := row.(status := status, payload := keepPayload && row.payload, resolvedAt := Some(now))]
    {
      var row := packs[id];
      packs := packs[id := row.(status := status, payload := keepPayload && row.payload, resolvedAt := Some(now))];
    }

    /** `index` is the claimed partition as the index has it, page by page; it may lag behind the rows. */
    method ExpireStaleClaims(index: seq<seq<(PackId, int)>>, olderThan: int, limit: nat, now: int) returns (changed: nat)
      modifies this
      ensures (packs, changed) == ExpireListed(old(packs), Flatten(EachAged(index, now - olderThan)), limit, now)
    {
      changed := ExpirePages(EachAged(index, now - olderThan), limit, now);
    }

    method ExpirePages(pages: seq<seq<(PackId, int)>>, limit: nat, now: int) returns (changed: nat)
      modifies this
      ensures (packs, changed) == ExpireListed(old(packs), Flatten(pages), limit, now)
    {
      changed := 0;
      var p := 0;
      assert Flatten(pages[..0]) == [];
      while changed < limit && p < |pages|
        invariant p <= |pages| && changed <= limit
        invariant (packs, changed) == ExpireListed(old(packs), Flatten(pages[..p]), limit, now)
        decreases |pages| - p
      {
        ExpireMorePages(old(packs), pages, p, limit, now);
        var more := ExpirePage(pages[p], limit - changed, now);
        changed := changed + more;
        p := p + 1;
      }
      ExpireRestOfPages(old(packs), pages, p, limit, now);
    }

    method ExpirePage(page: seq<(PackId, int)>, room: nat, now: int) returns (changed: nat)
      modifies this
      ensures (packs, changed) == ExpireListed(old(packs), page, room, now)
    {
      changed := 0;
      var i := 0;
      while i < |page|
        invariant i <= |page| && changed <= room
        invariant (packs, changed) == ExpireListed(old(packs), page[..i], room, now)
      {
        if changed >= room {
          ExpireListedAppend(old(packs), page[..i], page[i..], room, now);
          assert page[..i] + page[i..] == page;
          return;
        }
        var e := page[i];
        ExpireListedAppend(old(packs), page[..i], [e], room, now);
        assert page[..i] + [e] == page[..i + 1];
        assert ExpireListed(packs, [e], room - changed, now)
            == (Expire(packs, e.0, e.1, now), if SameClaim(packs, e.0, e.1) then 1 else 0);
        if SameClaim(packs, e.0, e.1) {
          packs := packs[e.0 := packs[e.0].(status := Unknown, payload := false, resolvedAt := Some(now))];
          changed := changed + 1;
        }
        i := i + 1;
      }
      assert page[..i] == page;
    }

    /** `index` is the pending partition with each pack's campaign; it may lag behind the rows. */
    method CancelPendingForCampaign(index: seq<seq<(PackId, nat)>>, campaign: nat, now: int) returns (cancelled: nat)
      modifies this
      ensures (packs, cancelled) == CancelListed(old(packs), Flatten(EachOfCampaign(index, campaign)), now)
    {
      var pages := EachOfCampaign(index, campaign);
      cancelled := 0;
      var p := 0;
      while p < |pages|
        invariant p <= |pages|
        invariant (packs, cancelled) == CancelListed(old(packs), Flatten(pages[..p]), now)
      {
        var i := 0;
        ghost var done := Flatten(pages[..p]);
        assert done + pages[p][..0] == done;
        while i < |pages[p]|
          invariant i <= |pages[p]|
          invariant (packs, cancelled) == CancelListed(old(packs), done + pages[p][..i], now)
        {
          CancelListedAppend(old(packs), done + pages[p][..i], [pages[p][i]], now);
          assert done + pages[p][..i] + [pages[p][i]] == done + pages[p][..i + 1];
          var moved := CancelPack(pages[p][i], now);
          if moved {
            cancelled := cancelled + 1;
          }
          i := i + 1;
        }
        assert pages[p][..i] == pages[p];
        FlattenSnoc(pages, p);
        p := p + 1;
      }
      assert pages[..p] == pages;
    }
  }

  lemma {:induction false} FlattenSplit<T>(pages: seq<seq<T>>, i: nat)
    requires i <= |pages|
    ensures Flatten(pages) == Flatten(pages[..i]) + Flatten(pages[i..])
  {
    if i > 0 {
      FlattenSplit(pages[1..], i - 1);
      assert pages[..i][1..] == pages[1..][..i - 1];
      assert pages[1..][i - 1..] == pages[i..];
    } else {
      assert pages[0..] == pages;
    }
  }
}
