/** The text hashed into a pack id, and why it never names two packs. */
module PackIdText {
  import opened PackIds
  import opened TextOrder

  function KeyText(key: SendKey): string {
    match key
    case Main => "main"
    case Relaunch(g) => "relaunch:" + Digits(g)
    case Stage(n) => "stage:" + Digits(n)
  }

  /** The campaign's creation time may be any text, colons included. */
  function PackText(campaign: nat, createdAt: string, key: SendKey, contact: nat, ordinal: nat): string {
    "mailman:pack:v1:" + Digits(campaign) + ":" + createdAt + ":" + KeyText(key) + ":" + Digits(contact) + ":" + Digits(ordinal)
  }

  lemma DigitsFree(n: nat)
    ensures Free(Digits(n), ':')
  {
  }

  function Kind(key: SendKey): string {
    match key
    case Main => "main"
    case Relaunch(_) => "relaunch"
    case Stage(_) => "stage"
  }

  function Number(key: SendKey): nat {
    match key
    case Main => 0
    case Relaunch(g) => g
    case Stage(n) => n
  }

  lemma KeyTextParts(t: string, key: SendKey)
    ensures t + ":" + KeyText(key)
         == if key.Main? then t + ":" + "main" else (t + ":" + Kind(key)) + ":" + Digits(Number(key))
  {
  }

  lemma DigitsNotMain(n: nat)
    ensures Digits(n) != "main"
  {
    DigitsAreDigits(n);
    assert Digits(n)[0] in Digits(n);
    assert "main"[0] == 'm' && !IsDigit('m');
  }

  lemma MainIsNoNumber(t: string, u: string, n: nat)
    ensures t + ":" + "main" != u + ":" + Digits(n)
  {
    DigitsFree(n);
    DigitsNotMain(n);
    if t + ":" + "main" == u + ":" + Digits(n) { LastField(t, "main", u, Digits(n), ':'); }
  }

  lemma NumberedSplits(t: string, a: string, m: nat, t': string, b: string, n: nat)
    requires (t + ":" + a) + ":" + Digits(m) == (t' + ":" + b) + ":" + Digits(n)
    requires Free(a, ':') && Free(b, ':')
    ensures t == t' && a == b && m == n
  {
    DigitsFree(m);
    DigitsFree(n);
    LastField(t + ":" + a, Digits(m), t' + ":" + b, Digits(n), ':');
    DigitsInjective(m, n);
    LastField(t, a, t', b, ':');
  }

  /** The kind of a key, its number, and the text before them can be read back from the right. */
  lemma KeyTextSplits(t: string, key: SendKey, t': string, key': SendKey)
    requires t + ":" + KeyText(key) == t' + ":" + KeyText(key')
    ensures t == t' && key == key'
  {
    KeyTextParts(t, key);
    KeyTextParts(t', key');
    if key.Main? && key'.Main? {
      LastField(t, "main", t', "main", ':');
    } else if key.Main? {
      MainIsNoNumber(t, t' + ":" + Kind(key'), Number(key'));
    } else if key'.Main? {
      MainIsNoNumber(t', t + ":" + Kind(key), Number(key));
    } else {
      NumberedSplits(t, Kind(key), Number(key), t', Kind(key'), Number(key'));
    }
  }

  /** Everything hashed before the contact. */
  function Front(campaign: nat, createdAt: string): string {
    "mailman:pack:v1:" + (Digits(campaign) + ":" + createdAt)
  }

  lemma PackTextParts(c: nat, t: string, k: SendKey, x: nat, o: nat)
    ensures PackText(c, t, k, x, o) == ((Front(c, t) + ":" + KeyText(k)) + ":" + Digits(x)) + ":" + Digits(o)
  {
  }

  lemma FrontInjective(c: nat, t: string, c': nat, t': string)
    requires Front(c, t) == Front(c', t')
    ensures c == c' && t == t'
  {
    var head := "mailman:pack:v1:";
    var b, b' := Digits(c) + ":" + t, Digits(c') + ":" + t';
    assert Front(c, t)[|head|..] == b && Front(c', t')[|head|..] == b';
    DigitsFree(c);
    DigitsFree(c');
    FirstField(Digits(c), t, Digits(c'), t', ':');
    DigitsInjective(c, c');
  }

  lemma LastNumber(a: string, m: nat, b: string, n: nat)
    requires a + ":" + Digits(m) == b + ":" + Digits(n)
    ensures a == b && m == n
  {
    DigitsFree(m);
    DigitsFree(n);
    LastField(a, Digits(m), b, Digits(n), ':');
    DigitsInjective(m, n);
  }

  /** Two packs with the same text agree on campaign, creation time, generation, contact and ordinal. */
  lemma PackTextInjective(c: nat, t: string, k: SendKey, x: nat, o: nat, c': nat, t': string, k': SendKey, x': nat, o': nat)
    requires PackText(c, t, k, x, o) == PackText(c', t', k', x', o')
    ensures c == c' && t == t' && k == k' && x == x' && o == o'
  {
    PackTextParts(c, t, k, x, o);
    PackTextParts(c', t', k', x', o');
    var a, a' := Front(c, t) + ":" + KeyText(k), Front(c', t') + ":" + KeyText(k');
    LastNumber(a + ":" + Digits(x), o, a' + ":" + Digits(x'), o');
    LastNumber(a, x, a', x');
    KeyTextSplits(Front(c, t), k, Front(c', t'), k');
    FrontInjective(c, t, c', t');
  }

  predicate Recorded<Id, V>(jobs: map<Id, V>, hash: string -> Id, c: nat, t: string, k: SendKey, x: nat, a: nat) {
    hash(PackText(c, t, k, x, a)) in jobs
  }

  lemma {:induction false} DistinctIds<Id, V>(jobs: map<Id, V>, hash: string -> Id, c: nat, t: string, k: SendKey, x: nat, n: nat)
      returns (ids: set<Id>)
    requires forall u, v :: hash(u) == hash(v) ==> u == v
    requires forall a: nat :: a < n ==> Recorded(jobs, hash, c, t, k, x, a)
    ensures |ids| == n && ids <= jobs.Keys
    ensures forall id <- ids :: exists a: nat :: a < n && id == hash(PackText(c, t, k, x, a))
  {
    if n == 0 {
      ids := {};
    } else {
      var rest := DistinctIds(jobs, hash, c, t, k, x, n - 1);
      var last := hash(PackText(c, t, k, x, n - 1));
      assert Recorded(jobs, hash, c, t, k, x, n - 1);
      forall id | id in rest ensures id != last {
        var a: nat :| a < n - 1 && id == hash(PackText(c, t, k, x, a));
        if id == last { PackTextInjective(c, t, k, x, a, c, t, k, x, n - 1); }
      }
      ids := rest + {last};
    }
  }

  /** With an injective hash the ordinal search ends within |jobs| steps, so the "stuck" error cannot be raised. */
  lemma OrdinalSearchEnds<Id, V>(jobs: map<Id, V>, hash: string -> Id, c: nat, t: string, k: SendKey, x: nat, n: nat)
    requires forall u, v :: hash(u) == hash(v) ==> u == v
    requires forall a: nat :: a < n ==> Recorded(jobs, hash, c, t, k, x, a)
    ensures n <= |jobs|
  {
    var ids := DistinctIds(jobs, hash, c, t, k, x, n);
    assert jobs.Keys == ids + (jobs.Keys - ids);
  }
}
