/** The bounded registry of expiring export tokens (`app/api/capability_exports.py`), against its whole history. */
module ExportRegistry {
  import opened Prelude

  datatype Grant<T> = Grant(token: string, subject: T, expires: real)

  /** Expiry times follow the order of issue. */
  ghost predicate Sorted<T>(s: seq<Grant<T>>) {
    forall i, j | 0 <= i < j < |s| :: s[i].expires <= s[j].expires
  }

  ghost predicate DistinctTokens<T>(s: seq<Grant<T>>) {
    forall i, j | 0 <= i < j < |s| :: s[i].token != s[j].token
  }

  /** Unexpired at `t`, and fewer than `capacity` grants were issued after it. */
  ghost predicate Resolves<T>(history: seq<Grant<T>>, g: Grant<T>, t: real, capacity: nat) {
    exists i | 0 <= i < |history| :: history[i] == g && g.expires > t && |history| - i - 1 < capacity
  }

  /** The table is the history from `k` on; a grant before `k` had expired by `clock`, or `capacity` others followed it. */
  ghost predicate Holds<T>(history: seq<Grant<T>>, grants: seq<Grant<T>>, k: nat, clock: real, capacity: nat) {
    && k <= |history| && grants == history[k..] && |grants| <= capacity
    && (k == 0 || history[k - 1].expires <= clock || |grants| == capacity)
  }

  lemma NoEarlierLasts<T>(history: seq<Grant<T>>, i: nat, k: nat)
    requires Sorted(history)
    ensures i < k <= |history| ==> history[i].expires <= history[k - 1].expires
  {
  }

  /** A cleaned-up table answers exactly for the grants that resolve. */
  lemma TableIsHistory<T>(history: seq<Grant<T>>, grants: seq<Grant<T>>, k: nat, clock: real, capacity: nat, g: Grant<T>)
    requires Sorted(history) && Holds(history, grants, k, clock, capacity) && forall x | x in grants :: x.expires > clock
    ensures g in grants <==> Resolves(history, g, clock, capacity)
  {
    if g in grants {
      var j :| 0 <= j < |grants| && grants[j] == g;
      assert history[k + j] == g;
    }
    if Resolves(history, g, clock, capacity) {
      var i :| 0 <= i < |history| && history[i] == g && g.expires > clock && |history| - i - 1 < capacity;
      NoEarlierLasts(history, i, k);
      if i >= k {
        assert grants[i - k] == g;
      }
    }
  }

  /** The table and the history after one more grant, the oldest evicted from a full table. */
  lemma AppendGrant<T>(history: seq<Grant<T>>, grants: seq<Grant<T>>, k: nat, clock: real, capacity: nat, g: Grant<T>)
    requires capacity > 0 && Holds(history, grants, k, clock, capacity) && Sorted(history)
    requires forall h | h in history :: h.expires <= g.expires
    ensures Sorted(history + [g])
    ensures if |grants| >= capacity then Holds(history + [g], grants[1..] + [g], k + 1, clock, capacity)
            else Holds(history + [g], grants + [g], k, clock, capacity)
  {
    var more := history + [g];
    assert forall i | 0 <= i < |history| :: more[i] == history[i] && history[i] in history;
    assert more[k..] == grants + [g];
    if |grants| >= capacity {
      assert more[k + 1..] == grants[1..] + [g];
    }
  }

  /** Dropping `d` expired grants in front, at a later time. */
  lemma DropGrants<T>(history: seq<Grant<T>>, before: seq<Grant<T>>, k: nat, clock: real, now: real, capacity: nat, d: nat)
    requires d <= |before| && clock <= now && Holds(history, before, k, clock, capacity)
    requires forall j | 0 <= j < d :: before[j].expires <= now
    ensures Holds(history, before[d..], k + d, now, capacity)
  {
    assert history[k..][d..] == history[k + d..];
    if d > 0 {
      assert history[k + d - 1] == before[d - 1];
    }
  }

  lemma EndIsDistinct<T>(s: seq<Grant<T>>, d: nat)
    requires d <= |s| && DistinctTokens(s)
    ensures DistinctTokens(s[d..])
  {
  }

  class CapabilityExportRegistry<T> {
    const ttl: real
    const capacity: nat
    /** The dictionary of grants in insertion order. */
    var grants: seq<Grant<T>>

    ghost var history: seq<Grant<T>>
    ghost var clock: real
    ghost var dropped: nat

    constructor (ttl: real, capacity: nat, now: real)
      requires ttl > 0.0 && capacity > 0
      ensures Valid() && history == [] && clock == now && this.ttl == ttl && this.capacity == capacity
    {
      this.ttl, this.capacity := ttl, capacity;
      grants, history, clock, dropped := [], [], now, 0;
    }

    ghost predicate Valid()
      reads this
    {
      && ttl > 0.0 && capacity > 0
      && Sorted(history) && DistinctTokens(grants)
      && (forall g | g in history :: g.expires <= clock + ttl)
      && Holds(history, grants, dropped, clock, capacity)
    }

    /** The expired tokens are those of a front part of the table. */
    method Expired(now: real) returns (expired: seq<string>)
      requires Valid()
      ensures |expired| <= |grants|
      ensures forall j | 0 <= j < |expired| :: expired[j] == grants[j].token && grants[j].expires <= now
      ensures forall j | |expired| <= j < |grants| :: grants[j].expires > now
    {
      expired := [];
      var i := 0;
      while i < |grants|
        invariant |expired| <= i <= |grants|
        invariant forall j | 0 <= j < |expired| :: expired[j] == grants[j].token && grants[j].expires <= now
        invariant forall j | |expired| <= j < i :: grants[j].expires > now
      {
        if grants[i].expires <= now {
          InOrder(|expired|, i);
          expired := expired + [grants[i].token];
        }
        i := i + 1;
      }
    }

    /** `_cleanup`: collect the expired tokens, then delete them. */
    method Cleanup(now: real)
      requires Valid() && now >= clock
      modifies this
      ensures Valid() && history == old(history) && clock == now
      ensures forall g | g in grants :: g.expires > now
      ensures |grants| <= |old(grants)| && grants == old(grants)[|old(grants)| - |grants|..]
    {
      hide Sorted, DistinctTokens, Holds;
      var expired := Expired(now);
      ghost var before := grants;
      var d := 0;
      while d < |expired|
        modifies this`grants
        invariant 0 <= d <= |expired| && grants == before[d..]
      {
        assert grants[0] == before[d];
        assert before[d..][1..] == before[d + 1..];
        Delete(expired[d]);
        d := d + 1;
      }
      DropGrants(history, before, dropped, clock, now, capacity, d);
      EndIsDistinct(before, d);
      clock := now;
      dropped := dropped + d;
    }

    /** The table is ordered by expiry. */
    lemma InOrder(j: nat, i: nat)
      requires Valid() && j <= i < |grants|
      ensures grants[j].expires <= grants[i].expires
    {
      assert grants[j] == history[dropped + j] && grants[i] == history[dropped + i];
    }

    /** `del grants[token]`. */
    method Delete(token: string)
      requires exists i | 0 <= i < |grants| :: grants[i].token == token
      modifies this`grants
      ensures old(grants)[0].token == token ==> grants == old(grants)[1..]
    {
      var i := 0;
      while grants[i].token != token
        invariant 0 <= i < |grants| && forall j | 0 <= j < i :: grants[j].token != token
        decreases |grants| - i
      {
        i := i + 1;
      }
      grants := grants[..i] + grants[i + 1..];
    }

    /** `min` by expiry; the first of equals. */
    method Oldest() returns (token: string)
      requires Valid() && |grants| > 0
      ensures token == grants[0].token
    {
      var best, i := 0, 1;
      while i < |grants|
        modifies {}
        invariant 1 <= i <= |grants| && best == 0
      {
        InOrder(0, i);
        if grants[i].expires < grants[best].expires { best := i; }
        i := i + 1;
      }
      token := grants[best].token;
    }

    predicate InTable(token: string)
      reads this
    {
      exists i | 0 <= i < |grants| :: grants[i].token == token
    }

    /** Draw until the token is not in the table. */
    method Draw(draws: nat -> string, ghost lucky: nat) returns (token: string)
      requires !InTable(draws(lucky))
      ensures !InTable(token) && exists n :: 0 <= n <= lucky && token == draws(n)
    {
      var n := 0;
      token := draws(n);
      while InTable(token)
        invariant n <= lucky && token == draws(n)
        decreases lucky - n
      {
        n := n + 1;
        token := draws(n);
      }
    }

    /** `issue`: tokens are drawn until one is not in the table; `draws` are the random tokens, the `lucky`-th is new to it. */
    method Issue(subject: T, now: real, draws: nat -> string, ghost lucky: nat) returns (g: Grant<T>)
      requires Valid() && now >= clock && !InTable(draws(lucky))
      modifies this
      ensures Valid() && clock == now
      ensures exists n :: 0 <= n <= lucky && g == Grant(draws(n), subject, now + ttl)
      ensures history == old(history) + [g]
    {
      hide Sorted, Holds;
      Cleanup(now);
      ghost var before, k := grants, dropped;
      if |grants| >= capacity {
        Evictable();
        var oldest := Oldest();
        Delete(oldest);
        dropped := dropped + 1;
      }
      var token := Draw(draws, lucky);
      g := Grant(token, subject, now + ttl);
      grants := grants + [g];
      AppendGrant(history, before, k, now, capacity, g);
      history := history + [g];
    }

    lemma Evictable()
      requires Valid() && |grants| >= capacity
      ensures |grants| > 0
    {
    }

    /** A token resolves exactly while its grant is unexpired and among the last `capacity` issued. */
    method Lookup(token: string, now: real) returns (r: Option<Grant<T>>)
      requires Valid() && now >= clock
      modifies this
      ensures Valid() && clock == now && history == old(history)
      ensures r.Some? ==> r.value.token == token && Resolves(history, r.value, now, capacity)
      ensures r.None? ==> forall g | g in history && g.token == token :: !Resolves(history, g, now, capacity)
    {
      hide Sorted, DistinctTokens, Holds, Resolves;
      Cleanup(now);
      forall g ensures g in grants <==> Resolves(history, g, now, capacity) {
        TableIsHistory(history, grants, dropped, clock, capacity, g);
      }
      var i := 0;
      while i < |grants|
        invariant 0 <= i <= |grants| && forall j | 0 <= j < i :: grants[j].token != token
      {
        if grants[i].token == token { return Some(grants[i]); }
        i := i + 1;
      }
      r := None;
    }
  }
}
