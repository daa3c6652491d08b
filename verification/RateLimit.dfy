/**
 The self-healing fixed-window limiter: INCR and, when the key has no expiry, PEXPIRE, in one
 atomic script. Times are milliseconds. A fault may strip the expiry of a key at any time.
 */
module RateLimit {
  import opened Options

  /** A counter key; expireAt == None is a key that lost its TTL. */
  datatype Counter = Absent | Present(n: nat, expireAt: Option<int>)

  predicate Expired(c: Counter, now: int) { c.Present? && c.expireAt.Some? && c.expireAt.value <= now }

  /** What a command sees of a key at an instant. */
  function Seen(c: Counter, now: int): Counter { if Expired(c, now) then Absent else c }

  function WindowMs(window: int): int { if window < 1 then 1 else window }

  /**
   The script: after every hit the key counts it and expires within one window, whatever happened
   to its expiry before.
   */
  function Hit(c: Counter, now: int, window: int): (r: Counter)
    ensures r.Present? && r.n == (if Seen(c, now).Absent? then 1 else Seen(c, now).n + 1)
    ensures r.expireAt.Some? && now < r.expireAt.value
    ensures c.Absent? || c.expireAt.None? || Expired(c, now) ==> r.expireAt.value == if window < 1 then now + 1 else now + window
    ensures c.Present? && 1 <= c.n && c.expireAt.Some? && !Expired(c, now) ==> r.expireAt == c.expireAt
  {
    var seen := Seen(c, now);
    var n := if seen.Absent? then 1 else seen.n + 1;
    var armed := seen.Present? && seen.expireAt.Some?;
    Present(n, if n == 1 || !armed then Some(now + WindowMs(window)) else seen.expireAt)
  }

  class Redis {
    var keys: map<string, Counter>

    constructor ()
      ensures keys == map[]
    {
      keys := map[];
    }

    ghost function At(key: string): Counter
      reads this
    {
      if key in keys then keys[key] else Absent
    }

    method RunHit(key: string, now: int, window: int) returns (n: nat)
      modifies this
      ensures keys == old(keys)[key := Hit(old(At(key)), now, window)]
      ensures n == At(key).n
    {
      var cur := if key in keys then keys[key] else Absent;
      var gone := Expired(cur, now) || cur.Absent?;
      n := if gone then 1 else cur.n + 1;
      var expireAt := if gone then None else cur.expireAt;
      if n == 1 || expireAt.None? {
        expireAt := Some(now + WindowMs(window));
      }
      keys := keys[key := Present(n, expireAt)];
    }

    /** True while the window's count is within the limit. */
    method Allow(key: string, limit: nat, now: int, window: int) returns (ok: bool)
      modifies this
      ensures keys == old(keys)[key := Hit(old(At(key)), now, window)]
      ensures ok <==> Hit(old(At(key)), now, window).n <= limit
    {
      var n := RunHit(key, now, window);
      ok := n <= limit;
    }
  }

  // ---------------------------------------------------------------- runs of one key

  datatype Event = HitAt(at: int) | TtlLost

  /** epoch (history) numbers the counter's lifetimes, start is when the current one began. */
  datatype Life = Life(counter: Counter, epoch: nat, start: int)

  function Step(h: Life, ev: Event, w: int): Life {
    match ev
    case TtlLost => if h.counter.Present? then h.(counter := h.counter.(expireAt := None)) else h
    case HitAt(at) =>
      var c := Hit(h.counter, at, w);
      if c.n == 1 then Life(c, h.epoch + 1, at) else h.(counter := c)
  }

  const BIRTH: Life := Life(Absent, 0, 0)

  function After(evs: seq<Event>, w: int): Life {
    if evs == [] then BIRTH else Step(After(evs[..|evs|-1], w), evs[|evs|-1], w)
  }

  /** The clock does not run backwards. */
  ghost predicate Ordered(evs: seq<Event>) {
    forall i, j :: 0 <= i < j < |evs| && evs[i].HitAt? && evs[j].HitAt? ==> evs[i].at <= evs[j].at
  }

  /** The counter's state right after event i. */
  function LifeAt(evs: seq<Event>, w: int, i: nat): Life
    requires i < |evs|
  {
    After(evs[..i + 1], w)
  }

  predicate AllowedHit(evs: seq<Event>, w: int, limit: nat, i: nat)
    requires i < |evs|
  {
    evs[i].HitAt? && LifeAt(evs, w, i).counter.Present? && LifeAt(evs, w, i).counter.n <= limit
  }

  /** Allowed hits of one lifetime. */
  function AllowedIn(evs: seq<Event>, w: int, limit: nat, epoch: nat): nat {
    if evs == [] then 0
    else
      var k := |evs| - 1;
      AllowedIn(evs[..k], w, limit, epoch)
      + if AllowedHit(evs, w, limit, k) && LifeAt(evs, w, k).epoch == epoch then 1 else 0
  }

  /** Allowed hits in the closed interval [lo, lo + w]. */
  function AllowedWithin(evs: seq<Event>, w: int, limit: nat, lo: int): nat {
    if evs == [] then 0
    else
      var k := |evs| - 1;
      AllowedWithin(evs[..k], w, limit, lo)
      + if AllowedHit(evs, w, limit, k) && lo <= evs[k].at <= lo + w then 1 else 0
  }

  lemma LifeAtPrefix(evs: seq<Event>, w: int, i: nat, k: nat)
    requires i < k <= |evs|
    ensures LifeAt(evs[..k], w, i) == LifeAt(evs, w, i)
  {
    assert evs[..k][..i + 1] == evs[..i + 1];
  }

  lemma LastLife(evs: seq<Event>, w: int)
    requires evs != []
    ensures LifeAt(evs, w, |evs| - 1) == After(evs, w)
  {
    assert evs[..|evs|] == evs;
  }

  function Min(a: nat, b: nat): nat { if a <= b then a else b }

  function CountOf(c: Counter): nat { if c.Present? then c.n else 0 }

  /** A lifetime lets at most `limit` hits through, and the current one exactly as many as its count allows. */
  lemma {:induction false} PerLifetimeBound(evs: seq<Event>, w: int, limit: nat, epoch: nat)
    ensures AllowedIn(evs, w, limit, epoch) <= limit
    ensures epoch == After(evs, w).epoch ==> AllowedIn(evs, w, limit, epoch) == Min(limit, CountOf(After(evs, w).counter))
    ensures epoch > After(evs, w).epoch ==> AllowedIn(evs, w, limit, epoch) == 0
  {
    if evs != [] {
      PerLifetimeBound(evs[..|evs|-1], w, limit, epoch);
      LastLife(evs, w);
    }
  }

  // ---------------------------------------------------------------- lifetimes are a window apart

  /** Hit i of an earlier lifetime lies before the current one, and a window before it if two lifetimes back. */
  ghost predicate Behind(evs: seq<Event>, w: int, i: nat)
    requires i < |evs|
  {
    var h := After(evs, w);
    evs[i].HitAt? ==>
      && 1 <= LifeAt(evs, w, i).epoch <= h.epoch
      && (LifeAt(evs, w, i).epoch < h.epoch ==> evs[i].at < h.start)
      && (LifeAt(evs, w, i).epoch + 1 < h.epoch ==> evs[i].at + w < h.start)
      && (h.counter.Present? && h.counter.expireAt.Some? ==> evs[i].at < h.counter.expireAt.value)
  }

  ghost predicate Spaced(h: Life, w: int) {
    h.counter.Present? && h.counter.expireAt.Some? ==> h.start + w <= h.counter.expireAt.value
  }

  lemma HitSpaces(h: Life, at: int, w: int)
    requires 1 <= w && Spaced(h, w) && (h.counter.Present? ==> h.start <= at) && (h.epoch > 0 ==> h.counter.Present?)
    requires h.counter.Present? ==> h.counter.n >= 1
    ensures var r := Step(h, HitAt(at), w);
            && Spaced(r, w) && r.counter.Present? && r.counter.n >= 1 && r.start <= at && at < r.counter.expireAt.value
            && (r.epoch == h.epoch ==> r.start == h.start && (h.counter.expireAt.Some? ==> r.counter.expireAt == h.counter.expireAt))
            && (r.epoch != h.epoch ==> r.epoch == h.epoch + 1 && r.start == at)
            && (r.epoch != h.epoch && h.counter.Present? ==> h.counter.expireAt.Some? && h.counter.expireAt.value <= at)
  {}

  lemma BehindStays(evs: seq<Event>, w: int, i: nat)
    requires 1 <= w && evs != [] && Ordered(evs) && i < |evs| - 1
    requires LifeInv(evs[..|evs|-1], w) && Behind(evs[..|evs|-1], w, i)
    ensures Behind(evs, w, i)
  {
    var before := evs[..|evs|-1];
    LifeAtPrefix(evs, w, i, |evs| - 1);
    var h, ev := After(before, w), evs[|evs|-1];
    if ev.HitAt? { HitSpaces(h, ev.at, w); }
  }

  ghost predicate LifeInv(evs: seq<Event>, w: int) {
    var h := After(evs, w);
    && Spaced(h, w)
    && (h.epoch > 0 <==> h.counter.Present?)
    && (h.counter.Present? ==> h.counter.n >= 1 && exists i :: 0 <= i < |evs| && evs[i] == HitAt(h.start))
  }

  lemma {:induction false} LivesAreSpaced(evs: seq<Event>, w: int)
    requires 1 <= w && Ordered(evs)
    ensures LifeInv(evs, w)
    ensures forall i :: 0 <= i < |evs| ==> Behind(evs, w, i)
  {
    if evs != [] {
      var before, ev := evs[..|evs|-1], evs[|evs|-1];
      LivesAreSpaced(before, w);
      LastLife(evs, w);
      var h, r := After(before, w), After(evs, w);
      if h.counter.Present? {
        var s :| 0 <= s < |before| && before[s] == HitAt(h.start);
        assert evs[s] == HitAt(h.start);
      }
      if ev.HitAt? {
        HitSpaces(h, ev.at, w);
        if r.epoch != h.epoch { assert evs[|evs|-1] == HitAt(r.start); }
      }
      forall i | 0 <= i < |evs| ensures Behind(evs, w, i) {
        if i < |evs| - 1 { BehindStays(evs, w, i); }
      }
    }
  }

  lemma {:induction false} ExpiryBounded(evs: seq<Event>, w: int, latest: int)
    requires 1 <= w && forall i :: 0 <= i < |evs| && evs[i].HitAt? ==> evs[i].at <= latest
    ensures var c := After(evs, w).counter; c.Present? && c.expireAt.Some? ==> c.expireAt.value <= latest + w
  {
    if evs != [] { ExpiryBounded(evs[..|evs|-1], w, latest); }
  }

  /** Self-healing: after every hit of every run the key expires within one window, even if its TTL had been lost. */
  lemma HitAlwaysExpires(evs: seq<Event>, w: int)
    requires 1 <= w && Ordered(evs) && evs != [] && evs[|evs|-1].HitAt?
    ensures var c, now := After(evs, w).counter, evs[|evs|-1].at;
            c.Present? && c.expireAt.Some? && now < c.expireAt.value <= now + w
  {
    ExpiryBounded(evs, w, evs[|evs|-1].at);
  }

  /** The window is fixed, not sliding: unless its TTL was lost, a lifetime ends exactly one window after it began. */
  lemma {:induction false} WindowIsFixed(evs: seq<Event>, w: int)
    requires 1 <= w && Ordered(evs) && forall i :: 0 <= i < |evs| ==> evs[i].HitAt?
    ensures var h := After(evs, w); h.counter.Present? ==> h.counter.expireAt == Some(h.start + w)
  {
    if evs != [] {
      WindowIsFixed(evs[..|evs|-1], w);
      LivesAreSpaced(evs[..|evs|-1], w);
    }
  }

  /** Hits at most a window apart belong to the same lifetime or to neighbouring ones. */
  lemma NeighbouringLifetimes(evs: seq<Event>, w: int, i: nat, j: nat)
    requires 1 <= w && Ordered(evs) && i < j < |evs| && evs[i].HitAt? && evs[j].HitAt? && evs[j].at <= evs[i].at + w
    ensures LifeAt(evs, w, i).epoch <= LifeAt(evs, w, j).epoch <= LifeAt(evs, w, i).epoch + 1
  {
    var upTo := evs[..j + 1];
    assert Ordered(upTo);
    LivesAreSpaced(upTo, w);
    assert Behind(upTo, w, i);
    LifeAtPrefix(evs, w, i, j + 1);
    var h := After(upTo, w);
    var s :| 0 <= s < |upTo| && upTo[s] == HitAt(h.start);
    assert upTo[j] == evs[j] && upTo[s].at <= upTo[j].at;
  }

  /** Every allowed hit of the interval is in one of two lifetimes. */
  ghost predicate Confined(evs: seq<Event>, w: int, lo: int, epoch: nat) {
    forall i :: 0 <= i < |evs| && evs[i].HitAt? && lo <= evs[i].at <= lo + w ==>
      LifeAt(evs, w, i).epoch == epoch || LifeAt(evs, w, i).epoch == epoch + 1
  }

  lemma {:induction false} ConfinedCount(evs: seq<Event>, w: int, limit: nat, lo: int, epoch: nat)
    requires Confined(evs, w, lo, epoch)
    ensures AllowedWithin(evs, w, limit, lo) <= AllowedIn(evs, w, limit, epoch) + AllowedIn(evs, w, limit, epoch + 1)
  {
    if evs != [] {
      var before := evs[..|evs|-1];
      forall i | 0 <= i < |before| && before[i].HitAt? && lo <= before[i].at <= lo + w
        ensures LifeAt(before, w, i).epoch == epoch || LifeAt(before, w, i).epoch == epoch + 1
      {
        LifeAtPrefix(evs, w, i, |evs| - 1);
        assert evs[i] == before[i];
      }
      ConfinedCount(before, w, limit, lo, epoch);
    }
  }

  /** The first hit of the interval, if any, fixes the two lifetimes the interval can touch. */
  lemma ConfiningEpoch(evs: seq<Event>, w: int, lo: int) returns (epoch: nat)
    requires 1 <= w && Ordered(evs)
    ensures Confined(evs, w, lo, epoch)
  {
    epoch := 0;
    var i := 0;
    while i < |evs|
      invariant 0 <= i <= |evs|
      invariant forall k :: 0 <= k < i && evs[k].HitAt? ==> !(lo <= evs[k].at <= lo + w)
    {
      if evs[i].HitAt? && lo <= evs[i].at <= lo + w {
        epoch := LifeAt(evs, w, i).epoch;
        forall j | 0 <= j < |evs| && evs[j].HitAt? && lo <= evs[j].at <= lo + w
          ensures LifeAt(evs, w, j).epoch == epoch || LifeAt(evs, w, j).epoch == epoch + 1
        {
          if i < j { NeighbouringLifetimes(evs, w, i, j); }
        }
        return;
      }
      i := i + 1;
    }
  }

  /**
   Limiter bound: whatever TTLs are lost on the way, at most 2 * limit hits are let through in any
   interval of one window length.
   */
  lemma AtMostTwiceTheLimit(evs: seq<Event>, w: int, limit: nat, lo: int)
    requires 1 <= w && Ordered(evs)
    ensures AllowedWithin(evs, w, limit, lo) <= 2 * limit
  {
    var epoch := ConfiningEpoch(evs, w, lo);
    ConfinedCount(evs, w, limit, lo, epoch);
    PerLifetimeBound(evs, w, limit, epoch);
    PerLifetimeBound(evs, w, limit, epoch + 1);
  }
}
