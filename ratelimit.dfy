/** The sliding-window rate limiter of `api/ratelimit.go`: one list of admission timestamps per
    client address, pruned on every request. Timestamps are integers in a fixed unit (the
    window is in the same unit). */
module RateLimit {

  /** The timestamps strictly after `windowStart`, in their original order (the `recent` slice). */
  function Recent(stamps: seq<int>, windowStart: int): seq<int>
    decreases |stamps|
  {
    if |stamps| == 0 then []
    else
      var t := stamps[|stamps| - 1];
      Recent(stamps[..|stamps| - 1], windowStart) + (if t > windowStart then [t] else [])
  }

  /** A timestamp survives pruning iff it is strictly after the window start: one exactly at the
      boundary is dropped. */
  lemma {:induction false} RecentMembers(stamps: seq<int>, windowStart: int)
    ensures forall t :: t in Recent(stamps, windowStart) <==> t in stamps && t > windowStart
    ensures |Recent(stamps, windowStart)| <= |stamps|
    decreases |stamps|
  {
    if |stamps| > 0 {
      var init := stamps[..|stamps| - 1];
      RecentMembers(init, windowStart);
      assert stamps == init + [stamps[|stamps| - 1]];
    }
  }

  /** Pruning keeps the relative order of the survivors: it distributes over concatenation. */
  lemma {:induction false} RecentAppend(a: seq<int>, b: seq<int>, windowStart: int)
    ensures Recent(a + b, windowStart) == Recent(a, windowStart) + Recent(b, windowStart)
    decreases |b|
  {
    if |b| == 0 {
      assert a + b == a;
    } else {
      var init := b[..|b| - 1];
      assert (a + b)[..|a + b| - 1] == a + init;
      assert (a + b)[|a + b| - 1] == b[|b| - 1];
      RecentAppend(a, init, windowStart);
    }
  }

  /** Pruning twice with the same window start is pruning once. */
  lemma {:induction false} RecentOfRecent(stamps: seq<int>, windowStart: int)
    ensures Recent(Recent(stamps, windowStart), windowStart) == Recent(stamps, windowStart)
    decreases |stamps|
  {
    if |stamps| > 0 {
      var init := stamps[..|stamps| - 1];
      var t := stamps[|stamps| - 1];
      RecentOfRecent(init, windowStart);
      RecentAppend(Recent(init, windowStart), if t > windowStart then [t] else [], windowStart);
    }
  }

  /** When every timestamp is after the window start, pruning keeps the list as it is. */
  lemma {:induction false} RecentKeepsAll(stamps: seq<int>, windowStart: int)
    requires forall i :: 0 <= i < |stamps| ==> stamps[i] > windowStart
    ensures Recent(stamps, windowStart) == stamps
    decreases |stamps|
  {
    if |stamps| > 0 {
      RecentKeepsAll(stamps[..|stamps| - 1], windowStart);
    }
  }

  /** When no timestamp is after the window start, pruning empties the list. */
  lemma {:induction false} RecentDropsAll(stamps: seq<int>, windowStart: int)
    requires forall i :: 0 <= i < |stamps| ==> stamps[i] <= windowStart
    ensures Recent(stamps, windowStart) == []
    decreases |stamps|
  {
    if |stamps| > 0 {
      RecentDropsAll(stamps[..|stamps| - 1], windowStart);
    }
  }

  const TooManyRequestsStatus: int := 429
  const TooManyRequestsMessage: string := "请求过于频繁，请稍后再试"

  /** What the middleware writes, or what the wrapped handler produced. */
  datatype Reply = Rejected(status: int, message: string) | Passed(body: string)

  class RateLimiter {
    /** `requests`: admission timestamps per remote address. */
    var requests: map<string, seq<int>>
    const limit: int
    const window: int

    constructor (limit: int, window: int)
      ensures requests == map[] && this.limit == limit && this.window == window
    {
      requests := map[];
      this.limit := limit;
      this.window := window;
    }

    /** The stored timestamps of `key`; an address never seen has none. */
    function Stamps(key: string): seq<int>
      reads this
    {
      if key in requests then requests[key] else []
    }

    /** Every stored window holds at most `limit` timestamps. */
    ghost predicate Bounded()
      reads this
    {
      forall k :: k in requests ==> |requests[k]| <= limit
    }

    /** The admission step of Middleware at time `now`: prune, reject when `limit` timestamps
        remain, otherwise record `now` after the survivors. A rejection leaves the map as it
        was (the pruned list is not written back); an admission changes only `key`'s entry. */
    method Admit(key: string, now: int) returns (admitted: bool)
      modifies this
      ensures admitted <==> |Recent(old(Stamps(key)), now - window)| < limit
      ensures !admitted ==> requests == old(requests)
      ensures admitted ==> requests == old(requests)[key := Recent(old(Stamps(key)), now - window) + [now]]
      ensures limit <= 0 ==> !admitted
      ensures 1 <= limit && old(Bounded()) ==> Bounded()
    {
      var windowStart := now - window;
      var stamps := Stamps(key);
      var recent: seq<int> := [];
      for i := 0 to |stamps|
        invariant recent == Recent(stamps[..i], windowStart)
      {
        assert stamps[..i + 1][..i] == stamps[..i];
        if stamps[i] > windowStart {
          recent := recent + [stamps[i]];
        }
      }
      assert stamps[..|stamps|] == stamps;
      if |recent| >= limit {
        return false;
      }
      requests := requests[key := recent + [now]];
      admitted := true;
    }

    /** Middleware: the wrapped handler `next` runs only for an admitted request, after the
        timestamp was recorded: it is handed the limiter's map as it stands when it runs, and
        that map already holds `now`. A rejected request gets the 429 reply. */
    method Middleware(key: string, now: int, next: map<string, seq<int>> -> string) returns (reply: Reply, handled: bool)
      modifies this
      ensures handled <==> |Recent(old(Stamps(key)), now - window)| < limit
      ensures handled ==> requests == old(requests)[key := Recent(old(Stamps(key)), now - window) + [now]]
      ensures handled ==> reply == Passed(next(requests)) && requests[key][|requests[key]| - 1] == now
      ensures !handled ==> reply == Rejected(TooManyRequestsStatus, TooManyRequestsMessage) && requests == old(requests)
    {
      var admitted := Admit(key, now);
      if !admitted {
        return Rejected(TooManyRequestsStatus, TooManyRequestsMessage), false;
      }
      reply, handled := Passed(next(requests)), true;
    }
  }

  /** One more request at the instant `t` when every stored timestamp of `key` is `t`: they all
      survive pruning, so it is admitted iff fewer than `limit` are stored. */
  method AdmitAtSameInstant(limiter: RateLimiter, key: string, t: int, before: seq<int>) returns (admitted: bool)
    requires 1 <= limiter.window && limiter.Stamps(key) == before
    requires forall i :: 0 <= i < |before| ==> before[i] == t
    modifies limiter
    ensures admitted <==> |before| < limiter.limit
    ensures admitted ==> limiter.Stamps(key) == before + [t]
    ensures !admitted ==> limiter.Stamps(key) == before
  {
    RecentKeepsAll(before, t - limiter.window);
    admitted := limiter.Admit(key, t);
  }

  /** From three timestamps at `t` under a limit of 3 and a window of 1000: a fourth request at
      `t` is refused, and one 1100 later is admitted because all three have left the window. */
  method RefuseThenExpire(limiter: RateLimiter, key: string, t: int) returns (admittedAtT: bool, later: bool)
    requires limiter.limit == 3 && limiter.window == 1000 && limiter.Stamps(key) == [t, t, t]
    modifies limiter
    ensures !admittedAtT && later
  {
    admittedAtT := AdmitAtSameInstant(limiter, key, t, [t, t, t]);
    RecentDropsAll([t, t, t], t + 100);
    later := limiter.Admit(key, t + 1100);
  }

  /** With a limit of 3 and a window of 1000, three requests at one instant pass, a fourth at
      that instant is refused, and one 1100 later passes again. */
  method SameInstantScenario(t: int) returns (outcomes: seq<bool>)
    ensures outcomes == [true, true, true, false, true]
  {
    var limiter := new RateLimiter(3, 1000);
    var a := AdmitAtSameInstant(limiter, "ip1", t, []);
    assert [] + [t] == [t];
    var b := AdmitAtSameInstant(limiter, "ip1", t, [t]);
    assert [t] + [t] == [t, t];
    var c := AdmitAtSameInstant(limiter, "ip1", t, [t, t]);
    assert [t, t] + [t] == [t, t, t];
    var d, e := RefuseThenExpire(limiter, "ip1", t);
    outcomes := [a, b, c, d, e];
  }
}
