/**
 The sliding-window limits per IP: lists that are pruned and evicted as they go, against a limiter
 that remembers every accepted time for ever.
 */
module Limiter {
  const WINDOW_MS := 60_000
  const MAX_KEYS := 10_000

  type Ip = string
  type Times = map<Ip, seq<int>>

  function Get(m: Times, ip: Ip): seq<int> {
    if ip in m then m[ip] else []
  }

  // The times less than a window ago.
  function Recent(ts: seq<int>, now: int): seq<int> {
    if ts == [] then []
    else Recent(ts[..|ts| - 1], now) + (if now - ts[|ts| - 1] < WINDOW_MS then [ts[|ts| - 1]] else [])
  }

  lemma RecentSnoc(ts: seq<int>, t: int, now: int)
    ensures Recent(ts + [t], now) == Recent(ts, now) + (if now - t < WINDOW_MS then [t] else [])
  {
    assert (ts + [t])[..|ts|] == ts;
  }

  /** Pruning early changes nothing later. */
  lemma {:induction false} RecentOfRecent(ts: seq<int>, now: int, later: int)
    requires now <= later
    ensures Recent(Recent(ts, now), later) == Recent(ts, later)
  {
    if ts != [] {
      var init, t := ts[..|ts| - 1], ts[|ts| - 1];
      RecentOfRecent(init, now, later);
      if now - t < WINDOW_MS {
        RecentSnoc(Recent(init, now), t, later);
      } else {
        assert Recent(ts, now) == Recent(init, now);
      }
    }
  }

  // The indices of the times less than a minute before `now`.
  ghost function LastMinute(ts: seq<int>, now: int): set<nat> {
    set i: nat | i < |ts| && now - ts[i] < 60_000
  }

  lemma {:induction false} RecentCounts(ts: seq<int>, now: int)
    ensures |Recent(ts, now)| == |LastMinute(ts, now)|
  {
    if ts == [] {
      assert LastMinute(ts, now) == {};
    } else {
      var last := |ts| - 1;
      RecentCounts(ts[..last], now);
      if now - ts[last] < 60_000 {
        assert LastMinute(ts, now) == LastMinute(ts[..last], now) + {last};
      } else {
        assert LastMinute(ts, now) == LastMinute(ts[..last], now);
      }
    }
  }

  // ------------------------------------------------- the limiter that never forgets

  predicate Admits(accepted: seq<int>, now: int, max: nat) {
    |Recent(accepted, now)| < max
  }

  predicate NotAfter(ts: seq<int>, now: int) {
    forall i | 0 <= i < |ts| :: ts[i] <= now
  }

  // A history this limiter can have produced, on a clock that does not go back.
  ghost predicate Admitted(ts: seq<int>, max: nat) {
    ts == []
    || (var init, t := ts[..|ts| - 1], ts[|ts| - 1];
        Admitted(init, max) && Admits(init, t, max) && NotAfter(init, t))
  }

  // Accepted times in the half-open window that starts at `from`.
  function InWindow(ts: seq<int>, from: int): nat {
    if ts == [] then 0
    else InWindow(ts[..|ts| - 1], from) + if from <= ts[|ts| - 1] < from + WINDOW_MS then 1 else 0
  }

  lemma {:induction false} WindowCounts(ts: seq<int>, from: int)
    ensures InWindow(ts, from) == |set i: nat | i < |ts| && from <= ts[i] < from + 60_000|
  {
    var here := set i: nat | i < |ts| && from <= ts[i] < from + 60_000;
    if ts == [] {
      assert here == {};
    } else {
      var last := |ts| - 1;
      var before := set i: nat | i < |ts[..last]| && from <= ts[..last][i] < from + 60_000;
      WindowCounts(ts[..last], from);
      assert here == if from <= ts[last] < from + 60_000 then before + {last} else before;
    }
  }

  lemma {:induction false} WindowIsRecent(ts: seq<int>, from: int, now: int)
    requires from <= now < from + WINDOW_MS
    ensures InWindow(ts, from) <= |Recent(ts, now)|
  {
    if ts != [] {
      WindowIsRecent(ts[..|ts| - 1], from, now);
    }
  }

  /** Wherever the window is placed, it holds no more accepted times than the limit. */
  lemma {:induction false} NoWindowExceeds(ts: seq<int>, max: nat, from: int)
    requires Admitted(ts, max)
    ensures InWindow(ts, from) <= max
    ensures |set i: nat | i < |ts| && from <= ts[i] < from + 60_000| <= max
  {
    WindowCounts(ts, from);
    if ts != [] {
      var init, t := ts[..|ts| - 1], ts[|ts| - 1];
      NoWindowExceeds(init, max, from);
      if from <= t < from + WINDOW_MS {
        WindowIsRecent(init, from, t);
      }
    }
  }

  lemma AnyWindow(full: Times, ip: Ip, max: nat)
    requires Admitted(Get(full, ip), max)
    ensures forall from :: InWindow(Get(full, ip), from) <= max
  {
    forall from ensures InWindow(Get(full, ip), from) <= max {
      NoWindowExceeds(Get(full, ip), max, from);
    }
  }

  // -------------------------------------------------------------- refinement

  ghost predicate Bounded(full: Times, now: int, max: nat) {
    forall ip :: Admitted(Get(full, ip), max) && NotAfter(Get(full, ip), now)
  }

  // From `now` on, the pruned lists answer as the full ones.
  ghost predicate Tracks(pruned: Times, full: Times, now: int, max: nat) {
    && (forall ip, later | now <= later :: Recent(Get(pruned, ip), later) == Recent(Get(full, ip), later))
    && Bounded(full, now, max)
  }

  lemma StillTracks(pruned: Times, full: Times, was: int, now: int, max: nat)
    requires Tracks(pruned, full, was, max) && was <= now
    ensures Tracks(pruned, full, now, max)
  {
    forall ip ensures Admitted(Get(full, ip), max) && NotAfter(Get(full, ip), now) {
      assert NotAfter(Get(full, ip), was);
    }
  }

  // Replacing a list by its recent part.
  lemma PrunedTracks(pruned: Times, full: Times, now: int, max: nat, ip: Ip)
    requires Tracks(pruned, full, now, max)
    ensures Tracks(pruned[ip := Recent(Get(pruned, ip), now)], full, now, max)
  {
    var after := pruned[ip := Recent(Get(pruned, ip), now)];
    forall k, later | now <= later ensures Recent(Get(after, k), later) == Recent(Get(full, k), later) {
      RecentOfRecent(Get(pruned, k), now, later);
    }
  }

  // Accepting `now` on both sides.
  lemma AcceptTracks(pruned: Times, full: Times, now: int, max: nat, ip: Ip)
    requires Tracks(pruned, full, now, max) && Admits(Get(full, ip), now, max)
    ensures Tracks(pruned[ip := Get(pruned, ip) + [now]], full[ip := Get(full, ip) + [now]], now, max)
  {
    var a, b := Get(pruned, ip), Get(full, ip);
    var p, f := pruned[ip := a + [now]], full[ip := b + [now]];
    forall k, later | now <= later ensures Recent(Get(p, k), later) == Recent(Get(f, k), later) {
      if k == ip {
        AcceptedRecent(a, b, now, later);
      } else {
        assert Recent(Get(pruned, k), later) == Recent(Get(full, k), later);
      }
    }
    AcceptedBounded(full, now, max, ip);
  }

  lemma AcceptedBounded(full: Times, now: int, max: nat, ip: Ip)
    requires Bounded(full, now, max) && Admits(Get(full, ip), now, max)
    ensures Bounded(full[ip := Get(full, ip) + [now]], now, max)
  {
    var ts := Get(full, ip);
    var f := full[ip := ts + [now]];
    AcceptAdmitted(ts, now, max);
    forall k ensures Admitted(Get(f, k), max) && NotAfter(Get(f, k), now) {
      assert k != ip ==> Admitted(Get(full, k), max) && NotAfter(Get(full, k), now);
    }
  }

  lemma AcceptedRecent(a: seq<int>, b: seq<int>, now: int, later: int)
    requires Recent(a, later) == Recent(b, later)
    ensures Recent(a + [now], later) == Recent(b + [now], later)
  {
    RecentSnoc(a, now, later);
    RecentSnoc(b, now, later);
  }

  lemma AcceptAdmitted(ts: seq<int>, now: int, max: nat)
    requires Admitted(ts, max) && Admits(ts, now, max) && NotAfter(ts, now)
    ensures Admitted(ts + [now], max)
  {
    assert (ts + [now])[..|ts|] == ts;
  }

  // Forgetting an IP on both sides.
  lemma ForgetTracks(pruned: Times, full: Times, now: int, max: nat, ip: Ip)
    requires Tracks(pruned, full, now, max)
    ensures Tracks(pruned - {ip}, full - {ip}, now, max)
  {
    forall k ensures Get(pruned - {ip}, k) == (if k == ip then [] else Get(pruned, k))
                     && Get(full - {ip}, k) == if k == ip then [] else Get(full, k) {
    }
  }

  // Dropping keys whose times are all too old.
  lemma {:induction false} EvictTracks(pruned: Times, evicted: Times, full: Times, now: int, max: nat)
    requires Tracks(pruned, full, now, max) && evicted.Keys <= pruned.Keys
    requires forall ip | ip in evicted :: evicted[ip] == pruned[ip]
    requires forall ip | ip in pruned && ip !in evicted :: Recent(pruned[ip], now) == []
    ensures Tracks(evicted, full, now, max)
  {
    forall ip, later | now <= later ensures Recent(Get(evicted, ip), later) == Recent(Get(full, ip), later) {
      assert Recent(Get(pruned, ip), later) == Recent(Get(full, ip), later);
      if ip in pruned && ip !in evicted {
        RecentOfRecent(pruned[ip], now, later);
      }
    }
  }

  lemma OnlyRecentLeft(before: Times, after: Times, now: int)
    requires forall ip :: ip in after <==> ip in before && Recent(before[ip], now) != []
    requires forall ip | ip in after :: after[ip] == before[ip]
    ensures after == map ip | ip in before && Recent(before[ip], now) != [] :: before[ip]
    ensures forall ip | ip in after :: LastMinute(after[ip], now) != {}
  {
    forall ip | ip in after ensures LastMinute(after[ip], now) != {} {
      RecentCounts(after[ip], now);
    }
  }

  class IpLimits {
    const maxHandshakes: nat
    const maxMessages: nat
    var handshakeTimes: Times
    var messageTimes: Times
    // Every accepted handshake ever; every accepted message since the IP's messages were last forgotten.
    ghost var handshakes: Times
    ghost var messages: Times
    ghost var clock: int

    ghost predicate Valid()
      reads this
    {
      Tracks(handshakeTimes, handshakes, clock, maxHandshakes) && Tracks(messageTimes, messages, clock, maxMessages)
    }

    constructor (maxHandshakes: nat, maxMessages: nat, ghost now: int)
      ensures Valid() && this.maxHandshakes == maxHandshakes && this.maxMessages == maxMessages
      ensures handshakes == map[] && messages == map[] && clock == now
    {
      this.maxHandshakes, this.maxMessages := maxHandshakes, maxMessages;
      handshakeTimes, messageTimes := map[], map[];
      handshakes, messages, clock := map[], map[], now;
    }

    /** Decides as if it had kept every accepted handshake; pruning and eviction do not show. */
    method ConsumeHandshake(ip: Ip, now: int) returns (allowed: bool)
      requires Valid() && clock <= now
      modifies this
      ensures Valid() && clock == now && messages == old(messages) && messageTimes == old(messageTimes)
      ensures allowed <==> Admits(Get(old(handshakes), ip), now, maxHandshakes)
      ensures allowed <==> |LastMinute(if ip in old(handshakes) then old(handshakes)[ip] else [], now)| < maxHandshakes
      ensures allowed && |handshakeTimes| > 10_000 ==>
        forall key | key in handshakeTimes :: LastMinute(handshakeTimes[key], now) != {}
      ensures handshakes == if allowed then old(handshakes)[ip := Get(old(handshakes), ip) + [now]] else old(handshakes)
      ensures forall from :: InWindow(Get(handshakes, ip), from) <= maxHandshakes
    {
      RecentCounts(Get(handshakes, ip), now);
      AnyWindow(handshakes, ip, maxHandshakes);
      StillTracks(handshakeTimes, handshakes, clock, now, maxHandshakes);
      StillTracks(messageTimes, messages, clock, now, maxMessages);
      clock := now;
      PrunedTracks(handshakeTimes, handshakes, now, maxHandshakes, ip);
      var recent := Recent(Get(handshakeTimes, ip), now);
      handshakeTimes := handshakeTimes[ip := recent];
      if |recent| >= maxHandshakes {
        return false;
      }
      AcceptTracks(handshakeTimes, handshakes, now, maxHandshakes, ip);
      handshakeTimes := handshakeTimes[ip := recent + [now]];
      handshakes := handshakes[ip := Get(handshakes, ip) + [now]];
      AnyWindow(handshakes, ip, maxHandshakes);
      if |handshakeTimes| > MAX_KEYS {
        Evict(now);
      }
      allowed := true;
    }

    /** Removes every key without a recent time. */
    method Evict(now: int)
      requires Valid() && clock == now
      modifies this`handshakeTimes
      ensures Valid()
      ensures handshakeTimes == map ip | ip in old(handshakeTimes) && Recent(old(handshakeTimes)[ip], now) != []
                                  :: old(handshakeTimes)[ip]
      ensures forall ip | ip in handshakeTimes :: LastMinute(handshakeTimes[ip], now) != {}
    {
      var keys := handshakeTimes.Keys;
      while keys != {}
        invariant keys <= handshakeTimes.Keys <= old(handshakeTimes).Keys
        invariant forall ip | ip in handshakeTimes :: handshakeTimes[ip] == old(handshakeTimes)[ip]
        invariant forall ip | ip in old(handshakeTimes) && ip !in keys ::
                    ip in handshakeTimes <==> Recent(old(handshakeTimes)[ip], now) != []
        decreases |keys|
      {
        var ip :| ip in keys;
        keys := keys - {ip};
        if Recent(handshakeTimes[ip], now) == [] {
          handshakeTimes := handshakeTimes - {ip};
        }
      }
      EvictTracks(old(handshakeTimes), handshakeTimes, handshakes, now, maxHandshakes);
      OnlyRecentLeft(old(handshakeTimes), handshakeTimes, now);
    }

    method ConsumeIpMessage(ip: Ip, now: int) returns (allowed: bool)
      requires Valid() && clock <= now
      modifies this
      ensures Valid() && clock == now && handshakes == old(handshakes) && handshakeTimes == old(handshakeTimes)
      ensures allowed <==> Admits(Get(old(messages), ip), now, maxMessages)
      ensures allowed <==> |LastMinute(if ip in old(messages) then old(messages)[ip] else [], now)| < maxMessages
      ensures messages == if allowed then old(messages)[ip := Get(old(messages), ip) + [now]] else old(messages)
    {
      RecentCounts(Get(messages, ip), now);
      StillTracks(handshakeTimes, handshakes, clock, now, maxHandshakes);
      StillTracks(messageTimes, messages, clock, now, maxMessages);
      clock := now;
      PrunedTracks(messageTimes, messages, now, maxMessages, ip);
      var recent := Recent(Get(messageTimes, ip), now);
      messageTimes := messageTimes[ip := recent];
      if |recent| >= maxMessages {
        return false;
      }
      AcceptTracks(messageTimes, messages, now, maxMessages, ip);
      messageTimes := messageTimes[ip := recent + [now]];
      messages := messages[ip := Get(messages, ip) + [now]];
      allowed := true;
    }

    /** The last connection of an IP is gone: its message times go too, and its budget is whole again. */
    method Disconnect(ip: Ip, hasConnections: bool)
      requires Valid()
      modifies this`messageTimes, this`messages
      ensures Valid()
      ensures messages == if hasConnections then old(messages) else old(messages) - {ip}
    {
      if !hasConnections {
        ForgetTracks(messageTimes, messages, clock, maxMessages, ip);
        messageTimes := messageTimes - {ip};
        messages := messages - {ip};
      }
    }
  }
}
