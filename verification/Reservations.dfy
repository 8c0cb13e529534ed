/**
 Connection reservations per IP: taken before the await of the authentication, given back when it
 fails or when the connection ends, whatever other sockets do in between.
 */
module Reservations {
  type Ip = string
  type SocketId = nat

  // Where a socket's middleware call is, and whether it still holds the place it took.
  datatype Stage =
    | Authenticating(ip: Ip, reserved: bool)
    | Accepted(ip: Ip, reserved: bool)
    | Rejected(ip: Ip, reserved: bool)

  datatype Answer = Waiting | LimitExceeded | NoToken | Next | Refused

  type Counts = map<Ip, nat>
  type Sockets = map<SocketId, Stage>

  function CountOf(counts: Counts, ip: Ip): nat {
    if ip in counts then counts[ip] else 0
  }

  // Sockets of this IP that hold a place.
  function Holders(sockets: Sockets, ip: Ip): set<SocketId> {
    set s | s in sockets && sockets[s].ip == ip && sockets[s].reserved
  }

  // What one synchronous stretch of the code may do to the two.
  datatype Event =
    | Arrive(s: SocketId, ip: Ip, hasToken: bool)   // up to the await
    | Resume(s: SocketId, valid: bool)              // after it
    | Release(s: SocketId)                          // releaseIpReservation, however often

  predicate Possible(sockets: Sockets, e: Event) {
    match e
    case Arrive(s, _, _) => s !in sockets
    case Resume(s, _) => s in sockets && sockets[s].Authenticating?
    case Release(s) => s in sockets && sockets[s].Accepted?
  }

  function Decrement(counts: Counts, ip: Ip): Counts {
    var held: int := if ip in counts then counts[ip] else 1;
    if held > 1 then counts[ip := held - 1] else counts - {ip}
  }

  function Freed(counts: Counts, stage: Stage): Counts {
    if stage.reserved then Decrement(counts, stage.ip) else counts
  }

  function After(limit: nat, counts: Counts, sockets: Sockets, e: Event): (Counts, Sockets)
    requires Possible(sockets, e)
  {
    match e
    case Arrive(s, ip, hasToken) =>
      if CountOf(counts, ip) >= limit || !hasToken then (counts, sockets)
      else (counts[ip := CountOf(counts, ip) + 1], sockets[s := Authenticating(ip, true)])
    case Resume(s, valid) =>
      if valid then (counts, sockets[s := Accepted(sockets[s].ip, sockets[s].reserved)])
      else (Freed(counts, sockets[s]), sockets[s := Rejected(sockets[s].ip, false)])
    case Release(s) => (Freed(counts, sockets[s]), sockets[s := Accepted(sockets[s].ip, false)])
  }

  ghost predicate Balanced(limit: nat, counts: Counts, sockets: Sockets) {
    && (forall ip :: CountOf(counts, ip) == |Holders(sockets, ip)| <= limit)
    && (forall ip :: ip in counts <==> |Holders(sockets, ip)| > 0)
  }

  lemma HoldersChange(sockets: Sockets, s: SocketId, stage: Stage, ip: Ip)
    requires s in sockets ==> sockets[s].ip == stage.ip
    ensures var h, h' := Holders(sockets, ip), Holders(sockets[s := stage], ip);
            h' == if ip == stage.ip then (if stage.reserved then h + {s} else h - {s}) else h
  {
  }

  // A place taken, given back, or kept under another stage.
  lemma TakenBalanced(limit: nat, counts: Counts, sockets: Sockets, s: SocketId, ip: Ip)
    requires Balanced(limit, counts, sockets) && s !in sockets && CountOf(counts, ip) < limit
    ensures Balanced(limit, counts[ip := CountOf(counts, ip) + 1], sockets[s := Authenticating(ip, true)])
  {
    var stage := Authenticating(ip, true);
    var c := counts[ip := CountOf(counts, ip) + 1];
    forall k ensures CountOf(c, k) == |Holders(sockets[s := stage], k)| <= limit
                     && (k in c <==> |Holders(sockets[s := stage], k)| > 0) {
      HoldersChange(sockets, s, stage, k);
    }
  }

  lemma FreedBalanced(limit: nat, counts: Counts, sockets: Sockets, s: SocketId, stage: Stage)
    requires Balanced(limit, counts, sockets) && s in sockets && stage.ip == sockets[s].ip && !stage.reserved
    ensures Balanced(limit, Freed(counts, sockets[s]), sockets[s := stage])
  {
    if !sockets[s].reserved {
      KeptBalanced(limit, counts, sockets, s, stage);
    } else {
      var h := Holders(sockets, stage.ip);
      assert s in h && |h - {s}| == |h| - 1;
      var c, m := Decrement(counts, stage.ip), sockets[s := stage];
      assert CountOf(counts, stage.ip) == |h|;
      forall k ensures CountOf(c, k) == |Holders(m, k)| <= limit && (k in c <==> |Holders(m, k)| > 0) {
        HoldersChange(sockets, s, stage, k);
        assert k != stage.ip ==> CountOf(c, k) == CountOf(counts, k);
      }
    }
  }

  lemma KeptBalanced(limit: nat, counts: Counts, sockets: Sockets, s: SocketId, stage: Stage)
    requires Balanced(limit, counts, sockets) && s in sockets
    requires stage.ip == sockets[s].ip && stage.reserved == sockets[s].reserved
    ensures Balanced(limit, counts, sockets[s := stage])
  {
    forall k ensures Holders(sockets[s := stage], k) == Holders(sockets, k) {
    }
  }

  lemma BalancedStep(limit: nat, counts: Counts, sockets: Sockets, e: Event)
    requires Balanced(limit, counts, sockets) && Possible(sockets, e)
    ensures var (c, m) := After(limit, counts, sockets, e); Balanced(limit, c, m)
  {
    match e
    case Arrive(s, ip, hasToken) =>
      if CountOf(counts, ip) < limit && hasToken { TakenBalanced(limit, counts, sockets, s, ip); }
    case Resume(s, valid) =>
      if valid { KeptBalanced(limit, counts, sockets, s, Accepted(sockets[s].ip, sockets[s].reserved)); }
      else { FreedBalanced(limit, counts, sockets, s, Rejected(sockets[s].ip, false)); }
    case Release(s) => FreedBalanced(limit, counts, sockets, s, Accepted(sockets[s].ip, false));
  }

  datatype Run = Begin | Then(before: Run, event: Event)

  ghost predicate Legal(limit: nat, run: Run)
    decreases run, 0
  {
    run.Then? ==> Legal(limit, run.before) && Possible(State(limit, run.before).1, run.event)
  }

  ghost function State(limit: nat, run: Run): (Counts, Sockets)
    requires Legal(limit, run)
    decreases run, 1
  {
    if run.Begin? then (map[], map[])
    else var (counts, sockets) := State(limit, run.before); After(limit, counts, sockets, run.event)
  }

  /** Over every interleaving an IP's count is its places taken and not given back: within the limit, absent at zero. */
  lemma {:induction false} PlacesAreConserved(limit: nat, run: Run)
    requires Legal(limit, run)
    ensures Balanced(limit, State(limit, run).0, State(limit, run).1)
  {
    if run.Then? {
      PlacesAreConserved(limit, run.before);
      BalancedStep(limit, State(limit, run.before).0, State(limit, run.before).1, run.event);
    } else {
      assert forall ip :: Holders(map[], ip) == {};
    }
  }

  // By the events so far: admitted, and neither refused nor released since.
  ghost predicate KeepsPlace(limit: nat, run: Run, s: SocketId)
    requires Legal(limit, run)
  {
    run.Then?
    && match run.event
       case Arrive(x, ip, hasToken) =>
         if x != s then KeepsPlace(limit, run.before, s)
         else hasToken && CountOf(State(limit, run.before).0, ip) < limit
       case Resume(x, valid) => KeepsPlace(limit, run.before, s) && (x == s ==> valid)
       case Release(x) => x != s && KeepsPlace(limit, run.before, s)
  }

  /** A place is held from admission until the socket is refused or released, and no longer. */
  lemma {:induction false} HoldersKeepPlaces(limit: nat, run: Run, s: SocketId)
    requires Legal(limit, run)
    ensures var sockets := State(limit, run).1; (s in sockets && sockets[s].reserved) <==> KeepsPlace(limit, run, s)
  {
    if run.Then? {
      HoldersKeepPlaces(limit, run.before, s);
    }
  }

  /** Giving a place back twice is giving it back once. */
  lemma SecondReleaseDoesNothing(limit: nat, counts: Counts, sockets: Sockets, s: SocketId)
    requires Possible(sockets, Release(s))
    ensures var (c, m) := After(limit, counts, sockets, Release(s));
            Possible(m, Release(s)) && After(limit, c, m, Release(s)) == (c, m)
  {
    var (c, m) := After(limit, counts, sockets, Release(s));
    assert m[s := Accepted(m[s].ip, false)] == m;
  }

  class ConnectionCounts {
    const limit: nat
    var counts: Counts
    var sockets: Sockets

    ghost predicate Valid()
      reads this
    {
      Balanced(limit, counts, sockets)
    }

    constructor (limit: nat)
      ensures Valid() && counts == map[] && sockets == map[] && this.limit == limit
    {
      this.limit, counts, sockets := limit, map[], map[];
      new;
      assert forall ip :: Holders(map[], ip) == {};
    }

    /** Up to the await: over the limit, no token, or a place reserved. */
    method Admit(s: SocketId, ip: Ip, hasToken: bool) returns (answer: Answer)
      requires Valid() && s !in sockets
      modifies this
      ensures Valid() && (counts, sockets) == After(limit, old(counts), old(sockets), Arrive(s, ip, hasToken))
      ensures answer.LimitExceeded? <==> |Holders(old(sockets), ip)| == limit
      ensures answer.Waiting? <==> s in Holders(sockets, ip)
      ensures answer.NoToken? <==> !answer.LimitExceeded? && !hasToken
      ensures answer.LimitExceeded? || answer.NoToken? || answer.Waiting?
      ensures !answer.Waiting? ==> counts == old(counts) && sockets == old(sockets)
      ensures answer.Waiting? ==> counts == old(counts)[ip := (if ip in old(counts) then old(counts)[ip] else 0) + 1]
    {
      BalancedStep(limit, counts, sockets, Arrive(s, ip, hasToken));
      if (if ip in counts then counts[ip] else 0) >= limit {
        return LimitExceeded;
      }
      if !hasToken {
        return NoToken;
      }
      counts := counts[ip := (if ip in counts then counts[ip] else 0) + 1];
      sockets := sockets[s := Authenticating(ip, true)];
      answer := Waiting;
    }

    method GiveBack(s: SocketId)
      requires s in sockets
      modifies this
      ensures counts == Freed(old(counts), old(sockets)[s])
      ensures sockets == old(sockets)[s := old(sockets)[s].(reserved := false)]
    {
      if !sockets[s].reserved {
        assert sockets[s := sockets[s].(reserved := false)] == sockets;
        return;
      }
      var ip := sockets[s].ip;
      sockets := sockets[s := sockets[s].(reserved := false)];
      var held: int := if ip in counts then counts[ip] else 1;
      if held > 1 {
        counts := counts[ip := held - 1];
      } else {
        counts := counts - {ip};
      }
    }

    /** After the await: an accepted socket keeps its place, any other gives it back. */
    method Authenticated(s: SocketId, valid: bool) returns (answer: Answer)
      requires Valid() && s in sockets && sockets[s].Authenticating?
      modifies this
      ensures Valid() && (counts, sockets) == After(limit, old(counts), old(sockets), Resume(s, valid))
      ensures answer == if valid then Next else Refused
      ensures valid ==> counts == old(counts) && forall ip :: Holders(sockets, ip) == Holders(old(sockets), ip)
      ensures !valid ==> forall ip :: Holders(sockets, ip) == Holders(old(sockets), ip) - {s}
    {
      BalancedStep(limit, counts, sockets, Resume(s, valid));
      if valid {
        sockets := sockets[s := Accepted(sockets[s].ip, sockets[s].reserved)];
        return Next;
      }
      ghost var was := sockets;
      GiveBack(s);
      sockets := sockets[s := Rejected(sockets[s].ip, false)];
      assert sockets == was[s := Rejected(was[s].ip, false)];
      answer := Refused;
    }

    method ReleaseIpReservation(s: SocketId)
      requires Valid() && s in sockets && sockets[s].Accepted?
      modifies this
      ensures Valid() && (counts, sockets) == After(limit, old(counts), old(sockets), Release(s))
      ensures forall ip :: Holders(sockets, ip) == Holders(old(sockets), ip) - {s}
    {
      BalancedStep(limit, counts, sockets, Release(s));
      GiveBack(s);
    }
  }
}
