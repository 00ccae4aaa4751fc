/**
 * The heartbeat of index.js:177-193 over runs of events: each tick pings and
 * arms a 1 s death timer, a pong clears it, and a death timer that fires
 * evicts the connection for good.
 */
module Heartbeat {
  import opened Wrappers
  import opened Connection
  import opened Frames
  import opened Roster
  import opened Routing
  import opened Relay

  /** A registered, alive connection whose interval runs and which has no death timer pending. */
  predicate Healthy(s: State, c: ConnId)
  {
    c in s.clients && c in s.conns && s.conns[c].isAlive && s.conns[c].ticking && !s.conns[c].DeathPending()
  }

  /**
   * A tick pings an open connection and arms a death timer in the handle; a
   * timer the handle referred to before is not cleared and stays pending.
   */
  lemma TickArms(s: State, c: ConnId, verify: Verifier)
    requires Valid(s) && c in s.conns && s.conns[c].ticking
    ensures var t := Step(s, Tick(c), verify);
      var k, k' := s.conns[c], t.conns[c];
      && k'.deathArmed
      && k'.staleDeaths == k.staleDeaths + (if k.deathArmed then 1 else 0)
      && k' == k.(deathArmed := true, staleDeaths := k'.staleDeaths)
      && t.clients == s.clients && t.store == s.store
      && (forall d | d in s.conns && d != c :: t.conns[d] == s.conns[d])
      && t.sent == s.sent + (if c in s.clients then [Sent(c, Ping)] else [])
  {
  }

  /** A pong after a tick cancels the death timer: all that is left of the cycle is the ping. */
  lemma PongCancelsDeath(s: State, c: ConnId, verify: Verifier)
    requires Valid(s) && Healthy(s, c)
    ensures Step(Step(s, Tick(c), verify), Pong(c), verify) == s.(sent := s.sent + [Sent(c, Ping)])
  {
    var t := Step(s, Tick(c), verify);
    assert t.conns[c := t.conns[c].(deathArmed := false)] == s.conns;
  }

  /** A handshake leaves every earlier connection's record and membership as it was. */
  lemma ConnectKeepsOthers(s: State, cookie: Option<string>, verify: Verifier, c: ConnId)
    requires Valid(s) && c in s.conns
    ensures var t := AfterConnect(s, cookie, verify);
      c in t.conns && t.conns[c] == s.conns[c] && (c in s.clients ==> c in t.clients)
  {
    assert c < s.nextConn;
  }

  /** Another connection's eviction leaves c's record and membership as they were. */
  lemma DeathKeepsOthers(s: State, d: ConnId, c: ConnId)
    requires Valid(s) && d in s.conns && s.conns[d].DeathPending()
    requires c in s.conns && c != d
    ensures var t := AfterDeath(s, d);
      c in t.conns && t.conns[c] == s.conns[c] && (c in s.clients ==> c in t.clients)
  {
    assert c in s.clients ==> c in Remove(s.clients, d);
  }

  /** Every event other than a tick or a close of c leaves a healthy c healthy. */
  lemma OthersKeepHealthy(s: State, e: Event, c: ConnId, verify: Verifier)
    requires Valid(s) && Healthy(s, c)
    requires e != Tick(c) && e != Close(c)
    ensures Healthy(Step(s, e, verify), c)
  {
    if Enabled(s, e) {
      match e
      case Connect(cookie) =>
        ConnectKeepsOthers(s, cookie, verify, c);
      case Message(m, recipient, text) =>
        var t := AfterMessage(s, m, recipient, text);
        assert t.conns == s.conns && t.clients == s.clients;
      case Tick(d) =>
      case Pong(d) =>
      case DeathFire(d) =>
        DeathKeepsOthers(s, d, c);
      case Close(d) =>
    }
  }

  /**
   * The schedule answers every probe of c: each tick of c is followed at once
   * by a pong of c, and the transport never drops c.
   */
  predicate Answers(es: seq<Event>, c: ConnId)
  {
    && (forall i | 0 <= i < |es| && es[i] == Tick(c) :: i + 1 < |es| && es[i + 1] == Pong(c))
    && (forall i | 0 <= i < |es| :: es[i] != Close(c))
  }

  /** A connection that answers every probe is never evicted, however many cycles pass. */
  lemma {:induction false} AnsweringNeverEvicted(s: State, es: seq<Event>, c: ConnId, verify: Verifier)
    requires Valid(s) && Healthy(s, c)
    requires Answers(es, c)
    ensures Healthy(Run(s, es, verify), c)
    decreases |es|
  {
    if es != [] {
      if es[0] == Tick(c) {
        var u := Step(s, es[0], verify);
        var w := Step(u, es[1], verify);
        PongCancelsDeath(s, c, verify);
        assert Run(u, es[1..], verify) == Run(w, es[2..], verify) by {
          assert es[1..][0] == es[1];
          assert es[1..][1..] == es[2..];
        }
        assert Answers(es[2..], c) by {
          forall i | 0 <= i < |es[2..]| && es[2..][i] == Tick(c)
            ensures i + 1 < |es[2..]| && es[2..][i + 1] == Pong(c)
          {
            assert es[i + 2] == Tick(c);
          }
        }
        AnsweringNeverEvicted(w, es[2..], c, verify);
      } else {
        OthersKeepHealthy(s, es[0], c, verify);
        assert Answers(es[1..], c) by {
          forall i | 0 <= i < |es[1..]| && es[1..][i] == Tick(c)
            ensures i + 1 < |es[1..]| && es[1..][i + 1] == Pong(c)
          {
            assert es[i + 1] == Tick(c);
          }
        }
        AnsweringNeverEvicted(Step(s, es[0], verify), es[1..], c, verify);
      }
    }
  }

  /**
   * A registered, alive connection whose interval runs and which has no
   * overwritten death timer pending; its current timer may be armed.
   */
  predicate Safe(s: State, c: ConnId)
  {
    c in s.clients && c in s.conns && s.conns[c].isAlive && s.conns[c].ticking && s.conns[c].staleDeaths == 0
  }

  /** Whether c's death timer is armed after event e, given whether it was before. */
  function ArmedAfter(e: Event, c: ConnId, armed: bool): bool
  {
    if e == Tick(c) then true else if e == Pong(c) then false else armed
  }

  /**
   * The schedule answers every probe of c in time, whatever else happens in
   * between: a pong of c comes after each tick of c before the next tick and
   * before the death timer that tick armed comes due, and the transport never
   * drops c. c's death timer may come due at any moment when no tick is
   * awaiting its pong. `armed` says whether a tick awaits its pong at the start.
   */
  predicate InTime(es: seq<Event>, c: ConnId, armed: bool)
    decreases |es|
  {
    es == [] ||
    (&& es[0] != Close(c)
     && (es[0] == Tick(c) ==> !armed)
     && (es[0] == DeathFire(c) ==> !armed)
     && InTime(es[1..], c, ArmedAfter(es[0], c, armed)))
  }

  /**
   * One event of such a schedule keeps c registered, alive and ticking with no
   * overwritten timer, and arms or clears its timer as the tick and the pong do;
   * a death timer of c coming due while none is armed finds nothing to fire.
   */
  lemma SafeStep(s: State, e: Event, c: ConnId, verify: Verifier)
    requires Valid(s) && Safe(s, c)
    requires e != Close(c)
    requires e == Tick(c) ==> !s.conns[c].deathArmed
    requires e == DeathFire(c) ==> !s.conns[c].deathArmed
    ensures var t := Step(s, e, verify);
      Safe(t, c) && t.conns[c].deathArmed == ArmedAfter(e, c, s.conns[c].deathArmed)
  {
    if Enabled(s, e) {
      match e
      case Connect(cookie) =>
        ConnectKeepsOthers(s, cookie, verify, c);
      case Message(m, recipient, text) =>
        var t := AfterMessage(s, m, recipient, text);
        assert t.conns == s.conns && t.clients == s.clients;
      case Tick(d) =>
        var t := AfterTick(s, d);
        assert t.clients == s.clients;
      case Pong(d) =>
      case DeathFire(d) =>
        DeathKeepsOthers(s, d, c);
      case Close(d) =>
        assert c in Remove(s.clients, d);
    }
  }

  /**
   * A connection whose every probe is answered before its death timer fires
   * is never evicted, whatever other connections do in between.
   */
  lemma {:induction false} InTimeNeverEvicted(s: State, es: seq<Event>, c: ConnId, verify: Verifier)
    requires Valid(s) && Safe(s, c)
    requires InTime(es, c, s.conns[c].deathArmed)
    ensures var t := Run(s, es, verify);
      c in t.clients && t.conns[c].isAlive && t.conns[c].ticking
    decreases |es|
  {
    if es != [] {
      SafeStep(s, es[0], c, verify);
      InTimeNeverEvicted(Step(s, es[0], verify), es[1..], c, verify);
    }
  }

  /**
   * A death timer evicts: the connection is marked dead, its interval is
   * cleared so it never ticks again, it leaves the client set, and each
   * remaining client receives one presence frame without its entry.
   */
  lemma DeathEvicts(s: State, c: ConnId, verify: Verifier, d: ConnId)
    requires Valid(s) && c in s.conns && s.conns[c].DeathPending()
    ensures var t := Step(s, DeathFire(c), verify);
      && !t.conns[c].isAlive && !t.conns[c].ticking && !Enabled(t, Tick(c))
      && t.clients == Remove(s.clients, c) && c !in t.clients
      && t.conns == s.conns[c := t.conns[c]]
      && t.conns[c].PendingDeaths() + 1 == s.conns[c].PendingDeaths()
      && (s.conns[c].staleDeaths == 0 ==> !t.conns[c].DeathPending())
      && ReceivedBy(t.sent, d) == ReceivedBy(s.sent, d) +
           (if d in t.clients then [Presence(Online(t.clients, t.conns))] else [])
      && (forall i | 0 <= i < |s.clients| && s.clients[i] == c ::
            Online(t.clients, t.conns) == Online(s.clients, s.conns)[..i] + Online(s.clients, s.conns)[i + 1..])
  {
    var t := Step(s, DeathFire(c), verify);
    assert t == AfterDeath(s, c);
    var f := Presence(Online(t.clients, t.conns));
    assert t.sent == s.sent + SendAll(t.clients, f);
    assert ReceivedBy(t.sent, d) == ReceivedBy(s.sent, d) + (if d in t.clients then [f] else []) by {
      ReceivedByAppend(s.sent, SendAll(t.clients, f), d);
      ReceivedBySendAll(t.clients, f, d);
    }
    assert Online(t.clients, t.conns) == Online(t.clients, s.conns) by {
      OnlineUpdateOther(t.clients, s.conns, c, t.conns[c]);
    }
    forall i | 0 <= i < |s.clients| && s.clients[i] == c
      ensures Online(t.clients, t.conns) == Online(s.clients, s.conns)[..i] + Online(s.clients, s.conns)[i + 1..]
    {
      OnlineRemove(s.clients, i, s.conns);
    }
  }

  /** An announcement never reaches a connection outside the client set. */
  lemma AnnounceMisses(s: State, c: ConnId)
    requires NoDup(s.clients) && forall d | d in s.clients :: d in s.conns
    requires c !in s.clients
    ensures ReceivedBy(Announce(s).sent, c) == ReceivedBy(s.sent, c)
  {
    var f := Presence(Online(s.clients, s.conns));
    ReceivedByAppend(s.sent, SendAll(s.clients, f), c);
    ReceivedBySendAll(s.clients, f, c);
  }

  /** A handshake reaches only the new connection and those already in the set. */
  lemma DeadConnectQuiet(s: State, cookie: Option<string>, c: ConnId, verify: Verifier)
    requires Valid(s) && c in s.conns && !s.conns[c].isAlive
    ensures var t := AfterConnect(s, cookie, verify);
      c in t.conns && !t.conns[c].isAlive && ReceivedBy(t.sent, c) == ReceivedBy(s.sent, c)
      && t.conns[c].PendingDeaths() <= s.conns[c].PendingDeaths()
  {
    assert c < s.nextConn;
    var t := AfterConnect(s, cookie, verify);
    if t.sent != s.sent {
      var u := t.(sent := s.sent);
      assert t == Announce(u);
      AnnounceMisses(u, c);
    }
  }

  /** A delivery reaches only members of the client set. */
  lemma DeadMessageQuiet(s: State, m: ConnId, recipient: Option<string>, text: Option<string>, c: ConnId)
    requires Valid(s) && m in s.clients && c in s.conns && !s.conns[c].isAlive
    ensures var t := AfterMessage(s, m, recipient, text);
      c in t.conns && !t.conns[c].isAlive && ReceivedBy(t.sent, c) == ReceivedBy(s.sent, c)
      && t.conns[c].PendingDeaths() <= s.conns[c].PendingDeaths()
  {
    var t := AfterMessage(s, m, recipient, text);
    if t.sent != s.sent {
      var targets := Recipients(s.clients, s.conns, recipient.value);
      var f := Delivery(text.value, s.conns[m].userId, |s.store|, recipient.value);
      assert t.sent == s.sent + SendAll(targets, f);
      ReceivedByAppend(s.sent, SendAll(targets, f), c);
      ReceivedBySendAll(targets, f, c);
    }
  }

  /** Another connection's eviction announces only to the remaining set. */
  lemma DeadDeathQuiet(s: State, d: ConnId, c: ConnId)
    requires Valid(s) && d in s.conns && s.conns[d].DeathPending()
    requires c in s.conns && !s.conns[c].isAlive
    ensures var t := AfterDeath(s, d);
      c in t.conns && !t.conns[c].isAlive && ReceivedBy(t.sent, c) == ReceivedBy(s.sent, c)
      && t.conns[c].PendingDeaths() <= s.conns[c].PendingDeaths()
  {
    var k := s.conns[d];
    var fired := if k.staleDeaths > 0 then k.(staleDeaths := k.staleDeaths - 1) else k.(deathArmed := false);
    var u := s.(clients := Remove(s.clients, d), conns := s.conns[d := fired.(isAlive := false, ticking := false)]);
    assert AfterDeath(s, d) == Announce(u);
    AnnounceMisses(u, c);
  }

  /** An evicted connection is sent nothing by any event, and stays out and dead. */
  lemma DeadStepQuiet(s: State, e: Event, c: ConnId, verify: Verifier)
    requires Valid(s) && c in s.conns && !s.conns[c].isAlive
    ensures var t := Step(s, e, verify);
      c in t.conns && !t.conns[c].isAlive && ReceivedBy(t.sent, c) == ReceivedBy(s.sent, c)
      && t.conns[c].PendingDeaths() <= s.conns[c].PendingDeaths()
  {
    if Enabled(s, e) {
      match e
      case Connect(cookie) =>
        DeadConnectQuiet(s, cookie, c, verify);
      case Message(m, recipient, text) =>
        DeadMessageQuiet(s, m, recipient, text, c);
      case Tick(d) =>
        if d in s.clients {
          ReceivedByAppend(s.sent, [Sent(d, Ping)], c);
        }
      case Pong(_) =>
      case DeathFire(d) =>
        DeadDeathQuiet(s, d, c);
      case Close(_) =>
    }
  }

  /** Without the pong, the death timer a tick armed evicts the connection. */
  lemma UnansweredTickEvicts(s: State, c: ConnId, verify: Verifier)
    requires Valid(s) && Healthy(s, c)
    ensures var t := Step(Step(s, Tick(c), verify), DeathFire(c), verify);
      c !in t.clients && !t.conns[c].isAlive && !t.conns[c].ticking
  {
    var u := Step(s, Tick(c), verify);
    assert u.conns[c].deathArmed && u.clients == s.clients by {
      TickArms(s, c, verify);
    }
    DeathEvicts(u, c, verify, c);
  }

  /**
   * `isAlive` never becomes true again and the interval is never restarted:
   * after eviction no event pings, announces to or delivers to the connection.
   */
  lemma {:induction false} EvictedStaysEvicted(s: State, es: seq<Event>, c: ConnId, verify: Verifier)
    requires Valid(s) && c in s.conns && !s.conns[c].isAlive
    ensures var t := Run(s, es, verify);
      && c in t.conns && !t.conns[c].isAlive && !t.conns[c].ticking && c !in t.clients
      && !Enabled(t, Tick(c))
      && ReceivedBy(t.sent, c) == ReceivedBy(s.sent, c)
      && t.conns[c].PendingDeaths() <= s.conns[c].PendingDeaths()
      && (!s.conns[c].DeathPending() ==> !Enabled(t, DeathFire(c)))
    decreases |es|
  {
    if es != [] {
      DeadStepQuiet(s, es[0], c, verify);
      EvictedStaysEvicted(Step(s, es[0], verify), es[1..], c, verify);
    }
  }

  /** After a drop and the next tick the connection is out of the set with a death timer armed, and nothing was sent. */
  lemma DroppedThenTicked(s: State, c: ConnId, verify: Verifier)
    requires Valid(s) && Healthy(s, c)
    ensures var t := Step(Step(s, Close(c), verify), Tick(c), verify);
      t == s.(clients := Remove(s.clients, c), conns := s.conns[c := s.conns[c].(deathArmed := true)])
  {
    var u := Step(s, Close(c), verify);
    assert u == AfterClose(s, c);
    assert c !in u.clients && u.conns == s.conns;
    assert Step(u, Tick(c), verify) == AfterTick(u, c);
  }

  /** The death timer of a connection dropped and then ticked evicts it silently. */
  lemma EvictAfterDrop(s: State, s2: State, c: ConnId, i: nat, verify: Verifier, d: ConnId)
    requires Valid(s) && Healthy(s, c)
    requires i < |s.clients| && s.clients[i] == c
    requires Valid(s2)
    requires s2 == s.(clients := Remove(s.clients, c), conns := s.conns[c := s.conns[c].(deathArmed := true)])
    ensures var t := AfterDeath(s2, c);
      && c !in t.clients && t.clients == Remove(s.clients, c) && c in t.conns
      && !t.conns[c].isAlive && !t.conns[c].ticking && !t.conns[c].DeathPending()
      && ReceivedBy(t.sent, c) == ReceivedBy(s.sent, c)
      && ReceivedBy(t.sent, d) == ReceivedBy(s.sent, d) +
           (if d in t.clients then [Presence(Online(s.clients, s.conns)[..i] + Online(s.clients, s.conns)[i + 1..])] else [])
  {
    var dead := s.conns[c].(isAlive := false, ticking := false);
    var u := s2.(conns := s.conns[c := dead]);
    assert Remove(s2.clients, c) == s2.clients;
    assert s2.conns[c := dead] == s.conns[c := dead];
    assert AfterDeath(s2, c) == Announce(u);
    var snapshot := Online(s.clients, s.conns)[..i] + Online(s.clients, s.conns)[i + 1..];
    assert Online(u.clients, u.conns) == snapshot by {
      OnlineUpdateOther(u.clients, s.conns, c, dead);
      OnlineRemove(s.clients, i, s.conns);
    }
    AnnounceReachesEach(u, c);
    AnnounceReachesEach(u, d);
  }

  /**
   * A connection dropped without a close handshake is noticed by the
   * heartbeat: the next tick cannot reach it, its death timer fires, and each
   * remaining client is sent a snapshot without its entry. Nothing reaches
   * the dropped connection, and no death timer of it is left.
   */
  lemma DroppedConnectionEvicted(s: State, c: ConnId, i: nat, verify: Verifier, d: ConnId)
    requires Valid(s) && Healthy(s, c)
    requires i < |s.clients| && s.clients[i] == c
    ensures var t := Step(Step(Step(s, Close(c), verify), Tick(c), verify), DeathFire(c), verify);
      && c !in t.clients && t.clients == Remove(s.clients, c) && c in t.conns
      && !t.conns[c].isAlive && !t.conns[c].ticking && !t.conns[c].DeathPending()
      && ReceivedBy(t.sent, c) == ReceivedBy(s.sent, c)
      && ReceivedBy(t.sent, d) == ReceivedBy(s.sent, d) +
           (if d in t.clients then [Presence(Online(s.clients, s.conns)[..i] + Online(s.clients, s.conns)[i + 1..])] else [])
  {
    var s2 := Step(Step(s, Close(c), verify), Tick(c), verify);
    DroppedThenTicked(s, c, verify);
    EvictAfterDrop(s, s2, c, i, verify, d);
    assert Step(s2, DeathFire(c), verify) == AfterDeath(s2, c);
  }

}
