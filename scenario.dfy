/**
 * A worked run: alice and bob connect and alice writes to bob; then bob's
 * transport drops and the heartbeat evicts him.
 */
module Scenario {
  import opened Wrappers
  import opened Connection
  import opened Frames
  import opened Roster
  import opened Routing
  import opened Relay
  import Cookie
  import Heartbeat

  const Alice := Entry(Some("alice"), Some("Alice"))
  const Bob := Entry(Some("bob"), Some("Bob"))

  /** A cookie holding only a token yields that token. */
  lemma TokenOnly(v: string)
    requires v != [] && '=' !in v && ';' !in v
    ensures Cookie.TokenOf(Some(Cookie.TokenPrefix + v)) == Some(v)
  {
    var segment := Cookie.TokenPrefix + v;
    assert segment + [] == segment;
    assert segment[|Cookie.TokenPrefix|..] == v;
    Cookie.TokenInLeadingSegment(segment, []);
    Cookie.SplitTokenSegment(segment);
    Cookie.SplitWhole(v, '=');
  }

  /** Connecting with a cookie whose token verifies binds the claims and announces to all. */
  lemma ConnectAs(s: State, cookie: string, v: string, claims: Claims, verify: Verifier, d: ConnId)
    requires Valid(s) && v != [] && '=' !in v && ';' !in v
    requires cookie == Cookie.TokenPrefix + v && verify(v) == Some(claims)
    ensures var t := Step(s, Connect(Some(cookie)), verify);
      && t.clients == s.clients + [s.nextConn] && t.nextConn == s.nextConn + 1 && t.store == s.store
      && t.conns == s.conns[s.nextConn := Conn(claims.userId, claims.username, true, true, false, 0, true)]
      && ReceivedBy(t.sent, d) == ReceivedBy(s.sent, d) +
           (if d in t.clients then [Presence(Online(s.clients, s.conns) + [Entry(claims.userId, claims.username)])] else [])
  {
    TokenOnly(v);
    ConnectRegisters(s, Some(cookie), verify);
    ConnectBinds(s, Some(cookie), verify);
    ConnectAnnounces(s, Some(cookie), verify, d);
  }

  const AliceConn := Conn(Some("alice"), Some("Alice"), true, true, false, 0, true)
  const BobConn := Conn(Some("bob"), Some("Bob"), true, true, false, 0, true)

  /** Alice connects to an empty server and is told she is online. */
  lemma AliceConnects(s0: State, cookie: string, verify: Verifier)
    requires s0 == Init() && cookie == Cookie.TokenPrefix + "A"
    requires verify("A") == Some(Claims(Some("alice"), Some("Alice")))
    ensures var s1 := Step(s0, Connect(Some(cookie)), verify);
      && s1.clients == [0] && s1.nextConn == 1 && s1.store == [] && s1.conns == map[0 := AliceConn]
      && ReceivedBy(s1.sent, 0) == [Presence([Alice])] && ReceivedBy(s1.sent, 1) == []
  {
    var t := Step(s0, Connect(Some(cookie)), verify);
    ConnectAs(s0, cookie, "A", Claims(Some("alice"), Some("Alice")), verify, 0);
    ConnectAs(s0, cookie, "A", Claims(Some("alice"), Some("Alice")), verify, 1);
    assert t.clients == [0];
    assert Online(s0.clients, s0.conns) == [] && ReceivedBy(s0.sent, 0) == [] && ReceivedBy(s0.sent, 1) == [];
    assert ReceivedBy(t.sent, 0) == [] + [Presence([] + [Alice])];
    assert [] + [Alice] == [Alice];
  }

  /** Bob connects next; both are told that both are online. */
  lemma BobConnects(s1: State, cookie: string, verify: Verifier)
    requires Valid(s1) && cookie == Cookie.TokenPrefix + "B"
    requires s1.clients == [0] && s1.nextConn == 1 && s1.store == [] && s1.conns == map[0 := AliceConn]
    requires ReceivedBy(s1.sent, 0) == [Presence([Alice])] && ReceivedBy(s1.sent, 1) == []
    requires verify("B") == Some(Claims(Some("bob"), Some("Bob")))
    ensures var s2 := Step(s1, Connect(Some(cookie)), verify);
      && s2.clients == [0, 1] && s2.store == [] && s2.conns == map[0 := AliceConn, 1 := BobConn]
      && ReceivedBy(s2.sent, 0) == [Presence([Alice]), Presence([Alice, Bob])]
      && ReceivedBy(s2.sent, 1) == [Presence([Alice, Bob])]
  {
    var t := Step(s1, Connect(Some(cookie)), verify);
    var p := Presence([Alice] + [Bob]);
    assert Online(s1.clients, s1.conns) == [Alice];
    assert t.clients == [0, 1] && t.store == [] && t.conns == map[0 := AliceConn, 1 := BobConn] by {
      ConnectAs(s1, cookie, "B", Claims(Some("bob"), Some("Bob")), verify, 0);
    }
    assert ReceivedBy(t.sent, 0) == ReceivedBy(s1.sent, 0) + [p] by {
      ConnectAs(s1, cookie, "B", Claims(Some("bob"), Some("Bob")), verify, 0);
    }
    assert ReceivedBy(t.sent, 1) == ReceivedBy(s1.sent, 1) + [p] by {
      ConnectAs(s1, cookie, "B", Claims(Some("bob"), Some("Bob")), verify, 1);
    }
    assert [Alice] + [Bob] == [Alice, Bob];
  }

  /** Alice writes to bob: one record is stored and only bob's connection gets the delivery. */
  lemma AliceWritesHi(s2: State, verify: Verifier)
    requires Valid(s2)
    requires s2.clients == [0, 1] && s2.store == [] && s2.conns == map[0 := AliceConn, 1 := BobConn]
    requires ReceivedBy(s2.sent, 0) == [Presence([Alice]), Presence([Alice, Bob])]
    requires ReceivedBy(s2.sent, 1) == [Presence([Alice, Bob])]
    ensures var s3 := Step(s2, Message(0, Some("bob"), Some("hi")), verify);
      && s3.clients == [0, 1]
      && s3.store == [Record(Some("alice"), "bob", "hi")]
      && ReceivedBy(s3.sent, 0) == [Presence([Alice]), Presence([Alice, Bob])]
      && ReceivedBy(s3.sent, 1) == [Presence([Alice, Bob]), Delivery("hi", Some("alice"), 0, "bob")]
  {
    MessagePersists(s2, 0, Some("bob"), Some("hi"), verify);
    MessageRoutes(s2, 0, Some("bob"), Some("hi"), verify, 0);
    MessageRoutes(s2, 0, Some("bob"), Some("hi"), verify, 1);
  }

  /**
   * Two users connect, both see both online, and a message from alice to bob
   * is stored once and delivered to bob only, carrying the stored record's id.
   */
  lemma AliceWritesToBob(s0: State, verify: Verifier)
    requires s0 == Init()
    requires verify("A") == Some(Claims(Some("alice"), Some("Alice")))
    requires verify("B") == Some(Claims(Some("bob"), Some("Bob")))
    ensures var s1 := Step(s0, Connect(Some("token=A")), verify);
      var s2 := Step(s1, Connect(Some("token=B")), verify);
      var s3 := Step(s2, Message(0, Some("bob"), Some("hi")), verify);
      && s3.clients == [0, 1]
      && s3.store == [Record(Some("alice"), "bob", "hi")]
      && ReceivedBy(s3.sent, 0) == [Presence([Alice]), Presence([Alice, Bob])]
      && ReceivedBy(s3.sent, 1) == [Presence([Alice, Bob]), Delivery("hi", Some("alice"), 0, "bob")]
  {
    assert Cookie.TokenPrefix + "A" == "token=A";
    assert Cookie.TokenPrefix + "B" == "token=B";
    var s1 := Step(s0, Connect(Some("token=A")), verify);
    AliceConnects(s0, "token=A", verify);
    var s2 := Step(s1, Connect(Some("token=B")), verify);
    BobConnects(s1, "token=B", verify);
    AliceWritesHi(s2, verify);
  }

  /**
   * Bob's transport drops: his next tick reaches no one, his death timer
   * fires, and alice alone is told that only she is online. Bob receives
   * nothing more.
   */
  lemma BobDropsOut(s3: State, verify: Verifier)
    requires Valid(s3)
    requires s3.clients == [0, 1] && s3.conns == map[0 := AliceConn, 1 := BobConn]
    ensures var t := Step(Step(Step(s3, Close(1), verify), Tick(1), verify), DeathFire(1), verify);
      && t.clients == [0] && !t.conns[1].isAlive && !t.conns[1].DeathPending()
      && ReceivedBy(t.sent, 0) == ReceivedBy(s3.sent, 0) + [Presence([Alice])]
      && ReceivedBy(t.sent, 1) == ReceivedBy(s3.sent, 1)
  {
    assert Online(s3.clients, s3.conns) == [Alice, Bob];
    assert [Alice, Bob][..1] + [Alice, Bob][2..] == [Alice];
    RemoveAt(s3.clients, 1);
    assert s3.clients[..1] + s3.clients[2..] == [0];
    Heartbeat.DroppedConnectionEvicted(s3, 1, 1, verify, 0);
    Heartbeat.DroppedConnectionEvicted(s3, 1, 1, verify, 1);
  }
}
