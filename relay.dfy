/**
 * The connection handler of index.js:160-242 as an event system. The state is
 * the server's client set (`wsServer.clients`, in insertion order), the record
 * of every connection ever accepted (its timers outlive its removal from the
 * set), the message store and the log of frames sent. Each event runs to
 * completion before the next, as callbacks do on Node's event loop.
 */
module Relay {
  import opened Wrappers
  import opened Connection
  import opened Frames
  import opened Roster
  import opened Routing
  import Cookie

  datatype State = State(
    clients: seq<ConnId>,
    conns: map<ConnId, Conn>,
    nextConn: ConnId,
    store: seq<Record>,
    sent: seq<Sent>)

  /** A server with no connection, no stored message and nothing sent. */
  function Init(): (s: State)
    ensures Valid(s)
  {
    State([], map[], 0, [], [])
  }

  ghost predicate Valid(s: State)
  {
    && NoDup(s.clients)
    && (forall c | c in s.clients :: c in s.conns)
    && (forall c | c in s.conns :: c < s.nextConn)
    && (forall c | c in s.conns && !s.conns[c].isAlive :: !s.conns[c].ticking && c !in s.clients)
  }

  datatype Event =
    | Connect(cookie: Option<string>)                                   // transport accepts a handshake
    | Message(conn: ConnId, recipient: Option<string>, text: Option<string>)  // a decoded inbound frame
    | Tick(conn: ConnId)                                                // the 5 s interval fires
    | Pong(conn: ConnId)                                                // a pong arrives
    | DeathFire(conn: ConnId)                                           // a 1 s death timer fires
    | Close(conn: ConnId)                                               // the transport drops the connection

  /**
   * Whether the event can happen at all: a timer fires only while it is
   * pending, and only an open connection delivers frames, pongs or a close.
   */
  predicate Enabled(s: State, e: Event)
  {
    match e
    case Connect(_) => true
    case Message(c, _, _) => c in s.clients && c in s.conns
    case Tick(c) => c in s.conns && s.conns[c].ticking
    case Pong(c) => c in s.clients && c in s.conns
    case DeathFire(c) => c in s.conns && s.conns[c].DeathPending()
    case Close(c) => c in s.clients
  }

  /** `notifyAboutOnlinePeople()`: every client is sent the current snapshot. */
  function Announce(s: State): (t: State)
    requires forall c | c in s.clients :: c in s.conns
    ensures t.clients == s.clients && t.conns == s.conns && t.nextConn == s.nextConn && t.store == s.store
    ensures |t.sent| == |s.sent| + |s.clients| && t.sent[..|s.sent|] == s.sent
  {
    s.(sent := s.sent + SendAll(s.clients, Presence(Online(s.clients, s.conns))))
  }

  /**
   * Every client receives exactly one copy of the current snapshot, and no
   * connection outside the set receives anything.
   */
  lemma AnnounceReachesEach(s: State, d: ConnId)
    requires NoDup(s.clients) && forall c | c in s.clients :: c in s.conns
    ensures ReceivedBy(Announce(s).sent, d) ==
      ReceivedBy(s.sent, d) + (if d in s.clients then [Presence(Online(s.clients, s.conns))] else [])
  {
    var f := Presence(Online(s.clients, s.conns));
    ReceivedByAppend(s.sent, SendAll(s.clients, f), d);
    ReceivedBySendAll(s.clients, f, d);
  }

  /**
   * A handshake (index.js:177-210, 240): the transport registers the
   * connection, the handler marks it alive, starts its interval, binds the
   * token's claims, attaches the message listener and announces. When
   * `jwt.verify` throws, the handler stops there: no listener, no announcement.
   */
  function AfterConnect(s: State, cookie: Option<string>, verify: Verifier): (t: State)
    requires Valid(s)
    ensures Valid(t)
  {
    var id := s.nextConn;
    assert id !in s.clients && id !in s.conns;
    var joined := s.(clients := s.clients + [id], conns := s.conns[id := Accepted()], nextConn := id + 1);
    var token := Cookie.TokenOf(cookie);
    if token.None? then
      Announce(joined.(conns := s.conns[id := Accepted().(listening := true)]))
    else
      match verify(token.value)
      case None => joined
      case Some(claims) =>
        var bound := Accepted().(userId := claims.userId, username := claims.username);
        Announce(joined.(conns := s.conns[id := bound.(listening := true)]))
  }

  /**
   * An inbound frame (index.js:212-237): dropped unless the listener is
   * attached and both fields are truthy; otherwise stored once and delivered
   * to every client bound to the recipient.
   */
  function AfterMessage(s: State, c: ConnId, recipient: Option<string>, text: Option<string>): (t: State)
    requires Valid(s) && c in s.clients
    ensures Valid(t)
  {
    var k := s.conns[c];
    if !k.listening || !Accepts(recipient, text) then s
    else
      var id := |s.store|;
      var delivery := Delivery(text.value, k.userId, id, recipient.value);
      s.(store := s.store + [Record(k.userId, recipient.value, text.value)],
         sent := s.sent + SendAll(Recipients(s.clients, s.conns, recipient.value), delivery))
  }

  /**
   * The interval callback (index.js:179-188): ping, then arm a death timer and
   * overwrite `connection.deathTimer`; a timer the old handle still referred
   * to stays pending. A closed transport takes no ping.
   */
  function AfterTick(s: State, c: ConnId): (t: State)
    requires Valid(s) && c in s.conns && s.conns[c].ticking
    ensures Valid(t)
  {
    var k := s.conns[c];
    var armed := k.(deathArmed := true, staleDeaths := if k.deathArmed then k.staleDeaths + 1 else k.staleDeaths);
    s.(conns := s.conns[c := armed],
       sent := if c in s.clients then s.sent + [Sent(c, Ping)] else s.sent)
  }

  /** The pong listener (index.js:191-193): `clearTimeout(connection.deathTimer)`. */
  function AfterPong(s: State, c: ConnId): (t: State)
    requires Valid(s) && c in s.conns
    ensures Valid(t)
  {
    s.(conns := s.conns[c := s.conns[c].(deathArmed := false)])
  }

  /**
   * A death timer fires (index.js:181-186). Timers of equal delay fire in the
   * order they were armed, so an overwritten one fires before the current one.
   * The connection is marked dead, its interval cleared, it is terminated
   * (taken out of the client set) and the remaining clients are told.
   */
  function AfterDeath(s: State, c: ConnId): (t: State)
    requires Valid(s) && c in s.conns && s.conns[c].DeathPending()
    ensures Valid(t)
  {
    var k := s.conns[c];
    var fired := if k.staleDeaths > 0 then k.(staleDeaths := k.staleDeaths - 1) else k.(deathArmed := false);
    Announce(s.(clients := Remove(s.clients, c), conns := s.conns[c := fired.(isAlive := false, ticking := false)]))
  }

  /**
   * The transport drops the connection from the client set. No handler of
   * index.js runs: nothing is sent and the interval keeps running.
   */
  function AfterClose(s: State, c: ConnId): (t: State)
    requires Valid(s)
    ensures Valid(t)
    ensures c !in t.clients && forall d :: d in t.clients <==> d in s.clients && d != c
    ensures t.conns == s.conns && t.sent == s.sent && t.store == s.store
  {
    s.(clients := Remove(s.clients, c))
  }

  /** One event; an event that cannot happen in this state changes nothing. */
  function Step(s: State, e: Event, verify: Verifier): (t: State)
    requires Valid(s)
    ensures Valid(t)
  {
    if !Enabled(s, e) then s
    else
      match e
      case Connect(cookie) => AfterConnect(s, cookie, verify)
      case Message(c, recipient, text) => AfterMessage(s, c, recipient, text)
      case Tick(c) => AfterTick(s, c)
      case Pong(c) => AfterPong(s, c)
      case DeathFire(c) => AfterDeath(s, c)
      case Close(c) => AfterClose(s, c)
  }

  /** A run of events from a well-formed state. */
  function Run(s: State, es: seq<Event>, verify: Verifier): (t: State)
    requires Valid(s)
    ensures Valid(t)
    decreases |es|
  {
    if es == [] then s else Run(Step(s, es[0], verify), es[1..], verify)
  }

  /** The handshake registers a fresh, alive, ticking connection last in the client set. */
  lemma ConnectRegisters(s: State, cookie: Option<string>, verify: Verifier)
    requires Valid(s)
    ensures var t := Step(s, Connect(cookie), verify);
      && s.nextConn !in s.conns
      && t.clients == s.clients + [s.nextConn]
      && t.conns.Keys == s.conns.Keys + {s.nextConn}
      && (forall c | c in s.conns :: t.conns[c] == s.conns[c])
      && t.conns[s.nextConn].isAlive && t.conns[s.nextConn].ticking
      && !t.conns[s.nextConn].DeathPending()
      && t.store == s.store
  {
  }

  /**
   * Identity binding: the claims of the cookie's token when it verifies, none
   * without a token; a token that fails verification leaves the message
   * listener unattached.
   */
  lemma ConnectBinds(s: State, cookie: Option<string>, verify: Verifier)
    requires Valid(s)
    ensures var k := Step(s, Connect(cookie), verify).conns[s.nextConn];
      var token := Cookie.TokenOf(cookie);
      && (token.None? ==> k.userId.None? && k.username.None? && k.listening)
      && (token.Some? && verify(token.value).Some? ==>
            k.userId == verify(token.value).value.userId &&
            k.username == verify(token.value).value.username && k.listening)
      && (token.Some? && verify(token.value).None? ==> k.userId.None? && k.username.None? && !k.listening)
  {
  }

  /**
   * The announcement after a handshake: unless verification threw, every
   * client, the newcomer included, receives exactly one presence frame, which
   * lists the previous clients and then the newcomer with its bound identity;
   * no one else receives anything.
   */
  lemma ConnectAnnounces(s: State, cookie: Option<string>, verify: Verifier, d: ConnId)
    requires Valid(s)
    ensures var t := Step(s, Connect(cookie), verify);
      var token := Cookie.TokenOf(cookie);
      var announced := token.None? || verify(token.value).Some?;
      && ReceivedBy(t.sent, d) == ReceivedBy(s.sent, d) +
           (if announced && d in t.clients then [Presence(Online(t.clients, t.conns))] else [])
      && Online(t.clients, t.conns) == Online(s.clients, s.conns) + [EntryOf(t.conns[s.nextConn])]
  {
    var t := Step(s, Connect(cookie), verify);
    var id := s.nextConn;
    assert id !in s.clients;
    OnlineUpdateOther(s.clients, s.conns, id, t.conns[id]);
    OnlineAppend(s.clients, id, t.conns);
    var token := Cookie.TokenOf(cookie);
    if token.None? || verify(token.value).Some? {
      var f := Presence(Online(t.clients, t.conns));
      assert t.sent == s.sent + SendAll(t.clients, f);
      ReceivedByAppend(s.sent, SendAll(t.clients, f), d);
      ReceivedBySendAll(t.clients, f, d);
    }
  }

  /**
   * The frame guard: a message changes nothing exactly when the listener is
   * missing or the recipient or the text is absent or empty.
   */
  lemma MessageGuard(s: State, c: ConnId, recipient: Option<string>, text: Option<string>, verify: Verifier)
    requires Valid(s) && c in s.clients
    ensures Step(s, Message(c, recipient, text), verify) == s
        <==> !(s.conns[c].listening && Accepts(recipient, text))
  {
    var t := Step(s, Message(c, recipient, text), verify);
    if s.conns[c].listening && Accepts(recipient, text) {
      assert |t.store| == |s.store| + 1;
    }
  }

  /**
   * Persistence: an accepted message adds exactly one record, whose sender is
   * the sending connection's user id (absent for an anonymous sender); the
   * registry is untouched.
   */
  lemma MessagePersists(s: State, c: ConnId, recipient: Option<string>, text: Option<string>, verify: Verifier)
    requires Valid(s) && c in s.clients
    requires s.conns[c].listening && Accepts(recipient, text)
    ensures var t := Step(s, Message(c, recipient, text), verify);
      && t.store == s.store + [Record(s.conns[c].userId, recipient.value, text.value)]
      && t.clients == s.clients && t.conns == s.conns
  {
  }

  /**
   * Routing: exactly the clients bound to the recipient receive one delivery
   * each, carrying the new record's id; every other connection receives
   * nothing.
   */
  lemma MessageRoutes(s: State, c: ConnId, recipient: Option<string>, text: Option<string>, verify: Verifier, d: ConnId)
    requires Valid(s) && c in s.clients
    requires s.conns[c].listening && Accepts(recipient, text)
    ensures var t := Step(s, Message(c, recipient, text), verify);
      ReceivedBy(t.sent, d) == ReceivedBy(s.sent, d) +
        (if d in s.clients && s.conns[d].userId == recipient
         then [Delivery(text.value, s.conns[c].userId, |s.store|, recipient.value)]
         else [])
  {
    var targets := Recipients(s.clients, s.conns, recipient.value);
    var f := Delivery(text.value, s.conns[c].userId, |s.store|, recipient.value);
    ReceivedByAppend(s.sent, SendAll(targets, f), d);
    ReceivedBySendAll(targets, f, d);
  }

  /** The sender is sent its own message only when it is bound to the recipient's id. */
  lemma SenderCopy(s: State, c: ConnId, recipient: Option<string>, text: Option<string>, verify: Verifier)
    requires Valid(s) && c in s.clients
    requires s.conns[c].listening && Accepts(recipient, text)
    ensures var t := Step(s, Message(c, recipient, text), verify);
      |ReceivedBy(t.sent, c)| == |ReceivedBy(s.sent, c)| + (if s.conns[c].userId == recipient then 1 else 0)
  {
    MessageRoutes(s, c, recipient, text, verify, c);
  }

  /** A transport close only takes the connection out of the set: nothing is sent, the timers keep going. */
  lemma CloseIsSilent(s: State, c: ConnId, verify: Verifier)
    requires Valid(s) && c in s.clients
    ensures var t := Step(s, Close(c), verify);
      && t.clients == Remove(s.clients, c) && c !in t.clients
      && t.conns == s.conns && t.sent == s.sent && t.store == s.store
  {
  }

  /** One event only appends: the output log and the store keep their old contents as a prefix. */
  lemma StepExtends(s: State, e: Event, verify: Verifier)
    requires Valid(s)
    ensures var t := Step(s, e, verify);
      && |s.sent| <= |t.sent| && t.sent[..|s.sent|] == s.sent
      && |s.store| <= |t.store| && t.store[..|s.store|] == s.store
  {
    var t := Step(s, e, verify);
    if Enabled(s, e) {
      match e
      case Connect(cookie) =>
        var u := AfterConnect(s, cookie, verify);
        assert t == u;
        assert u.store == s.store;
        assert u.sent == s.sent || u.sent == s.sent + SendAll(u.clients, Presence(Online(u.clients, u.conns)));
      case Message(m, recipient, text) =>
        var u := AfterMessage(s, m, recipient, text);
        assert t == u;
        assert (u.store == s.store && u.sent == s.sent) || (u.store == s.store + [Record(s.conns[m].userId, recipient.value, text.value)] && u.sent == s.sent + SendAll(Recipients(s.clients, s.conns, recipient.value), Delivery(text.value, s.conns[m].userId, |s.store|, recipient.value)));
      case Tick(d) =>
      case Pong(_) =>
      case DeathFire(d) =>
        var u := AfterDeath(s, d);
        assert t == u;
        assert u.store == s.store;
        assert u.sent == s.sent + SendAll(u.clients, Presence(Online(u.clients, u.conns)));
      case Close(_) =>
    }
  }

  /** Nothing is ever unsent or unstored: both logs only grow. */
  lemma {:induction false} RunExtends(s: State, es: seq<Event>, verify: Verifier)
    requires Valid(s)
    ensures var t := Run(s, es, verify);
      && |s.sent| <= |t.sent| && t.sent[..|s.sent|] == s.sent
      && |s.store| <= |t.store| && t.store[..|s.store|] == s.store
    decreases |es|
  {
    if es != [] {
      var u := Step(s, es[0], verify);
      StepExtends(s, es[0], verify);
      RunExtends(u, es[1..], verify);
      var t := Run(u, es[1..], verify);
      assert t == Run(s, es, verify);
      assert t.sent[..|s.sent|] == t.sent[..|u.sent|][..|s.sent|];
      assert t.store[..|s.store|] == t.store[..|u.store|][..|s.store|];
    }
  }
}
