/**
 * The connection handler as the program runs it: one object holding
 * `wsServer.clients`, the fields the handler keeps on each connection, the
 * message store and the frames sent, with one method per event. Each method
 * runs without interruption, as a callback does on Node's event loop, and is
 * proved to have exactly the effect the Relay module gives that event.
 */
module Server {
  import opened Wrappers
  import opened Connection
  import opened Frames
  import opened Roster
  import opened Routing
  import opened Relay
  import Cookie

  class Registry {
    var clients: seq<ConnId>
    var conns: map<ConnId, Conn>
    var nextConn: ConnId
    var store: seq<Record>
    var sent: seq<Sent>

    /** The abstract state these fields stand for. */
    function Model(): State
      reads this
    {
      State(clients, conns, nextConn, store, sent)
    }

    constructor ()
      ensures Model() == Init()
    {
      clients, conns, nextConn, store, sent := [], map[], 0, [], [];
    }

    /** `notifyAboutOnlinePeople` (index.js:163-171): the snapshot, sent to each client in turn. */
    method NotifyAboutOnlinePeople()
      requires forall c | c in clients :: c in conns
      modifies this`sent
      ensures Model() == Announce(old(Model()))
    {
      // the snapshot is recomputed for every client; nothing changes it in between
      ghost var frame := Presence(Online(clients, conns));
      var i := 0;
      while i < |clients|
        invariant 0 <= i <= |clients|
        invariant sent == old(sent) + SendAll(clients[..i], frame)
      {
        var online := Online(clients, conns);
        SendAllSnoc(clients, i, frame);
        sent := sent + [Sent(clients[i], Presence(online))];
        i := i + 1;
      }
      assert clients[..i] == clients;
    }

    /**
     * The `connection` handler (index.js:160-242) for a handshake with the given
     * `Cookie` header; the transport has already put the connection in the set.
     */
    method Connect(cookie: Option<string>, verify: Verifier) returns (id: ConnId)
      requires Valid(Model())
      modifies this
      ensures Model() == AfterConnect(old(Model()), cookie, verify)
      ensures Valid(Model()) && id == old(nextConn)
    {
      ghost var s := Model();
      id := nextConn;
      nextConn := nextConn + 1;
      clients := clients + [id];
      conns := conns[id := Accepted()];
      ghost var joined := Model();
      var token := Cookie.TokenOf(cookie);
      var k := Accepted();
      if token.Some? {
        var claims := verify(token.value);
        if claims.None? {
          // jwt.verify throws: the rest of the handler does not run
          assert Model() == AfterConnect(s, cookie, verify);
          return;
        }
        k := k.(userId := claims.value.userId, username := claims.value.username);
        conns := conns[id := k];
      }
      k := k.(listening := true);
      conns := conns[id := k];
      assert Model() == joined.(conns := s.conns[id := k]);
      NotifyAboutOnlinePeople();
    }

    /** The `message` listener (index.js:212-237) for one decoded frame. */
    method Receive(c: ConnId, recipient: Option<string>, text: Option<string>)
      requires Valid(Model()) && c in clients
      modifies this`store, this`sent
      ensures Model() == AfterMessage(old(Model()), c, recipient, text)
      ensures Valid(Model())
    {
      if !conns[c].listening {
        return;
      }
      if Accepts(recipient, text) {
        var sender := conns[c].userId;
        var id := |store|;
        store := store + [Record(sender, recipient.value, text.value)];
        var delivery := Delivery(text.value, sender, id, recipient.value);
        var targets := Recipients(clients, conns, recipient.value);
        var i := 0;
        while i < |targets|
          invariant 0 <= i <= |targets|
          invariant sent == old(sent) + SendAll(targets[..i], delivery)
          invariant store == old(store) + [Record(sender, recipient.value, text.value)]
        {
          SendAllSnoc(targets, i, delivery);
          sent := sent + [Sent(targets[i], delivery)];
          i := i + 1;
        }
        assert targets[..i] == targets;
      }
    }

    /** The interval callback (index.js:179-188). */
    method Tick(c: ConnId)
      requires Valid(Model()) && c in conns && conns[c].ticking
      modifies this`conns, this`sent
      ensures Model() == AfterTick(old(Model()), c)
      ensures Valid(Model())
    {
      if c in clients {
        sent := sent + [Sent(c, Ping)];
      }
      var k := conns[c];
      var stale := if k.deathArmed then k.staleDeaths + 1 else k.staleDeaths;
      conns := conns[c := k.(deathArmed := true, staleDeaths := stale)];
    }

    /** The pong listener (index.js:191-193). */
    method Pong(c: ConnId)
      requires Valid(Model()) && c in clients
      modifies this`conns
      ensures Model() == AfterPong(old(Model()), c)
      ensures Valid(Model())
    {
      conns := conns[c := conns[c].(deathArmed := false)];
    }

    /** The death-timer callback (index.js:181-186). */
    method DeathFire(c: ConnId)
      requires Valid(Model()) && c in conns && conns[c].DeathPending()
      modifies this`conns, this`clients, this`sent
      ensures Model() == AfterDeath(old(Model()), c)
      ensures Valid(Model())
    {
      var k := conns[c];
      if k.staleDeaths > 0 {
        k := k.(staleDeaths := k.staleDeaths - 1);
      } else {
        k := k.(deathArmed := false);
      }
      k := k.(isAlive := false);
      k := k.(ticking := false);
      conns := conns[c := k];
      clients := Remove(clients, c);
      NotifyAboutOnlinePeople();
    }

    /** The transport drops the connection; no handler of the program runs. */
    method Close(c: ConnId)
      requires Valid(Model()) && c in clients
      modifies this`clients
      ensures Model() == AfterClose(old(Model()), c)
      ensures Valid(Model())
    {
      clients := Remove(clients, c);
    }
  }
}
