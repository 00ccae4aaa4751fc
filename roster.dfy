/**
 * The presence snapshot of `notifyAboutOnlinePeople` (index.js:163-171): one
 * `{userId, username}` entry per client of the server, in registry order,
 * anonymous clients included.
 */
module Roster {
  import opened Wrappers
  import opened Connection
  import opened Frames

  function EntryOf(k: Conn): Entry
  {
    Entry(k.userId, k.username)
  }

  /** `[...wsServer.clients].map(c => ({userId: c.userId, username: c.username}))` */
  function Online(clients: seq<ConnId>, conns: map<ConnId, Conn>): (r: seq<Entry>)
    requires forall c | c in clients :: c in conns
    ensures |r| == |clients|
    ensures forall i | 0 <= i < |clients| :: r[i] == EntryOf(conns[clients[i]])
    decreases |clients|
  {
    if clients == [] then [] else [EntryOf(conns[clients[0]])] + Online(clients[1..], conns)
  }

  /** A newly registered client is listed last, with the identity it holds. */
  lemma OnlineAppend(clients: seq<ConnId>, c: ConnId, conns: map<ConnId, Conn>)
    requires forall d | d in clients :: d in conns
    requires c in conns
    ensures Online(clients + [c], conns) == Online(clients, conns) + [EntryOf(conns[c])]
  {
    var r := Online(clients + [c], conns);
    assert forall i | 0 <= i < |clients| :: (clients + [c])[i] == clients[i];
  }

  /** Removing a client drops exactly its entry and keeps the others in order. */
  lemma OnlineRemove(clients: seq<ConnId>, i: nat, conns: map<ConnId, Conn>)
    requires forall d | d in clients :: d in conns
    requires NoDup(clients) && i < |clients|
    ensures Online(Remove(clients, clients[i]), conns)
         == Online(clients, conns)[..i] + Online(clients, conns)[i + 1..]
  {
    RemoveAt(clients, i);
    var rest := clients[..i] + clients[i + 1..];
    var all := Online(clients, conns);
    var a := Online(rest, conns);
    var b := all[..i] + all[i + 1..];
    forall j | 0 <= j < |a|
      ensures a[j] == b[j]
    {
      if j < i {
        assert rest[j] == clients[j];
      } else {
        assert rest[j] == clients[j + 1];
      }
    }
  }

  /** The snapshot reads only the records of registered clients. */
  lemma OnlineUpdateOther(clients: seq<ConnId>, conns: map<ConnId, Conn>, d: ConnId, k: Conn)
    requires forall c | c in clients :: c in conns
    requires d !in clients
    ensures Online(clients, conns[d := k]) == Online(clients, conns)
  {
  }

  /** A user is listed exactly when some registered client is bound to that user id. */
  lemma {:induction false} ListedIffConnected(clients: seq<ConnId>, conns: map<ConnId, Conn>, u: string)
    requires forall c | c in clients :: c in conns
    ensures (exists e | e in Online(clients, conns) :: e.userId == Some(u))
        <==> (exists c | c in clients :: conns[c].userId == Some(u))
  {
    var r := Online(clients, conns);
    if exists e | e in r :: e.userId == Some(u) {
      var e :| e in r && e.userId == Some(u);
      var i :| 0 <= i < |r| && r[i] == e;
      assert clients[i] in clients && conns[clients[i]].userId == Some(u);
    }
    if exists c | c in clients :: conns[c].userId == Some(u) {
      var c :| c in clients && conns[c].userId == Some(u);
      var i :| 0 <= i < |clients| && clients[i] == c;
      assert r[i] in r && r[i].userId == Some(u);
    }
  }
}
