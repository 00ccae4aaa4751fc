/**
 * The `message` handler's pure parts (index.js:212-237): the guard on the
 * decoded frame, the record handed to the message store, and the set of
 * connections a message is delivered to.
 */
module Routing {
  import opened Wrappers
  import opened Connection

  /** JavaScript truthiness of an optional string field: present and non-empty. */
  predicate Truthy(v: Option<string>)
  {
    v.Some? && v.value != []
  }

  /** The guard `if (recipient && text)` (index.js:219). */
  predicate Accepts(recipient: Option<string>, text: Option<string>)
    ensures recipient.None? || text.None? ==> !Accepts(recipient, text)
    ensures recipient == Some("") || text == Some("") ==> !Accepts(recipient, text)
    ensures recipient.Some? && text.Some? && recipient.value != "" && text.value != "" ==> Accepts(recipient, text)
  {
    Truthy(recipient) && Truthy(text)
  }

  /** The document `Message.create` is given (index.js:221-225). */
  datatype Record = Record(sender: Option<string>, recipient: string, text: string)

  /** `[...wsServer.clients].filter(c => c.userId === recipient)` (index.js:228-229). */
  function Recipients(clients: seq<ConnId>, conns: map<ConnId, Conn>, recipient: string): (r: seq<ConnId>)
    requires forall c | c in clients :: c in conns
    ensures forall c :: c in r <==> c in clients && conns[c].userId == Some(recipient)
    ensures NoDup(clients) ==> NoDup(r)
    ensures |r| <= |clients|
    decreases |clients|
  {
    if clients == [] then []
    else
      var rest := Recipients(clients[1..], conns, recipient);
      assert NoDup(clients) ==> NoDup(clients[1..]) && clients[0] !in clients[1..];
      if conns[clients[0]].userId == Some(recipient) then [clients[0]] + rest else rest
  }

  /** Anonymous connections never match: a truthy recipient is never `undefined`. */
  lemma AnonymousNeverRecipient(clients: seq<ConnId>, conns: map<ConnId, Conn>, recipient: string, c: ConnId)
    requires forall d | d in clients :: d in conns
    requires c in clients && conns[c].userId.None?
    ensures c !in Recipients(clients, conns, recipient)
  {
  }
}
