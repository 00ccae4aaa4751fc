/**
 * The frames the handler sends (index.js:167-170, 180 and 230-235) and the
 * log of everything sent, in order, with the connection it went to.
 */
module Frames {
  import opened Wrappers
  import opened Connection

  /** One element of the `online` list: `{userId, username}` of a client. */
  datatype Entry = Entry(userId: Option<string>, username: Option<string>)

  /** The identifier the message store gives a saved message (`messageDoc._id`). */
  type MsgId = nat

  datatype Frame =
    | Presence(online: seq<Entry>)
    | Delivery(text: string, sender: Option<string>, id: MsgId, recipient: string)
    | Ping

  /** One frame sent to one connection. */
  datatype Sent = Sent(to: ConnId, frame: Frame)

  /** The same frame sent to each target in turn (a `.map`/`.forEach` over clients). */
  function SendAll(targets: seq<ConnId>, f: Frame): (r: seq<Sent>)
    ensures |r| == |targets|
    ensures forall i | 0 <= i < |r| :: r[i] == Sent(targets[i], f)
    decreases |targets|
  {
    if targets == [] then [] else [Sent(targets[0], f)] + SendAll(targets[1..], f)
  }

  /** The frames one connection received, in the order they were sent. */
  function ReceivedBy(log: seq<Sent>, c: ConnId): (r: seq<Frame>)
    ensures |r| <= |log|
    decreases |log|
  {
    if log == [] then []
    else if log[0].to == c then [log[0].frame] + ReceivedBy(log[1..], c)
    else ReceivedBy(log[1..], c)
  }

  lemma {:induction false} ReceivedByAppend(a: seq<Sent>, b: seq<Sent>, c: ConnId)
    ensures ReceivedBy(a + b, c) == ReceivedBy(a, c) + ReceivedBy(b, c)
    decreases |a|
  {
    if a != [] {
      assert (a + b)[1..] == a[1..] + b;
      ReceivedByAppend(a[1..], b, c);
    } else {
      assert a + b == b;
    }
  }

  /** A fan-out to distinct targets reaches each target exactly once, and no one else. */
  lemma {:induction false} ReceivedBySendAll(targets: seq<ConnId>, f: Frame, c: ConnId)
    requires NoDup(targets)
    ensures ReceivedBy(SendAll(targets, f), c) == if c in targets then [f] else []
    decreases |targets|
  {
    if targets != [] {
      assert NoDup(targets[1..]);
      ReceivedBySendAll(targets[1..], f, c);
      assert SendAll(targets, f)[1..] == SendAll(targets[1..], f);
      if targets[0] == c {
        assert c !in targets[1..];
      }
    }
  }

  /** Sending to one more target appends one more frame to the fan-out. */
  lemma SendAllSnoc(targets: seq<ConnId>, i: nat, f: Frame)
    requires i < |targets|
    ensures SendAll(targets[..i + 1], f) == SendAll(targets[..i], f) + [Sent(targets[i], f)]
  {
  }
}
