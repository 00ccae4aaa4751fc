/**
 * One WebSocket connection as the handler sees it: the fields index.js
 * assigns on the `connection` object (lines 177-206), the two heartbeat
 * timers, and whether the `message` listener was attached (line 212).
 */
module Connection {
  import opened Wrappers

  /** Opaque handle of a transport connection. */
  type ConnId = nat

  /** The payload `jwt.verify` returns; either field may be missing. */
  datatype Claims = Claims(userId: Option<string>, username: Option<string>)

  /**
   * `jwt.verify(token, secret)`: the claims of a valid token, or None when it
   * throws (bad signature, malformed token).
   */
  type Verifier = string -> Option<Claims>

  /**
   * The state of one connection.
   *  - userId, username: bound from the token's claims (index.js:205-206);
   *  - isAlive: index.js:177 and 182;
   *  - ticking: the 5 s interval `connection.timer` has not been cleared;
   *  - deathArmed: the 1 s timer referenced by `connection.deathTimer` is pending;
   *  - staleDeaths: earlier death timers still pending whose handle was
   *    overwritten by a later tick, and which `clearTimeout` can no longer reach;
   *  - listening: the `message` listener was attached (index.js:212).
   */
  datatype Conn = Conn(
    userId: Option<string>,
    username: Option<string>,
    isAlive: bool,
    ticking: bool,
    deathArmed: bool,
    staleDeaths: nat,
    listening: bool)
  {
    /** Some death timer of this connection is still due to fire. */
    predicate DeathPending() { deathArmed || staleDeaths > 0 }

    /** How many death timers of this connection are still due to fire. */
    function PendingDeaths(): nat { (if deathArmed then 1 else 0) + staleDeaths }
  }

  /** The record after lines 177-179: alive, interval running, no identity yet. */
  function Accepted(): (k: Conn)
    ensures k.isAlive && k.ticking && !k.DeathPending() && !k.listening
    ensures k.userId.None? && k.username.None?
  {
    Conn(None, None, true, true, false, 0, false)
  }

  /** A registry sequence in which no connection appears twice. */
  predicate NoDup(s: seq<ConnId>)
  {
    forall i, j | 0 <= i < j < |s| :: s[i] != s[j]
  }

  /** The registry with one connection taken out (what `terminate` or a close does). */
  function Remove(s: seq<ConnId>, c: ConnId): (r: seq<ConnId>)
    ensures forall d :: d in r <==> d in s && d != c
    ensures NoDup(s) ==> NoDup(r)
    ensures c !in s ==> r == s
    decreases |s|
  {
    if s == [] then []
    else if s[0] == c then Remove(s[1..], c)
    else
      var rest := Remove(s[1..], c);
      assert NoDup(s) ==> NoDup(s[1..]) && s[0] !in s[1..];
      [s[0]] + rest
  }

  /** Removing the connection at position i keeps the others in order. */
  lemma {:induction false} RemoveAt(s: seq<ConnId>, i: nat)
    requires NoDup(s) && i < |s|
    ensures Remove(s, s[i]) == s[..i] + s[i + 1..]
    decreases |s|
  {
    if i == 0 {
      assert s[0] !in s[1..];
    } else {
      assert NoDup(s[1..]);
      RemoveAt(s[1..], i - 1);
      assert s[1..][i - 1] == s[i];
      assert s[1..][..i - 1] == s[1..i];
      assert s[1..][i..] == s[i + 1..];
      assert [s[0]] + s[1..i] == s[..i];
    }
  }
}
