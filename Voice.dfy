/**
 * The voice-call signalling service: who is in the voice room (last-seen
 * times) and a FIFO mailbox of WebRTC signals per nick. Signals are relayed
 * as opaque strings; a client learns of them only by polling.
 */
module Voice {
  import opened Wrappers

  /** A clock reading, in DateTime ticks of 100 ns. */
  type Time = int

  const TicksPerSecond: int := 10_000_000

  /** Join reports the peers seen strictly later than this long before now. */
  const ActiveWindow: int := 20 * TicksPerSecond

  /**
   * One relayed signal. `kind` is the Type of `VoiceManager.cs` ("offer", "answer",
   * "candidate", never interpreted); absent form fields arrive as None.
   */
  datatype SignalData = SignalData(
    from: Option<string>,
    to: string,
    kind: Option<string>,
    sdp: Option<string>,
    candidate: Option<string>)

  type Mailboxes = map<string, seq<SignalData>>

  type LastSeen = map<string, Time>

  /** The signals waiting for `nick`; a nick without a mailbox has none. */
  function Pending(m: Mailboxes, nick: string): seq<SignalData> {
    if nick in m then m[nick] else []
  }

  /** Queues `s` at the end of its recipient's mailbox, creating the mailbox if needed. */
  function Enqueue(m: Mailboxes, s: SignalData): (r: Mailboxes)
    ensures r.Keys == m.Keys + {s.to}
    ensures Pending(r, s.to) == Pending(m, s.to) + [s]
    ensures forall k :: k != s.to ==> Pending(r, k) == Pending(m, k)
  {
    m[s.to := Pending(m, s.to) + [s]]
  }

  /** The effect of a run of Signal calls, in call order. */
  function EnqueueAll(m: Mailboxes, ss: seq<SignalData>): Mailboxes
    decreases |ss|
  {
    if ss == [] then m else EnqueueAll(Enqueue(m, ss[0]), ss[1..])
  }

  /** The signals of `ss` addressed to `nick`, in order. */
  function AddressedTo(ss: seq<SignalData>, nick: string): seq<SignalData> {
    if ss == [] then []
    else (if ss[0].to == nick then [ss[0]] else []) + AddressedTo(ss[1..], nick)
  }

  /**
   * After any run of Signal calls, a mailbox holds what it held before
   * followed by exactly the signals sent to it, each once, in send order.
   */
  lemma {:induction false} EnqueueAllDelivers(m: Mailboxes, ss: seq<SignalData>, nick: string)
    ensures Pending(EnqueueAll(m, ss), nick) == Pending(m, nick) + AddressedTo(ss, nick)
    decreases |ss|
  {
    if ss != [] {
      EnqueueAllDelivers(Enqueue(m, ss[0]), ss[1..], nick);
      var head := if ss[0].to == nick then [ss[0]] else [];
      assert Pending(Enqueue(m, ss[0]), nick) == Pending(m, nick) + head;
      assert AddressedTo(ss, nick) == head + AddressedTo(ss[1..], nick);
      AppendAssoc(Pending(m, nick), head, AddressedTo(ss[1..], nick));
    }
  }

  /** Every mailbox that exists after a run of Signal calls existed before or was sent to. */
  lemma {:induction false} EnqueueAllKeys(m: Mailboxes, ss: seq<SignalData>)
    ensures EnqueueAll(m, ss).Keys == m.Keys + set i | 0 <= i < |ss| :: ss[i].to
    decreases |ss|
  {
    if ss != [] {
      EnqueueAllKeys(Enqueue(m, ss[0]), ss[1..]);
      var rest := set i | 0 <= i < |ss[1..]| :: ss[1..][i].to;
      var all := set i | 0 <= i < |ss| :: ss[i].to;
      assert all == {ss[0].to} + rest by {
        forall x | x in all ensures x in {ss[0].to} + rest {
          var i :| 0 <= i < |ss| && ss[i].to == x;
          if i > 0 { assert ss[1..][i - 1].to == x; }
        }
        forall x | x in rest ensures x in all {
          var i :| 0 <= i < |ss[1..]| && ss[1..][i].to == x;
          assert ss[i + 1].to == x;
        }
      }
    }
  }

  /** A peer Join reports to `nick`: someone else, seen strictly after `cutOff`. */
  predicate IsActivePeer(users: LastSeen, nick: string, cutOff: Time, k: string) {
    k in users && k != nick && users[k] > cutOff
  }

  predicate Distinct<T(==)>(s: seq<T>) {
    forall i, j :: 0 <= i < j < |s| ==> s[i] != s[j]
  }

  /** The keys of `keys` that pass Join's test, in snapshot order. */
  function ActiveAmong(users: LastSeen, keys: seq<string>, nick: string, cutOff: Time): seq<string> {
    if keys == [] then []
    else
      var last := keys[|keys| - 1];
      ActiveAmong(users, keys[..|keys| - 1], nick, cutOff)
        + (if IsActivePeer(users, nick, cutOff, last) then [last] else [])
  }

  /** The filter keeps exactly the active peers of the snapshot, and repeats none of them. */
  lemma {:induction false} ActiveAmongExact(users: LastSeen, keys: seq<string>, nick: string, cutOff: Time)
    ensures forall k :: k in ActiveAmong(users, keys, nick, cutOff) <==> k in keys && IsActivePeer(users, nick, cutOff, k)
    ensures Distinct(keys) ==> Distinct(ActiveAmong(users, keys, nick, cutOff))
  {
    if keys != [] {
      var init := keys[..|keys| - 1];
      ActiveAmongExact(users, init, nick, cutOff);
      assert keys == init + [keys[|keys| - 1]];
      if Distinct(keys) {
        assert Distinct(init);
      }
    }
  }

  /** Takes the snapshot `_users.Keys.ToArray()`: every key once, in an order the dictionary picks. */
  method KeySnapshot(users: LastSeen) returns (keys: seq<string>)
    ensures Distinct(keys)
    ensures forall k :: k in keys <==> k in users
  {
    keys := [];
    var rest := users.Keys;
    while rest != {}
      invariant rest <= users.Keys
      invariant forall k :: k in keys <==> k in users && k !in rest
      invariant Distinct(keys)
      decreases rest
    {
      var k :| k in rest;
      keys := keys + [k];
      rest := rest - {k};
    }
  }

  /** Join's loop over the snapshot: collects every other key seen strictly after `cutOff`. */
  method CollectPeers(users: LastSeen, keys: seq<string>, nick: string, cutOff: Time) returns (others: seq<string>)
    requires forall k :: k in keys ==> k in users
    ensures others == ActiveAmong(users, keys, nick, cutOff)
    ensures forall k :: k in others <==> k in keys && IsActivePeer(users, nick, cutOff, k)
    ensures Distinct(keys) ==> Distinct(others)
  {
    others := [];
    for i := 0 to |keys|
      invariant others == ActiveAmong(users, keys[..i], nick, cutOff)
    {
      assert keys[..i + 1][..i] == keys[..i];
      if keys[i] != nick && users[keys[i]] > cutOff {
        others := others + [keys[i]];
      }
    }
    assert keys[..|keys|] == keys;
    ActiveAmongExact(users, keys, nick, cutOff);
  }

  /**
   * The service object. `users` is `_users` of `VoiceManager.cs` (nick to last
   * seen), `signals` its `_signals` (nick to mailbox). The two key sets are
   * independent: a Signal to an unknown nick creates a mailbox, a Poll by
   * an unknown nick creates a presence entry.
   */
  class VoiceManager {
    var users: LastSeen
    var signals: Mailboxes

    constructor ()
      ensures users == map[] && signals == map[]
    {
      users := map[];
      signals := map[];
    }

    /**
     * Enters the voice room at time `now`: stamps `nick`, discards whatever
     * was queued for it, and returns every other nick seen in the last 20 s,
     * each once.
     */
    method Join(nick: string, now: Time) returns (others: seq<string>)
      modifies this
      ensures users == old(users)[nick := now]
      ensures signals == old(signals)[nick := []]
      ensures Distinct(others)
      ensures forall k :: k in others <==> IsActivePeer(users, nick, now - ActiveWindow, k)
      ensures nick !in others
    {
      users := users[nick := now];
      signals := signals[nick := []];
      var keys := KeySnapshot(users);
      var cutOff := now - ActiveWindow;
      others := CollectPeers(users, keys, nick, cutOff);
    }

    /**
     * Refreshes `nick` at time `now` and hands over its whole mailbox, in
     * arrival order, removing it; a nick without a mailbox gets nothing.
     */
    method Poll(nick: string, now: Time) returns (delivered: seq<SignalData>)
      modifies this
      ensures users == old(users)[nick := now]
      ensures delivered == Pending(old(signals), nick)
      ensures signals == old(signals) - {nick}
    {
      users := users[nick := now];
      if nick in signals {
        delivered := signals[nick];
        signals := signals - {nick};
      } else {
        delivered := [];
      }
    }

    /**
     * Queues a signal for `to`, creating its mailbox if absent. Nobody's
     * last-seen time changes, the sender's included.
     */
    method Signal(from: Option<string>, to: string, kind: Option<string>, sdp: Option<string>, candidate: Option<string>)
      modifies this
      ensures signals == Enqueue(old(signals), SignalData(from, to, kind, sdp, candidate))
      ensures users == old(users)
    {
      if to !in signals {
        signals := signals[to := []];
      }
      signals := signals[to := signals[to] + [SignalData(from, to, kind, sdp, candidate)]];
    }

    /** Drops `nick`'s presence and mailbox; nothing else changes, and an unknown nick is no error. */
    method Leave(nick: string)
      modifies this
      ensures users == old(users) - {nick}
      ensures signals == old(signals) - {nick}
    {
      users := users - {nick};
      signals := signals - {nick};
    }
  }

  /**
   * The call set-up the service supports: A joins an empty room, B joins
   * and sees A, A's offer reaches B once, and B's next poll is empty.
   */
  method OfferHandshake(a: string, b: string, sdp: string, t: Time) returns (
    peersOfA: seq<string>, peersOfB: seq<string>, first: seq<SignalData>, second: seq<SignalData>)
    requires a != b
    ensures forall k :: k !in peersOfA
    ensures forall k :: k in peersOfB <==> k == a
    ensures first == [SignalData(Some(a), b, Some("offer"), Some(sdp), None)]
    ensures second == []
  {
    var vm := new VoiceManager();
    peersOfA := vm.Join(a, t);
    peersOfB := vm.Join(b, t + TicksPerSecond);
    vm.Signal(Some(a), b, Some("offer"), Some(sdp), None);
    first := vm.Poll(b, t + 2 * TicksPerSecond);
    second := vm.Poll(b, t + 3 * TicksPerSecond);
  }
}
