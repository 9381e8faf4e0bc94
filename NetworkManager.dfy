/** The Wi-Fi connection supervisor of src/NetworkManager.cpp: an attempt
    counter capped at MAX_RECONNECT_ATTEMPTS and a minimum interval between
    attempts, measured on the wrapping millisecond clock. The link's status
    readings are inputs: each call to `WiFi.status()` is one given value. */
module Network {
  import opened Clock

  const RECONNECT_INTERVAL: nat := 5000
  const MAX_RECONNECT_ATTEMPTS: nat := 3
  /** Status polls of the initial connection: 60 times 500 ms. */
  const MAX_TIMEOUT: nat := 60

  /** The supervisor's counters. */
  datatype Supervisor = Supervisor(attempts: int, lastAttempt: Millis)

  const Initial: Supervisor := Supervisor(0, 0)

  /** What one `reconnect` call does: the new counters, its result, and
      whether it asked the driver to re-associate. */
  datatype Outcome = Outcome(next: Supervisor, ok: bool, attempted: bool)

  /** reconnect, given the link status it reads first (`linkUp`) and the
      status it reads after an attempt (`upAfterAttempt`). */
  function ReconnectStep(s: Supervisor, now: Millis, linkUp: bool, upAfterAttempt: bool): (o: Outcome)
    // already connected: success, counter cleared, no attempt
    ensures linkUp ==> o == Outcome(s.(attempts := 0), true, false)
    // counter exhausted: failure, nothing changes
    ensures !linkUp && s.attempts >= MAX_RECONNECT_ATTEMPTS ==> o == Outcome(s, false, false)
    // too soon since the last attempt: failure, nothing changes
    ensures !linkUp && Elapsed(now, s.lastAttempt) < RECONNECT_INTERVAL ==> o == Outcome(s, false, false)
    // an attempt is made exactly when the link is down, the cap is not reached
    // and the interval has passed; it is counted and time-stamped first
    ensures o.attempted <==> !linkUp && s.attempts < MAX_RECONNECT_ATTEMPTS
                             && Elapsed(now, s.lastAttempt) >= RECONNECT_INTERVAL
    ensures o.attempted ==> o.next.lastAttempt == now
    ensures o.attempted ==> (o.ok <==> upAfterAttempt)
    ensures o.attempted && o.ok ==> o.next.attempts == 0
    ensures o.attempted && !o.ok ==> o.next.attempts == s.attempts + 1
  {
    if linkUp then
      Outcome(s.(attempts := 0), true, false)
    else if s.attempts >= MAX_RECONNECT_ATTEMPTS then
      Outcome(s, false, false)
    else if Elapsed(now, s.lastAttempt) >= RECONNECT_INTERVAL then
      var tried := Supervisor(s.attempts + 1, now);
      if upAfterAttempt then Outcome(tried.(attempts := 0), true, true)
      else Outcome(tried, false, true)
    else
      Outcome(s, false, false)
  }

  predicate InRange(s: Supervisor)
  {
    0 <= s.attempts <= MAX_RECONNECT_ATTEMPTS
  }

  /** One call to `reconnect` with its two status readings and its clock value. */
  datatype Call = Call(now: Millis, linkUp: bool, upAfterAttempt: bool)

  /** The counters after a sequence of calls. */
  function Run(s: Supervisor, calls: seq<Call>): Supervisor
    decreases |calls|
  {
    if calls == [] then s
    else Run(ReconnectStep(s, calls[0].now, calls[0].linkUp, calls[0].upAfterAttempt).next, calls[1..])
  }

  /** How many of those calls asked the driver to re-associate. */
  function AttemptsIssued(s: Supervisor, calls: seq<Call>): nat
    decreases |calls|
  {
    if calls == [] then 0
    else
      var o := ReconnectStep(s, calls[0].now, calls[0].linkUp, calls[0].upAfterAttempt);
      (if o.attempted then 1 else 0) + AttemptsIssued(o.next, calls[1..])
  }

  /** The counter stays within [0, MAX_RECONNECT_ATTEMPTS] over any run. */
  lemma {:induction false} RunStaysInRange(s: Supervisor, calls: seq<Call>)
    requires InRange(s)
    ensures InRange(Run(s, calls))
    decreases |calls|
  {
    if calls != [] {
      RunStaysInRange(ReconnectStep(s, calls[0].now, calls[0].linkUp, calls[0].upAfterAttempt).next,
                      calls[1..]);
    }
  }

  /** While the link stays down (every status reading says so), at most
      MAX_RECONNECT_ATTEMPTS - attempts further attempts are ever made, however
      many calls there are and however much time passes. */
  lemma {:induction false} AttemptCapWhileDown(s: Supervisor, calls: seq<Call>)
    requires InRange(s)
    requires forall k :: 0 <= k < |calls| ==> !calls[k].linkUp && !calls[k].upAfterAttempt
    ensures AttemptsIssued(s, calls) <= MAX_RECONNECT_ATTEMPTS - s.attempts
    ensures Run(s, calls).attempts == s.attempts + AttemptsIssued(s, calls)
    decreases |calls|
  {
    if calls != [] {
      var o := ReconnectStep(s, calls[0].now, calls[0].linkUp, calls[0].upAfterAttempt);
      assert forall k :: 0 <= k < |calls[1..]| ==> calls[1..][k] == calls[k + 1];
      AttemptCapWhileDown(o.next, calls[1..]);
    }
  }

  /** After MAX_RECONNECT_ATTEMPTS consecutive failures every further call
      with the link down fails at once and leaves the attempt time-stamp alone. */
  lemma ExhaustedStaysExhausted(s: Supervisor, now: Millis, upAfterAttempt: bool)
    requires s.attempts == MAX_RECONNECT_ATTEMPTS
    ensures ReconnectStep(s, now, false, upAfterAttempt) == Outcome(s, false, false)
  {
  }

  /** `lastReconnectAttempt` starts at 0, so no attempt is made during the
      first RECONNECT_INTERVAL milliseconds of uptime. */
  lemma NoAttemptInFirstInterval(now: Millis, upAfterAttempt: bool)
    requires now < RECONNECT_INTERVAL
    ensures !ReconnectStep(Initial, now, false, upAfterAttempt).attempted
  {
  }

  class NetworkManager {
    var reconnectAttempts: int
    var lastReconnectAttempt: Millis

    ghost predicate Valid()
      reads this
    {
      0 <= reconnectAttempts <= MAX_RECONNECT_ATTEMPTS
    }

    function State(): Supervisor
      reads this
    {
      Supervisor(reconnectAttempts, lastReconnectAttempt)
    }

    /** The constructor: no attempts yet, last attempt at time 0. */
    constructor ()
      ensures Valid() && State() == Initial
    {
      reconnectAttempts := 0;
      lastReconnectAttempt := 0;
    }

    /** connect: polls the status up to 60 times (status(k) is the k-th
        reading); it clears the counter only when the final reading says
        connected, and otherwise leaves the counter alone. */
    method Connect(status: nat -> bool) returns (ok: bool, polls: nat)
      requires Valid()
      modifies this
      ensures Valid()
      ensures polls <= MAX_TIMEOUT
      ensures forall k :: 0 <= k < polls ==> !status(k)
      ensures polls < MAX_TIMEOUT ==> status(polls)
      ensures ok == status(polls + 1)
      ensures lastReconnectAttempt == old(lastReconnectAttempt)
      ensures reconnectAttempts == if ok then 0 else old(reconnectAttempts)
    {
      // the k-th status reading is taken by the k-th evaluation of the loop guard
      var timeout := 0;
      while !status(timeout) && timeout < MAX_TIMEOUT
        invariant 0 <= timeout <= MAX_TIMEOUT
        invariant forall k :: 0 <= k < timeout ==> !status(k)
      {
        timeout := timeout + 1;
      }
      polls := timeout;
      ok := status(timeout + 1);
      if ok {
        reconnectAttempts := 0;
      }
    }

    /** reconnect, given the clock and the link status it reads before and
        after an attempt; `attempted` says whether the driver was asked to
        disconnect and re-associate. */
    method Reconnect(now: Millis, linkUp: bool, upAfterAttempt: bool) returns (ok: bool, attempted: bool)
      requires Valid()
      modifies this
      ensures Valid()
      ensures Outcome(State(), ok, attempted) == ReconnectStep(old(State()), now, linkUp, upAfterAttempt)
    {
      if linkUp {
        reconnectAttempts := 0;
        return true, false;
      }
      if reconnectAttempts >= MAX_RECONNECT_ATTEMPTS {
        return false, false;
      }
      attempted := false;
      if Elapsed(now, lastReconnectAttempt) >= RECONNECT_INTERVAL {
        reconnectAttempts := reconnectAttempts + 1;
        lastReconnectAttempt := now;
        attempted := true;
        if upAfterAttempt {
          reconnectAttempts := 0;
          return true, attempted;
        }
      }
      ok := false;
    }

    /** resetReconnectAttempts: clears the counter and nothing else. */
    method ResetReconnectAttempts()
      modifies this
      ensures Valid()
      ensures reconnectAttempts == 0 && lastReconnectAttempt == old(lastReconnectAttempt)
    {
      reconnectAttempts := 0;
    }
  }
}
