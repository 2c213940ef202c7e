/** The client's dial loop: attempts, each failure followed by asking the backoff policy and
    sleeping, until one succeeds or the policy gives up.

    The outcome of the i-th attempt and the i-th answer of the policy are inputs. */
module Dial {
  import opened Prelude

  datatype Event = Dialed(ok: bool) | NextBackOff(d: int) | Sleep(d: int) | Reset

  datatype DialError = AttemptFailed | BackoffExceeded

  type Attempts = nat -> Option<Conn>

  type Policy = nat -> int

  /** The loop ends in round k: with a connection, or because the policy has had enough. */
  predicate StopsAt(attempt: Attempts, policy: Policy, k: nat) {
    (attempt(k).Some? || policy(k) < 0) &&
    forall i :: 0 <= i < k ==> attempt(i) == None && policy(i) >= 0
  }

  /** k rounds of failing, asking and sleeping. */
  function Rounds(policy: Policy, k: nat): seq<Event> {
    if k == 0 then []
    else Rounds(policy, k - 1) + [Dialed(false), NextBackOff(policy(k - 1)), Sleep(policy(k - 1))]
  }

  function Tail(attempt: Attempts, policy: Policy, k: nat): seq<Event> {
    if attempt(k).Some? then [Dialed(true), Reset] else [Dialed(false), NextBackOff(policy(k))]
  }

  function Outcome(attempt: Attempts, k: nat): Result<Conn, DialError> {
    match attempt(k)
    case Some(conn) => Ok(conn)
    case None => Err(BackoffExceeded)
  }

  /** The outcome of the only attempt when there is no policy. */
  function FirstOutcome(attempt: Attempts): Result<Conn, DialError> {
    match attempt(0)
    case Some(conn) => Ok(conn)
    case None => Err(AttemptFailed)
  }

  /** Without a policy there is one attempt; with one, the loop needs some round that ends it. */
  method Dial(attempt: Attempts, policy: Option<Policy>, ghost bound: nat)
    returns (r: Result<Conn, DialError>, trace: seq<Event>)
    requires policy.Some? ==> attempt(bound).Some? || policy.value(bound) < 0
    ensures match policy
            case None =>
              trace == [Dialed(attempt(0).Some?)] && r == FirstOutcome(attempt)
            case Some(p) =>
              exists k :: 0 <= k <= bound && StopsAt(attempt, p, k) &&
                          trace == Rounds(p, k) + Tail(attempt, p, k) && r == Outcome(attempt, k)
  {
    if policy == None {
      var conn := attempt(0);
      trace := [Dialed(conn.Some?)];
      r := if conn.Some? then Ok(conn.value) else Err(AttemptFailed);
      return;
    }
    var b := policy.value;
    trace := [];
    var i := 0;
    while true
      invariant i <= bound
      invariant forall j :: 0 <= j < i ==> attempt(j) == None && b(j) >= 0
      invariant trace == Rounds(b, i)
      decreases bound - i
    {
      var conn := attempt(i);
      trace := trace + [Dialed(conn.Some?)];
      if conn.Some? {
        trace := trace + [Reset];
        assert StopsAt(attempt, b, i);
        return Ok(conn.value), trace;
      }
      var d := b(i);
      trace := trace + [NextBackOff(d)];
      if d < 0 {
        assert StopsAt(attempt, b, i);
        return Err(BackoffExceeded), trace;
      }
      trace := trace + [Sleep(d)];
      i := i + 1;
    }
  }

  // ---- What a trace shows ----

  function Slept(trace: seq<Event>): int {
    if trace == [] then 0
    else
      var e := trace[|trace| - 1];
      Slept(trace[..|trace| - 1]) + if e.Sleep? then e.d else 0
  }

  function Resets(trace: seq<Event>): nat {
    if trace == [] then 0
    else Resets(trace[..|trace| - 1]) + if trace[|trace| - 1].Reset? then 1 else 0
  }

  /** The sum of the policy's first k answers. */
  function Total(policy: Policy, k: nat): int {
    if k == 0 then 0 else Total(policy, k - 1) + policy(k - 1)
  }

  lemma {:induction false} SleptConcat(a: seq<Event>, b: seq<Event>)
    ensures Slept(a + b) == Slept(a) + Slept(b)
    ensures Resets(a + b) == Resets(a) + Resets(b)
    decreases |b|
  {
    if b == [] {
      assert a + b == a;
    } else {
      var n := |b| - 1;
      assert (a + b)[..|a + b| - 1] == a + b[..n];
      SleptConcat(a, b[..n]);
    }
  }

  lemma {:induction false} SleptRounds(policy: Policy, k: nat)
    ensures Slept(Rounds(policy, k)) == Total(policy, k) && Resets(Rounds(policy, k)) == 0
  {
    if k > 0 {
      SleptRounds(policy, k - 1);
      var d := policy(k - 1);
      var round := [Dialed(false), NextBackOff(d), Sleep(d)];
      SleptConcat(Rounds(policy, k - 1), round);
      assert round == [Dialed(false), NextBackOff(d)] + [Sleep(d)];
      SleptConcat([Dialed(false), NextBackOff(d)], [Sleep(d)]);
      assert [Dialed(false), NextBackOff(d)] == [Dialed(false)] + [NextBackOff(d)];
      SleptConcat([Dialed(false)], [NextBackOff(d)]);
    }
  }

  /** A finished trace: the time slept is the sum of the answers given, none negative, and the
      policy is reset once if a connection was made and never otherwise. */
  lemma TraceAccounts(attempt: Attempts, policy: Policy, k: nat)
    requires StopsAt(attempt, policy, k)
    ensures var trace := Rounds(policy, k) + Tail(attempt, policy, k);
            Slept(trace) == Total(policy, k) &&
            Resets(trace) == (if attempt(k).Some? then 1 else 0) &&
            (forall e :: e in trace && e.Sleep? ==> e.d >= 0)
  {
    SleptRounds(policy, k);
    var tail := Tail(attempt, policy, k);
    SleptConcat(Rounds(policy, k), tail);
    assert tail == tail[..1] + tail[1..];
    SleptConcat(tail[..1], tail[1..]);
    RoundSleeps(policy, k);
  }

  /** What dialing returns: a connection exactly if the attempt that ended it made that one, and
      otherwise the error of the only attempt, or that the policy gave up after a failure. */
  lemma OutcomeIff(attempt: Attempts, policy: Policy, k: nat, conn: Conn)
    requires StopsAt(attempt, policy, k)
    ensures Outcome(attempt, k) == Ok(conn) <==> attempt(k) == Some(conn)
    ensures Outcome(attempt, k) == Err(BackoffExceeded) <==> attempt(k) == None && policy(k) < 0
    ensures FirstOutcome(attempt) == Ok(conn) <==> attempt(0) == Some(conn)
    ensures FirstOutcome(attempt) == Err(AttemptFailed) <==> attempt(0) == None
  {
  }

  /** The rounds, event by event: each fails, asks for an answer and sleeps that long. */
  lemma {:induction false} TraceAt(policy: Policy, k: nat, i: nat)
    requires i < k
    ensures |Rounds(policy, k)| == 3 * k
    ensures Rounds(policy, k)[3 * i] == Dialed(false)
    ensures Rounds(policy, k)[3 * i + 1] == NextBackOff(policy(i))
    ensures Rounds(policy, k)[3 * i + 2] == Sleep(policy(i))
    decreases k
  {
    RoundsLength(policy, k - 1);
    if i < k - 1 {
      TraceAt(policy, k - 1, i);
    }
  }

  /** The end of a trace: a success and a reset, or a failure and an answer below zero. */
  lemma TraceEnd(attempt: Attempts, policy: Policy, k: nat)
    requires StopsAt(attempt, policy, k)
    ensures attempt(k).Some? ==> Tail(attempt, policy, k) == [Dialed(true), Reset]
    ensures attempt(k) == None ==> Tail(attempt, policy, k) == [Dialed(false), NextBackOff(policy(k))] && policy(k) < 0
  {
  }

  lemma {:induction false} RoundsLength(policy: Policy, k: nat)
    ensures |Rounds(policy, k)| == 3 * k
  {
    if k > 0 {
      RoundsLength(policy, k - 1);
    }
  }

  lemma {:induction false} RoundSleeps(policy: Policy, k: nat)
    requires forall i :: 0 <= i < k ==> policy(i) >= 0
    ensures forall e :: e in Rounds(policy, k) && e.Sleep? ==> e.d >= 0
  {
    if k > 0 {
      RoundSleeps(policy, k - 1);
    }
  }

  /** The round in which the loop ends is determined by the attempts and the policy. */
  lemma StopsOnce(attempt: Attempts, policy: Policy, k: nat, l: nat)
    requires StopsAt(attempt, policy, k) && StopsAt(attempt, policy, l)
    ensures k == l
  {
  }
}
