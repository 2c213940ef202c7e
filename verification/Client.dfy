/** The client's reconnect loop: connect, serve until disconnected, and go round again unless the
    server reported an error or the connection keeps being cut.

    Start runs as one loop; Stop and the server's error reports may come at any moment.  What the
    program does under its lock is one step.  Times are nanoseconds since the zero time, which is
    what lastDisconnect starts from. */
module Client {
  import opened Prelude
  import opened Dial

  type Time = nat

  const SECOND: nat := 1_000_000_000
  const HICCUP: nat := 5 * SECOND

  /** The longest difference two times can have. */
  const MAX_DURATION: nat := 0x7FFF_FFFF_FFFF_FFFF

  function Sub(now: Time, then_: Time): int {
    if now - then_ > MAX_DURATION then MAX_DURATION else now - then_
  }

  datatype State = State(conn: Option<Conn>, serverErr: Option<string>, lastDisconnect: Time)

  const FRESH: State := State(None, None, 0)

  datatype StartError = AlreadyConnected | DialFailed(error: DialError) | ServerError(msg: string) | BeingCut

  // ---- The locked regions ----

  function Connect(c: State, dial: Result<Conn, DialError>): (State, Result<Conn, StartError>) {
    if c.conn.Some? then (c, Err(AlreadyConnected))
    else
      match dial
      case Err(e) => (c, Err(DialFailed(e)))
      case Ok(conn) => (c.(conn := Some(conn)), Ok(conn))
  }

  function Verdict(c: State, now: Time): Option<StartError> {
    if c.serverErr.Some? then Some(ServerError(c.serverErr.value))
    else if Sub(now, c.lastDisconnect) < HICCUP then Some(BeingCut)
    else None
  }

  function Disconnect(c: State, now: Time): State {
    State(None, None, now)
  }

  class Client {
    var conn: Option<Conn>
    var serverErr: Option<string>
    var lastDisconnect: Time

    function Now(): State
      reads this
    {
      State(conn, serverErr, lastDisconnect)
    }

    constructor ()
      ensures Now() == FRESH
    {
      conn, serverErr, lastDisconnect := None, None, 0;
    }

    method DoConnect(attempt: Attempts, policy: Option<Policy>, ghost bound: nat)
      returns (r: Result<Conn, StartError>, trace: seq<Event>)
      requires policy.Some? ==> attempt(bound).Some? || policy.value(bound) < 0
      modifies this
      ensures r.Ok? ==> old(conn) == None && conn == Some(r.value)
      ensures r.Err? ==> Now() == old(Now())
      ensures old(conn).Some? ==> Now() == old(Now()) && r == Err(AlreadyConnected) && trace == []
      ensures old(conn) == None ==>
                match policy
                case None => (Now(), r) == Connect(old(Now()), FirstOutcome(attempt))
                case Some(p) =>
                  exists k :: StopsAt(attempt, p, k) && trace == Rounds(p, k) + Tail(attempt, p, k) &&
                              (Now(), r) == Connect(old(Now()), Outcome(attempt, k))
    {
      if conn.Some? {
        return Err(AlreadyConnected), [];
      }
      var dialed;
      dialed, trace := Dial.Dial(attempt, policy, bound);
      match dialed
      case Err(e) => r := Err(DialFailed(e));
      case Ok(c) =>
        conn := Some(c);
        r := Ok(c);
    }

    /** The end of a session: decides whether Start goes on, and resets the connection. */
    method DoDisconnect(now: Time) returns (err: Option<StartError>)
      modifies this
      ensures Now() == Disconnect(old(Now()), now) && err == Verdict(old(Now()), now)
    {
      err := None;
      if serverErr.Some? {
        err := Some(ServerError(serverErr.value));
      }
      if err == None && Sub(now, lastDisconnect) < HICCUP {
        err := Some(BeingCut);
      }
      conn, serverErr, lastDisconnect := None, None, now;
    }

    method HandleHandshakeError(msg: string)
      modifies this
      ensures Now() == old(Now()).(serverErr := Some(msg))
    {
      serverErr := Some(msg);
    }

    /** Closes the connection if there is one, and forgets it. */
    method Stop() returns (closed: Option<Conn>)
      modifies this
      ensures Now() == old(Now()).(conn := None) && closed == old(conn)
    {
      closed := conn;
      conn := None;
    }
  }

  // ---- Start and its surroundings ----

  datatype Pc = Connecting | Serving(conn: Conn) | Returned(err: StartError)

  /** survived lists the times of the disconnects after which Start went round again, closed the
      connections that Stop has closed. */
  datatype Machine = Machine(c: State, pc: Pc, clock: Time, survived: seq<Time>, closed: seq<Conn>)

  const START: Machine := Machine(FRESH, Connecting, 0, [], [])

  datatype Action =
    | Dials(dial: Result<Conn, DialError>)
    | ServeEnds(now: Time)
    | Stops
    | Reports(msg: string)

  predicate Enabled(m: Machine, a: Action) {
    match a
    case Dials(_) => m.pc.Connecting?
    case ServeEnds(now) => m.pc.Serving? && now >= m.clock
    case Stops => true
    case Reports(_) => true
  }

  function Next(m: Machine, a: Action): Machine {
    match a
    case Dials(dial) =>
      var (c, r) := Connect(m.c, dial);
      m.(c := c, pc := match r case Ok(conn) => Serving(conn) case Err(e) => Returned(e))
    case ServeEnds(now) =>
      var v := m.(c := Disconnect(m.c, now), clock := now);
      (match Verdict(m.c, now)
       case Some(e) => v.(pc := Returned(e))
       case None => v.(pc := Connecting, survived := m.survived + [now]))
    case Stops =>
      m.(c := m.c.(conn := None), closed := m.closed + if m.c.conn.Some? then [m.c.conn.value] else [])
    case Reports(msg) => m.(c := m.c.(serverErr := Some(msg)))
  }

  ghost predicate Run(ms: seq<Machine>, acts: seq<Action>) {
    |ms| == |acts| + 1 && ms[0] == START &&
    forall i :: 0 <= i < |acts| ==> Steps(ms[i], acts[i], ms[i + 1])
  }

  ghost predicate Steps(m: Machine, a: Action, n: Machine) {
    Enabled(m, a) && n == Next(m, a)
  }

  /** Disconnects survived are spaced, the last of them is the one remembered, and the loop never
      comes round with a connection still held. */
  ghost predicate Spaced(m: Machine) {
    (forall i :: 0 <= i < |m.survived| - 1 ==> m.survived[i + 1] - m.survived[i] >= HICCUP) &&
    (forall i :: 0 <= i < |m.survived| ==> m.survived[i] <= m.clock) &&
    (!m.pc.Returned? ==> m.c.lastDisconnect == if m.survived == [] then 0 else m.survived[|m.survived| - 1]) &&
    (m.pc.Connecting? ==> m.c.conn == None)
  }

  lemma StepSpaced(m: Machine, a: Action)
    requires Spaced(m) && Enabled(m, a)
    ensures Spaced(Next(m, a))
  {
  }

  lemma {:induction false} RunSpaced(ms: seq<Machine>, acts: seq<Action>, i: nat)
    requires Run(ms, acts) && i < |ms|
    ensures Spaced(ms[i])
    decreases i
  {
    if i > 0 {
      RunSpaced(ms, acts, i - 1);
      assert Steps(ms[i - 1], acts[i - 1], ms[i]);
      StepSpaced(ms[i - 1], acts[i - 1]);
    }
  }

  lemma {:induction false} Spread(ts: seq<Time>, i: nat, j: nat)
    requires i <= j < |ts|
    requires forall k :: 0 <= k < |ts| - 1 ==> ts[k + 1] - ts[k] >= HICCUP
    ensures ts[j] - ts[i] >= HICCUP * (j - i)
    decreases j
  {
    if i < j {
      Spread(ts, i, j - 1);
      assert ts[j - 1 + 1] - ts[j - 1] >= HICCUP;
    }
  }

  /** Any n disconnects in a row that Start survives take at least 5(n-1) seconds. */
  lemma ReconnectRate(ms: seq<Machine>, acts: seq<Action>, i: nat, j: nat, k: nat)
    requires Run(ms, acts) && i < |ms| && j <= k < |ms[i].survived|
    ensures ms[i].survived[k] - ms[i].survived[j] >= 5_000_000_000 * (k - j)
  {
    RunSpaced(ms, acts, i);
    Spread(ms[i].survived, j, k);
  }

  lemma Extend(ms: seq<Machine>, acts: seq<Action>, a: Action) returns (ms': seq<Machine>, acts': seq<Action>)
    requires Run(ms, acts) && Enabled(ms[|acts|], a)
    ensures Run(ms', acts') && ms'[|acts'|] == Next(ms[|acts|], a)
  {
    hide Next, Enabled;
    ms', acts' := ms + [Next(ms[|acts|], a)], acts + [a];
    forall i | 0 <= i < |acts'|
      ensures Steps(ms'[i], acts'[i], ms'[i + 1])
    {
      if i < |acts| {
        assert Steps(ms[i], acts[i], ms[i + 1]);
      }
    }
  }

  /** The bound is tight: Start can survive any number of sessions five seconds apart, each of them
      ended by Stop. */
  lemma {:induction false} RateTight(n: nat) returns (ms: seq<Machine>, acts: seq<Action>)
    ensures Run(ms, acts)
    ensures var m := ms[|acts|];
            m.pc.Connecting? && m.c == State(None, None, 5_000_000_000 * n) && m.clock == 5_000_000_000 * n &&
            m.survived == seq(n, i => 5_000_000_000 * (i + 1)) && m.closed == seq(n, i => i)
    decreases n
  {
    hide Steps;
    if n == 0 {
      ms, acts := [START], [];
    } else {
      ms, acts := RateTight(n - 1);
      ms, acts := Extend(ms, acts, Dials(Ok(n - 1)));
      ms, acts := Extend(ms, acts, Stops);
      ms, acts := Extend(ms, acts, ServeEnds(5_000_000_000 * n));
    }
  }

  /** And after any number of them it can return the error that the server reports. */
  lemma ReportReturned(n: nat, msg: string) returns (ms: seq<Machine>, acts: seq<Action>)
    ensures Run(ms, acts) && |ms[|acts|].survived| == n && ms[|acts|].pc == Returned(ServerError(msg))
  {
    hide Steps;
    ms, acts := RateTight(n);
    ms, acts := Extend(ms, acts, Dials(Ok(n)));
    ms, acts := Extend(ms, acts, Reports(msg));
    ms, acts := Extend(ms, acts, ServeEnds(ms[|acts|].clock));
  }

  /** However Stop and the reports fall, Start never finds itself already connected. */
  lemma {:induction false} NeverAlreadyConnected(ms: seq<Machine>, acts: seq<Action>, i: nat)
    requires Run(ms, acts) && i < |ms|
    ensures ms[i].pc != Returned(AlreadyConnected)
    decreases i
  {
    if i > 0 {
      NeverAlreadyConnected(ms, acts, i - 1);
      RunSpaced(ms, acts, i - 1);
      assert Steps(ms[i - 1], acts[i - 1], ms[i]);
    }
  }

  // ---- The connection held ----

  /** What the latest dial among the first i actions came to. */
  function LastDial(acts: seq<Action>, i: nat): Option<Result<Conn, DialError>>
    requires i <= |acts|
  {
    if i == 0 then None
    else if acts[i - 1].Dials? then Some(acts[i - 1].dial)
    else LastDial(acts, i - 1)
  }

  /** Stop has been called since the latest dial. */
  predicate StoppedSince(acts: seq<Action>, i: nat)
    requires i <= |acts|
  {
    i > 0 && !acts[i - 1].Dials? && (acts[i - 1].Stops? || StoppedSince(acts, i - 1))
  }

  /** While a session is served, its connection is the one dialed last, and the client holds it exactly
      until Stop is first called. */
  lemma {:induction false} ServingHeld(ms: seq<Machine>, acts: seq<Action>, i: nat)
    requires Run(ms, acts) && i < |ms| && ms[i].pc.Serving?
    ensures LastDial(acts, i) == Some(Ok(ms[i].pc.conn))
    ensures ms[i].c.conn == if StoppedSince(acts, i) then None else Some(ms[i].pc.conn)
    decreases i
  {
    assert i > 0 && Steps(ms[i - 1], acts[i - 1], ms[i]);
    if acts[i - 1].Dials? {
      RunSpaced(ms, acts, i - 1);
    } else {
      ServingHeld(ms, acts, i - 1);
    }
  }

  /** What a dial leads to: a session over the connection made, or Start's return with the error. */
  lemma DialLeads(ms: seq<Machine>, acts: seq<Action>, i: nat)
    requires Run(ms, acts) && i < |acts| && acts[i].Dials?
    ensures ms[i + 1].pc == match acts[i].dial
                            case Ok(conn) => Serving(conn)
                            case Err(e) => Returned(DialFailed(e))
    ensures ms[i + 1].c.conn == match acts[i].dial case Ok(conn) => Some(conn) case Err(_) => None
  {
    RunSpaced(ms, acts, i);
    assert Steps(ms[i], acts[i], ms[i + 1]);
  }

  /** While a session is served: the first Stop closes exactly its connection and later ones close
      nothing; and another attempt to connect is refused as long as Stop has not been called. */
  lemma ServingStops(ms: seq<Machine>, acts: seq<Action>, i: nat, dial: Result<Conn, DialError>)
    requires Run(ms, acts) && i < |ms| && ms[i].pc.Serving?
    ensures i < |acts| && acts[i].Stops? ==>
              ms[i + 1].closed == ms[i].closed + (if StoppedSince(acts, i) then [] else [ms[i].pc.conn]) &&
              ms[i + 1].c.conn == None
    ensures Connect(ms[i].c, dial) == (ms[i].c, Err(AlreadyConnected)) <==> !StoppedSince(acts, i)
  {
    ServingHeld(ms, acts, i);
    if i < |acts| {
      assert Steps(ms[i], acts[i], ms[i + 1]);
    }
  }

  // ---- Server errors ----

  /** The latest error reported among the first i actions since a session last ended. */
  function LastReport(acts: seq<Action>, i: nat): Option<string>
    requires i <= |acts|
  {
    if i == 0 then None
    else
      match acts[i - 1]
      case Reports(msg) => Some(msg)
      case ServeEnds(_) => None
      case _ => LastReport(acts, i - 1)
  }

  lemma {:induction false} ReportKept(ms: seq<Machine>, acts: seq<Action>, i: nat)
    requires Run(ms, acts) && i < |ms|
    ensures ms[i].c.serverErr == LastReport(acts, i)
    decreases i
  {
    if i > 0 {
      ReportKept(ms, acts, i - 1);
      assert Steps(ms[i - 1], acts[i - 1], ms[i]);
    }
  }

  /** How a session's end is answered: with the latest report since the session before ended, if
      there was one; else as being cut if the disconnect survived before is under five seconds ago
      (or the zero time is); and otherwise by going round again.  The connection and the report are
      forgotten either way. */
  lemma SessionEnd(ms: seq<Machine>, acts: seq<Action>, i: nat)
    requires Run(ms, acts) && i < |acts| && acts[i].ServeEnds?
    ensures var last := if ms[i].survived == [] then 0 else ms[i].survived[|ms[i].survived| - 1];
            ms[i + 1].pc == match LastReport(acts, i)
                            case Some(msg) => Returned(ServerError(msg))
                            case None =>
                              if acts[i].now - last < 5_000_000_000 then Returned(BeingCut) else Connecting
    ensures ms[i + 1].c == State(None, None, acts[i].now)
  {
    RunSpaced(ms, acts, i);
    ReportKept(ms, acts, i);
    assert Steps(ms[i], acts[i], ms[i + 1]);
  }
}
