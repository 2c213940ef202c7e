/** The byte stream of an upgraded connection: the bytes already read from it go down a pipe first,
    then whatever else it sends, while the other end of the pipe is read on the client's behalf and
    the pipe may be closed at any moment.

    A pipe hands bytes over when a write and a read meet.  Both first check that the pipe is open;
    a write or read that has passed the check may still meet its partner after the pipe has been
    closed, or give up. */
module Upgrade {

  import opened Prelude

  /** The goroutine that writes the request bytes and then signals. */
  datatype First = Unstarted | Writing(rest: seq<Byte>) | Written | Signalled

  /** The goroutine that waits for the signal and copies the connection; last marks the chunk that
      came with the end of the connection. */
  datatype Second =
    | Waiting
    | Reading
    | Got(chunk: seq<Byte>, last: bool)
    | Copying(left: seq<Byte>, last: bool)
    | Stopped

  /** received is everything read from the connection, delivered everything read from the pipe. */
  datatype State = State(
    first: First,
    second: Second,
    reading: bool,
    closed: bool,
    received: seq<Byte>,
    delivered: seq<Byte>
  )

  const INIT: State := State(Unstarted, Waiting, false, false, [], [])

  datatype Action =
    | StartFirst
    | GiveUpFirst
    | Signal
    | Receive(chunk: seq<Byte>, last: bool)
    | StartCopy
    | GiveUpCopy
    | StartRead
    | GiveUpRead
    | MeetFirst(n: nat)
    | MeetCopy(n: nat)
    | Close

  predicate Enabled(s: State, a: Action) {
    match a
    case StartFirst => s.first.Unstarted?
    case GiveUpFirst => s.first.Writing? && s.closed
    case Signal => s.first.Written? && s.second.Waiting?
    case Receive(_, _) => s.second.Reading?
    case StartCopy => s.second.Got?
    case GiveUpCopy => s.second.Copying? && s.closed
    case StartRead => !s.reading && !s.closed
    case GiveUpRead => s.reading && s.closed
    case MeetFirst(n) => s.reading && s.first.Writing? && n <= |s.first.rest|
    case MeetCopy(n) => s.reading && s.second.Copying? && n <= |s.second.left|
    case Close => true
  }

  function AfterChunk(last: bool): Second {
    if last then Stopped else Reading
  }

  function Next(request: seq<Byte>, s: State, a: Action): State
    requires Enabled(s, a)
  {
    match a
    case StartFirst => s.(first := if s.closed then Written else Writing(request))
    case GiveUpFirst => s.(first := Written)
    case Signal => s.(first := Signalled, second := Reading)
    case Receive(chunk, last) =>
      s.(received := s.received + chunk, second := if chunk == [] then AfterChunk(last) else Got(chunk, last))
    case StartCopy => s.(second := if s.closed then Stopped else Copying(s.second.chunk, s.second.last))
    case GiveUpCopy => s.(second := Stopped)
    case StartRead => s.(reading := true)
    case GiveUpRead => s.(reading := false)
    case MeetFirst(n) =>
      var rest := s.first.rest[n..];
      s.(first := if rest == [] then Written else Writing(rest),
         reading := false, delivered := s.delivered + s.first.rest[..n])
    case MeetCopy(n) =>
      var left := s.second.left[n..];
      s.(second := if left == [] then AfterChunk(s.second.last) else Copying(left, s.second.last),
         reading := false, delivered := s.delivered + s.second.left[..n])
    case Close => s.(closed := true)
  }

  /** The stream the client is meant to see, as far as it has been received. */
  function Stream(request: seq<Byte>, s: State): seq<Byte> {
    request + s.received
  }

  /** Between writes: everything has been delivered, or the pipe was closed part way. */
  predicate Between(s: State, sent: seq<Byte>) {
    s.delivered == sent || (s.closed && s.delivered <= sent)
  }

  /** Where the stream stands, by what the two writers are doing; at most one is in a write. */
  predicate InOrder(request: seq<Byte>, s: State) {
    match s.first
    case Unstarted => s.second.Waiting? && s.received == [] && s.delivered == []
    case Writing(rest) => s.second.Waiting? && s.received == [] && s.delivered + rest == request
    case Written => s.second.Waiting? && s.received == [] && Between(s, request)
    case Signalled =>
      match s.second
      case Waiting => false
      case Reading => Between(s, Stream(request, s))
      case Got(chunk, _) =>
        s.delivered + chunk == Stream(request, s) || (s.closed && s.delivered <= Stream(request, s))
      case Copying(left, _) => s.delivered + left == Stream(request, s)
      case Stopped => Between(s, Stream(request, s))
  }

  lemma PrefixGrows(a: seq<Byte>, b: seq<Byte>, c: seq<Byte>)
    requires a <= b
    ensures a <= b + c
  {
  }

  /** Handing over the first n pending bytes leaves sent and pending bytes together the same. */
  lemma HandOver(sent: seq<Byte>, pending: seq<Byte>, n: nat)
    requires n <= |pending|
    ensures sent + pending[..n] + pending[n..] == sent + pending
    ensures pending[n..] == [] ==> sent + pending[..n] == sent + pending
  {
  }

  lemma MeetInOrder(request: seq<Byte>, s: State, a: Action)
    requires InOrder(request, s) && Enabled(s, a) && (a.MeetFirst? || a.MeetCopy?)
    ensures InOrder(request, Next(request, s, a))
  {
    HandOver(s.delivered, if a.MeetFirst? then s.first.rest else s.second.left, a.n);
  }

  lemma ReceiveInOrder(request: seq<Byte>, s: State, a: Action)
    requires InOrder(request, s) && Enabled(s, a) && a.Receive?
    ensures InOrder(request, Next(request, s, a))
  {
  }

  lemma StepInOrder(request: seq<Byte>, s: State, a: Action)
    requires InOrder(request, s) && Enabled(s, a)
    ensures InOrder(request, Next(request, s, a))
  {
    if a.MeetFirst? || a.MeetCopy? {
      MeetInOrder(request, s, a);
    } else if a.Receive? {
      ReceiveInOrder(request, s, a);
    } else {
      assert a.Signal? ==> Stream(request, s) == request;
      assert [] + request == request;
    }
  }

  ghost predicate Run(request: seq<Byte>, ss: seq<State>, acts: seq<Action>) {
    |ss| == |acts| + 1 && ss[0] == INIT &&
    forall i :: 0 <= i < |acts| ==> Steps(request, ss[i], acts[i], ss[i + 1])
  }

  ghost predicate Steps(request: seq<Byte>, s: State, a: Action, t: State) {
    Enabled(s, a) && t == Next(request, s, a)
  }

  lemma {:induction false} RunInOrder(request: seq<Byte>, ss: seq<State>, acts: seq<Action>, i: nat)
    requires Run(request, ss, acts) && i < |ss|
    ensures InOrder(request, ss[i])
    decreases i
  {
    hide Next, Enabled;
    if i > 0 {
      RunInOrder(request, ss, acts, i - 1);
      assert Steps(request, ss[i - 1], acts[i - 1], ss[i]);
      StepInOrder(request, ss[i - 1], acts[i - 1]);
    }
  }

  /** Under every interleaving and every early close, the client sees a prefix of the request bytes
      followed by the bytes read from the connection: nothing is reordered, repeated or skipped. */
  lemma DeliveredPrefix(request: seq<Byte>, ss: seq<State>, acts: seq<Action>, i: nat)
    requires Run(request, ss, acts) && i < |ss|
    ensures ss[i].delivered <= request + ss[i].received
    ensures !(ss[i].first.Writing? && ss[i].second.Copying?)
  {
    RunInOrder(request, ss, acts, i);
    var s := ss[i];
    hide Run;
    if s.delivered <= request {
      PrefixGrows(s.delivered, request, s.received);
    }
  }

  /** While the pipe is open nothing is lost: whenever the copy goes back to the connection for
      more, and when the connection has ended, everything so far has been delivered. */
  lemma NothingLost(request: seq<Byte>, ss: seq<State>, acts: seq<Action>, i: nat)
    requires Run(request, ss, acts) && i < |ss|
    requires !ss[i].closed && (ss[i].second.Reading? || ss[i].second.Stopped?)
    ensures ss[i].delivered == request + ss[i].received
  {
    RunInOrder(request, ss, acts, i);
  }

  // ---- When the two writers are done ----

  /** The end of the connection is among the first i actions. */
  predicate Ended(acts: seq<Action>, i: nat)
    requires i <= |acts|
  {
    exists j :: 0 <= j < i && IsEnd(acts[j])
  }

  predicate IsEnd(a: Action) {
    a.Receive? && a.last
  }

  /** The request bytes have been written, at least in part, among the first i actions. */
  predicate Met(acts: seq<Action>, i: nat)
    requires i <= |acts|
  {
    exists j :: 0 <= j < i && acts[j].MeetFirst?
  }

  /** With the pipe open, the copy is past the end of the connection exactly if that end has been read,
      and a write under way has something to hand over. */
  predicate OnTime(request: seq<Byte>, s: State, ended: bool, met: bool) {
    !s.closed ==>
      (s.second.Got? ==> 0 < |s.second.chunk| <= |s.received| && s.second.last == ended) &&
      (s.second.Copying? ==> 0 < |s.second.left| <= |s.received| && s.second.last == ended) &&
      (s.second.Stopped? ==> ended) && (s.second.Reading? || s.second.Waiting? ==> !ended) &&
      (s.first.Writing? ==> if met then s.first.rest != [] else s.first.rest == request) &&
      (s.first.Unstarted? ==> !met) && (s.first.Written? || s.first.Signalled? ==> met)
  }

  lemma StepOnTime(request: seq<Byte>, s: State, a: Action, ended: bool, met: bool)
    requires InOrder(request, s) && OnTime(request, s, ended, met) && Enabled(s, a)
    ensures OnTime(request, Next(request, s, a), ended || IsEnd(a), met || a.MeetFirst?)
  {
  }

  lemma {:induction false} RunOnTime(request: seq<Byte>, ss: seq<State>, acts: seq<Action>, i: nat)
    requires Run(request, ss, acts) && i < |ss|
    ensures OnTime(request, ss[i], Ended(acts, i), Met(acts, i))
    decreases i
  {
    hide Next, Enabled, InOrder, OnTime, IsEnd;
    if i == 0 {
      InitOnTime(request);
    } else {
      var n := i - 1;
      RunOnTime(request, ss, acts, n);
      RunInOrder(request, ss, acts, n);
      assert Steps(request, ss[n], acts[n], ss[i]);
      StepOnTime(request, ss[n], acts[n], Ended(acts, n), Met(acts, n));
      assert Ended(acts, i) <==> Ended(acts, n) || IsEnd(acts[n]);
      assert Met(acts, i) <==> Met(acts, n) || acts[n].MeetFirst?;
    }
  }

  lemma InitOnTime(request: seq<Byte>)
    ensures OnTime(request, INIT, false, false)
  {
  }

  /** What is pending shows in the length of the stream. */
  lemma Pending(s: State)
    ensures s.first.Writing? ==> |s.delivered + s.first.rest| == |s.delivered| + |s.first.rest|
    ensures s.second.Got? ==> |s.delivered + s.second.chunk| == |s.delivered| + |s.second.chunk|
    ensures s.second.Copying? ==> |s.delivered + s.second.left| == |s.delivered| + |s.second.left|
  {
  }

  /** While the pipe is open, the copy has stopped exactly if the end of the connection has been read
      and all that came from the connection has been handed over. */
  lemma StoppedIff(request: seq<Byte>, ss: seq<State>, acts: seq<Action>, i: nat)
    requires Run(request, ss, acts) && i < |ss| && !ss[i].closed
    ensures ss[i].second.Stopped? <==> Ended(acts, i) && ss[i].delivered == request + ss[i].received
  {
    RunOnTime(request, ss, acts, i);
    RunInOrder(request, ss, acts, i);
    Pending(ss[i]);
    hide Run;
  }

  /** While the pipe is open, the copy is back at the connection exactly if the end has not been read,
      the request bytes' writer has signalled, and all that came so far has been handed over. */
  lemma ReadingIff(request: seq<Byte>, ss: seq<State>, acts: seq<Action>, i: nat)
    requires Run(request, ss, acts) && i < |ss| && !ss[i].closed
    ensures ss[i].second.Reading? <==>
            ss[i].first.Signalled? && !Ended(acts, i) && ss[i].delivered == request + ss[i].received
  {
    RunOnTime(request, ss, acts, i);
    RunInOrder(request, ss, acts, i);
    Pending(ss[i]);
    hide Run;
  }

  /** While the pipe is open, the request bytes' writer is done exactly if the reader has met it and the
      request bytes have all been handed over. */
  lemma WrittenIff(request: seq<Byte>, ss: seq<State>, acts: seq<Action>, i: nat)
    requires Run(request, ss, acts) && i < |ss| && !ss[i].closed
    ensures ss[i].first.Written? || ss[i].first.Signalled? <==> Met(acts, i) && request <= ss[i].delivered
  {
    RunOnTime(request, ss, acts, i);
    RunInOrder(request, ss, acts, i);
    Pending(ss[i]);
    DeliveredPrefix(request, ss, acts, i);
    hide Run;
    var s := ss[i];
    if s.first.Signalled? && |s.delivered| >= |request| {
      assert s.delivered[..|request|] == (request + s.received)[..|request|] == request;
    }
  }

  // ---- Closing ----

  predicate ClosedBefore(acts: seq<Action>, i: nat)
    requires i <= |acts|
  {
    exists j :: 0 <= j < i && acts[j].Close?
  }

  /** Reads begun among the first i actions, less those that met a write or gave up. */
  function ReadsOut(acts: seq<Action>, i: nat): int
    requires i <= |acts|
  {
    if i == 0 then 0
    else
      ReadsOut(acts, i - 1) +
      match acts[i - 1]
      case StartRead => 1
      case GiveUpRead => -1
      case MeetFirst(_) => -1
      case MeetCopy(_) => -1
      case _ => 0
  }

  /** The pipe is closed from the first Close on, and every hand-over uses up a read of its own. */
  lemma {:induction false} PipeState(request: seq<Byte>, ss: seq<State>, acts: seq<Action>, i: nat)
    requires Run(request, ss, acts) && i < |ss|
    ensures ss[i].closed <==> ClosedBefore(acts, i)
    ensures ReadsOut(acts, i) == if ss[i].reading then 1 else 0
    decreases i
  {
    if i > 0 {
      PipeState(request, ss, acts, i - 1);
      assert Steps(request, ss[i - 1], acts[i - 1], ss[i]);
      assert ClosedBefore(acts, i) <==> ClosedBefore(acts, i - 1) || acts[i - 1].Close?;
    }
  }

  /** After the pipe is closed, at most the read then under way is served: without one nothing more is
      delivered. */
  lemma {:induction false} ClosedDelivers(request: seq<Byte>, ss: seq<State>, acts: seq<Action>, i: nat, k: nat)
    requires Run(request, ss, acts) && i <= k < |ss| && ClosedBefore(acts, i) && !ss[i].reading
    ensures ss[k].delivered == ss[i].delivered && !ss[k].reading
    decreases k
  {
    if i < k {
      ClosedDelivers(request, ss, acts, i, k - 1);
      assert Steps(request, ss[k - 1], acts[k - 1], ss[k]);
      PipeState(request, ss, acts, k - 1);
      var j :| 0 <= j < i && acts[j].Close?;
      assert ClosedBefore(acts, k - 1);
    }
  }

  /** A write begun after the close hands over nothing: once closed, with no write under way, nothing
      more is delivered. */
  lemma {:induction false} ClosedWrites(request: seq<Byte>, ss: seq<State>, acts: seq<Action>, i: nat, k: nat)
    requires Run(request, ss, acts) && i <= k < |ss| && ClosedBefore(acts, i)
    requires !ss[i].first.Writing? && !ss[i].second.Copying?
    ensures ss[k].delivered == ss[i].delivered && !ss[k].first.Writing? && !ss[k].second.Copying?
    decreases k
  {
    if i < k {
      ClosedWrites(request, ss, acts, i, k - 1);
      assert Steps(request, ss[k - 1], acts[k - 1], ss[k]);
      PipeState(request, ss, acts, k - 1);
      var j :| 0 <= j < i && acts[j].Close?;
      assert ClosedBefore(acts, k - 1);
    }
  }

  /** The copy has failed to write: it found the pipe closed, or gave up when it was. */
  predicate Failed(ss: seq<State>, acts: seq<Action>, i: nat)
    requires |ss| == |acts| + 1 && i <= |acts|
  {
    exists j :: 0 <= j < i && Fails(ss[j], acts[j])
  }

  predicate Fails(s: State, a: Action) {
    a.GiveUpCopy? || (a.StartCopy? && s.closed)
  }

  /** Whatever becomes of the pipe, the copy has stopped exactly if it failed to write, or it has read
      the end of the connection and holds no chunk any more. */
  lemma {:induction false} CopyStoppedIff(request: seq<Byte>, ss: seq<State>, acts: seq<Action>, i: nat)
    requires Run(request, ss, acts) && i < |ss|
    ensures ss[i].second.Stopped? <==>
            Failed(ss, acts, i) || (Ended(acts, i) && !ss[i].second.Got? && !ss[i].second.Copying?)
    ensures ss[i].second.Got? ==> ss[i].second.last == Ended(acts, i)
    ensures ss[i].second.Copying? ==> ss[i].second.last == Ended(acts, i)
    decreases i
  {
    if i > 0 {
      var n := i - 1;
      CopyStoppedIff(request, ss, acts, n);
      assert Steps(request, ss[n], acts[n], ss[i]);
      assert Ended(acts, i) <==> Ended(acts, n) || IsEnd(acts[n]);
      assert Failed(ss, acts, i) <==> Failed(ss, acts, n) || Fails(ss[n], acts[n]);
    }
  }

  /** The request bytes' write has come to its end: it gave up, found the pipe closed, or handed over
      the last of them. */
  predicate WriteEnds(s: State, a: Action) {
    a.GiveUpFirst? || (a.StartFirst? && s.closed) || (a.MeetFirst? && s.first.Writing? && a.n == |s.first.rest|)
  }

  predicate WriteEnded(ss: seq<State>, acts: seq<Action>, i: nat)
    requires |ss| == |acts| + 1 && i <= |acts|
  {
    exists j :: 0 <= j < i && WriteEnds(ss[j], acts[j])
  }

  /** Whatever becomes of the pipe, the first writer is done from the end of its write on, and is then
      free to signal until it has. */
  lemma {:induction false} FirstDoneIff(request: seq<Byte>, ss: seq<State>, acts: seq<Action>, i: nat)
    requires Run(request, ss, acts) && i < |ss|
    ensures ss[i].first.Written? || ss[i].first.Signalled? <==> WriteEnded(ss, acts, i)
    ensures WriteEnded(ss, acts, i) ==> (ss[i].first.Signalled? <==> !ss[i].second.Waiting?)
    decreases i
  {
    if i > 0 {
      var n := i - 1;
      FirstDoneIff(request, ss, acts, n);
      RunInOrder(request, ss, acts, n);
      assert Steps(request, ss[n], acts[n], ss[i]);
      assert WriteEnded(ss, acts, i) <==> WriteEnded(ss, acts, n) || WriteEnds(ss[n], acts[n]);
    }
  }

  // ---- Every stream can be delivered ----

  lemma Extend(request: seq<Byte>, ss: seq<State>, acts: seq<Action>, a: Action)
    returns (ss': seq<State>, acts': seq<Action>)
    requires Run(request, ss, acts) && Enabled(ss[|acts|], a)
    ensures Run(request, ss', acts') && ss'[|acts'|] == Next(request, ss[|acts|], a)
  {
    hide Next, Enabled;
    ss', acts' := ss + [Next(request, ss[|acts|], a)], acts + [a];
    forall i | 0 <= i < |acts'|
      ensures Steps(request, ss'[i], acts'[i], ss'[i + 1])
    {
      if i < |acts| {
        assert Steps(request, ss[i], acts[i], ss[i + 1]);
      }
    }
  }

  /** The state once so much has been received and handed over with the pipe open. */
  function Quiescent(request: seq<Byte>, second: Second, received: seq<Byte>): State {
    State(Signalled, second, false, false, received, request + received)
  }

  /** The request bytes are written and the copy is at the connection. */
  lemma Begin(request: seq<Byte>) returns (ss: seq<State>, acts: seq<Action>)
    ensures Run(request, ss, acts) && ss[|acts|] == Quiescent(request, Reading, [])
  {
    hide Steps;
    ss, acts := [INIT], [];
    ss, acts := Extend(request, ss, acts, StartFirst);
    ss, acts := Extend(request, ss, acts, StartRead);
    assert request[..|request|] == request && request[|request|..] == [];
    ss, acts := Extend(request, ss, acts, MeetFirst(|request|));
    ss, acts := Extend(request, ss, acts, Signal);
    assert [] + request == request + [];
  }

  /** One more chunk comes and is handed over; unless it was the last, the copy is back at the
      connection. */
  lemma Pass(request: seq<Byte>, ss0: seq<State>, acts0: seq<Action>, received: seq<Byte>, chunk: seq<Byte>,
             last: bool) returns (ss: seq<State>, acts: seq<Action>)
    requires Run(request, ss0, acts0) && ss0[|acts0|] == Quiescent(request, Reading, received)
    ensures Run(request, ss, acts)
    ensures ss[|acts|] == Quiescent(request, if last then Stopped else Reading, received + chunk)
  {
    hide Steps;
    ss, acts := Extend(request, ss0, acts0, Receive(chunk, last));
    if chunk != [] {
      ss, acts := Extend(request, ss, acts, StartCopy);
      ss, acts := Extend(request, ss, acts, StartRead);
      assert chunk[..|chunk|] == chunk && chunk[|chunk|..] == [];
      ss, acts := Extend(request, ss, acts, MeetCopy(|chunk|));
      assert request + received + chunk == request + (received + chunk);
    } else {
      assert received + chunk == received;
    }
  }

  function Flat(chunks: seq<seq<Byte>>): seq<Byte> {
    if chunks == [] then [] else Flat(chunks[..|chunks| - 1]) + chunks[|chunks| - 1]
  }

  /** Whatever the connection sends, in however many chunks, there is a run with the pipe open that
      hands over all of it after the request bytes, and in which the copy stops after the last chunk
      and waits for more after every other. */
  lemma {:induction false} Completes(request: seq<Byte>, chunks: seq<seq<Byte>>, k: nat)
    returns (ss: seq<State>, acts: seq<Action>)
    requires k <= |chunks|
    ensures Run(request, ss, acts)
    ensures ss[|acts|] ==
            Quiescent(request, if 0 < k == |chunks| then Stopped else Reading, Flat(chunks[..k]))
    decreases k
  {
    hide Run, Quiescent;
    if k == 0 {
      ss, acts := Begin(request);
    } else {
      ss, acts := Completes(request, chunks, k - 1);
      assert chunks[..k][..k - 1] == chunks[..k - 1];
      ss, acts := Pass(request, ss, acts, Flat(chunks[..k - 1]), chunks[k - 1], k == |chunks|);
    }
  }
}
