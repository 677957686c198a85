/** The event loop of handleResponses: decoder events go to the session, a finished
    tool turn is saved before its completion is written, and the lease of a
    continuation is committed on the first event. What comes from outside, the
    watcher, the request context and the answers of the store, is an argument. */
module HandlerSpec {
  import opened Bridge
  import opened SessionSpec

  /** Why the watcher ended the stream. */
  datatype Abort = NoAbort | IdleTimeout | Stopped

  /** What one round of the loop meets: the watcher's reason, then the request
      context at each of its checks (true means canceled), and what SaveContext and
      CommitContext answer. */
  datatype Moment = Moment(abort: Abort, canceled: bool, save: Attempt, commit: Attempt)

  datatype Attempt = Attempt(canceledBefore: bool, ok: bool, canceledAfter: bool)

  /** What SaveContext has retained, and how many frames had been written by then. */
  datatype Saved = Saved(turn: PendingTurn, at: nat)

  /** committedAt is the number of frames written when the lease was committed. */
  datatype Handler = Handler(session: State, committedAt: Option<nat>, saved: Option<Saved>)

  datatype Progress = Over(h: Handler) | Going(h: Handler)

  function Written(h: Handler): nat {
    |h.session.wire.frames|
  }

  function WithSession(h: Handler, s: State): Handler {
    h.(session := s)
  }

  /** session.Fail, unless the stream has ended or a write has failed. */
  function Fail(c: Config, h: Handler, code: FailureCode): Handler {
    if h.session.flags.terminal || h.session.flags.failed then h
    else WithSession(h, Handle(c, h.session, Failed(code)).st)
  }

  /** One round of the loop; event is None at the end of the decoder's stream. */
  function Round(c: Config, leased: bool, turn: Option<PendingTurn>, h: Handler, event: Option<Event>,
                 m: Moment): Progress {
    if m.abort != NoAbort then
      Over(if m.abort == IdleTimeout && !m.canceled then Fail(c, h, StreamTimeout) else h)
    else if m.canceled || h.session.flags.failed then Over(h)
    else if event.None? then Over(Fail(c, h, UpstreamEof))
    else if event.value.Completed? && m.save.canceledBefore then Over(h)
    else if event.value.Completed? && turn.Some? then
      if m.save.ok then Deliver(c, leased, h.(saved := Some(Saved(turn.value, Written(h)))), event.value, m)
      else Over(if m.save.canceledAfter then h else Fail(c, h, ContinuationCapacity))
    else Deliver(c, leased, h, event.value, m)
  }

  /** The rest of the round: the session handles the event, the lease is committed. */
  function Deliver(c: Config, leased: bool, h: Handler, e: Event, m: Moment): Progress {
    var o := Handle(c, h.session, e);
    var h1 := WithSession(h, o.st);
    if o.err != NoError then Over(h1)
    else if leased && h1.committedAt.None? && e.ResponseStarted? then
      if m.commit.canceledBefore then Over(h1)
      else if m.commit.ok then Settle(h1.(committedAt := Some(Written(h1))))
      else Over(if m.commit.canceledAfter then h1 else Fail(c, h1, ContinuationCommit))
    else Settle(h1)
  }

  function Settle(h: Handler): Progress {
    if h.session.flags.terminal then Over(h) else Going(h)
  }

  /** The loop; there is a moment for every event and one for the end of the stream. */
  function Serve(c: Config, leased: bool, turn: Option<PendingTurn>, h: Handler, events: seq<Event>,
                 moments: seq<Moment>): Handler
    requires |moments| > |events|
    decreases |events|
  {
    var p := Round(c, leased, turn, h, if events == [] then None else Some(events[0]), moments[0]);
    if p.Over? || events == [] then p.h else Serve(c, leased, turn, p.h, events[1..], moments[1..])
  }

  /** The session has been started; nothing else has happened. */
  function Begun(s: State): Handler {
    Handler(s, None, None)
  }
}
