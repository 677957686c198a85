/** What the order of the handler's effects guarantees. */
module HandlerTheorems {
  import opened Bridge
  import opened HandlerSpec
  import opened SessionSpec

  // ----- frames only accumulate -----

  predicate Extends(a: Handler, b: Handler) {
    && a.session.wire.frames <= b.session.wire.frames
    && (a.committedAt.Some? ==> b.committedAt == a.committedAt)
    && (a.saved.Some? ==> b.saved.Some?)
  }

  // ----- what may be written before the lease is committed -----

  /** created, in_progress and failed: nothing of the response itself. */
  predicate Plain(body: Body) {
    body.CreatedFrame? || body.InProgressFrame? || (body.TerminalFrame? && body.ending.EndFailed?)
  }

  predicate AllPlain(frames: seq<Frame>) {
    forall i :: 0 <= i < |frames| ==> Plain(frames[i].body)
  }

  /** A session without items that fails writes at most one failed frame. */
  lemma FailedPlain(c: Config, s: State, code: FailureCode)
    requires s.flags.started && s.table.items == [] && AllPlain(s.wire.frames)
    ensures AllPlain(Handle(c, s, Failed(code)).st.wire.frames)
    ensures Handle(c, s, Failed(code)).err == NoError ==> Handle(c, s, Failed(code)).st.flags.terminal
  {
  }

  lemma FailPlain(c: Config, h: Handler, code: FailureCode)
    requires h.session.flags.started && h.session.table.items == [] && AllPlain(h.session.wire.frames)
    ensures AllPlain(Fail(c, h, code).session.wire.frames) && Fail(c, h, code).committedAt == h.committedAt
  {
    FailedPlain(c, h.session, code);
  }

  lemma StartPlain(c: Config, model: string)
    requires Start(c, Initial(model)).err == NoError
    ensures var s := Start(c, Initial(model)).st;
      s.flags.started && s.table.items == [] && AllPlain(s.wire.frames) && !s.flags.terminal && !s.flags.failed
  {
  }

  /** Before the commit: a started session without items, and plain frames only. */
  predicate Waiting(h: Handler) {
    && h.committedAt.None? && h.session.flags.started && h.session.table.items == []
    && AllPlain(h.session.wire.frames)
  }

  /** The frames up to the commit, or all of them if there was none, are plain. */
  predicate CommittedFirst(h: Handler) {
    match h.committedAt
    case None => AllPlain(h.session.wire.frames)
    case Some(n) => n <= |h.session.wire.frames| && AllPlain(h.session.wire.frames[..n])
  }

  lemma FailKeeps(c: Config, h: Handler, code: FailureCode)
    ensures Extends(h, Fail(c, h, code)) && Fail(c, h, code).committedAt == h.committedAt
    ensures Fail(c, h, code).saved == h.saved
  {
  }

  lemma DeliverKeeps(c: Config, leased: bool, h: Handler, e: Event, m: Moment)
    ensures h.session.wire.frames <= Deliver(c, leased, h, e, m).h.session.wire.frames
    ensures h.committedAt.Some? ==> Deliver(c, leased, h, e, m).h.committedAt == h.committedAt
    ensures Deliver(c, leased, h, e, m).h.saved == h.saved
  {
    FailKeeps(c, WithSession(h, Handle(c, h.session, e).st), ContinuationCommit);
  }

  lemma RoundKeeps(c: Config, leased: bool, turn: Option<PendingTurn>, h: Handler, event: Option<Event>, m: Moment)
    ensures h.session.wire.frames <= Round(c, leased, turn, h, event, m).h.session.wire.frames
    ensures h.committedAt.Some? ==> Round(c, leased, turn, h, event, m).h.committedAt == h.committedAt
  {
    FailKeeps(c, h, StreamTimeout);
    FailKeeps(c, h, UpstreamEof);
    FailKeeps(c, h, ContinuationCapacity);
    if event.Some? {
      DeliverKeeps(c, leased, h, event.value, m);
      if turn.Some? {
        DeliverKeeps(c, leased, h.(saved := Some(Saved(turn.value, Written(h)))), event.value, m);
      }
    }
  }

  lemma {:induction false} ServeKeeps(c: Config, leased: bool, turn: Option<PendingTurn>, h: Handler,
                                      events: seq<Event>, moments: seq<Moment>)
    requires |moments| > |events|
    ensures h.session.wire.frames <= Serve(c, leased, turn, h, events, moments).session.wire.frames
    ensures h.committedAt.Some? ==> Serve(c, leased, turn, h, events, moments).committedAt == h.committedAt
    decreases |events|
  {
    RoundKeeps(c, leased, turn, h, if events == [] then None else Some(events[0]), moments[0]);
    var p := Round(c, leased, turn, h, if events == [] then None else Some(events[0]), moments[0]);
    if p.Going? && events != [] {
      ServeKeeps(c, leased, turn, p.h, events[1..], moments[1..]);
    }
  }

  /** The first round, before anything is committed. */
  lemma FirstRound(c: Config, turn: Option<PendingTurn>, h: Handler, e: Event, m: Moment)
    requires Waiting(h) && (e.ResponseStarted? || e.Failed?)
    ensures var p := Round(c, true, turn, h, Some(e), m);
      CommittedFirst(p.h) && (p.Going? ==> p.h.committedAt.Some?)
  {
    FailPlain(c, h, StreamTimeout);
    if e.ResponseStarted? {
      assert Handle(c, h.session, e).st == h.session;
      FailPlain(c, h, ContinuationCommit);
    } else {
      FailedPlain(c, h.session, e.code);
    }
  }

  /** How a decoder's output begins. */
  predicate StartsProperly(events: seq<Event>) {
    events != [] && (events[0].ResponseStarted? || (events[0].Failed? && |events| == 1))
  }

  /** Commit before output: with a lease, every frame written before the commit is
      created, in_progress or failed; if the lease is never committed, so that the
      deferred Abort reopens the turn, these are all the frames there are. */
  lemma CommitBeforeOutput(c: Config, turn: Option<PendingTurn>, h: Handler, events: seq<Event>, moments: seq<Moment>)
    requires Waiting(h) && StartsProperly(events) && |moments| > |events|
    ensures CommittedFirst(Serve(c, true, turn, h, events, moments))
  {
    FirstRound(c, turn, h, events[0], moments[0]);
    var p := Round(c, true, turn, h, Some(events[0]), moments[0]);
    if p.Going? {
      ServeKeeps(c, true, turn, p.h, events[1..], moments[1..]);
      PlainPrefix(p.h, Serve(c, true, turn, p.h, events[1..], moments[1..]));
    }
  }

  lemma PlainPrefix(a: Handler, b: Handler)
    requires a.committedAt.Some? && CommittedFirst(a) && Extends(a, b.(saved := a.saved))
    ensures CommittedFirst(b)
  {
    var n := a.committedAt.value;
    assert b.session.wire.frames[..n] == a.session.wire.frames[..n];
  }
}
