/** The event loop of handleResponses, driving a real session object. */
module ResponsesHandler {
  import opened Bridge
  import opened HandlerSpec
  import opened SessionSpec
  import opened StreamSession

  /** session.Fail, unless the stream has ended or a write has failed. */
  method FailStream(session: Session, code: FailureCode, ghost h: Handler)
    requires h.session == session.State()
    modifies session
    ensures WithSession(h, session.State()) == Fail(session.config, h, code)
  {
    if !session.terminalEmitted && !session.writeFailed {
      var _ := session.Handle(Failed(code));
    }
  }

  /** One round of the loop. done tells that the handler returns. */
  method ServeEvent(session: Session, leased: bool, turn: Option<PendingTurn>, event: Option<Event>, m: Moment,
                    committedBefore: Option<nat>, savedBefore: Option<Saved>)
    returns (done: bool, committedAt: Option<nat>, saved: Option<Saved>)
    modifies session
    ensures var h := Handler(session.State(), committedAt, saved);
      Round(session.config, leased, turn, Handler(old(session.State()), committedBefore, savedBefore), event, m)
        == if done then Over(h) else Going(h)
  {
    ghost var h := Handler(session.State(), committedBefore, savedBefore);
    committedAt, saved := committedBefore, savedBefore;
    if m.abort != NoAbort {
      if m.abort == IdleTimeout && !m.canceled {
        FailStream(session, StreamTimeout, h);
      }
      return true, committedAt, saved;
    }
    if m.canceled || session.writeFailed {
      return true, committedAt, saved;
    }
    if event.None? {
      FailStream(session, UpstreamEof, h);
      return true, committedAt, saved;
    }
    if event.value.Completed? {
      if m.save.canceledBefore {
        return true, committedAt, saved;
      }
      if turn.Some? {
        if !m.save.ok {
          if !m.save.canceledAfter {
            FailStream(session, ContinuationCapacity, h);
          }
          return true, committedAt, saved;
        }
        saved := Some(Saved(turn.value, |session.frames|));
      }
    }
    done, committedAt := DeliverEvent(session, leased, event.value, m, committedAt, saved);
  }

  /** The rest of the round: handle the event, then commit the lease. */
  method DeliverEvent(session: Session, leased: bool, event: Event, m: Moment, committedBefore: Option<nat>,
                      ghost saved: Option<Saved>)
    returns (done: bool, committedAt: Option<nat>)
    modifies session
    ensures var h := Handler(session.State(), committedAt, saved);
      Deliver(session.config, leased, Handler(old(session.State()), committedBefore, saved), event, m)
        == if done then Over(h) else Going(h)
  {
    committedAt := committedBefore;
    var err := session.Handle(event);
    if err != NoError {
      return true, committedAt;
    }
    if leased && committedAt.None? && event.ResponseStarted? {
      if m.commit.canceledBefore {
        return true, committedAt;
      }
      if !m.commit.ok {
        if !m.commit.canceledAfter {
          FailStream(session, ContinuationCommit, Handler(session.State(), committedBefore, saved));
        }
        return true, committedAt;
      }
      committedAt := Some(|session.frames|);
    }
    done := session.terminalEmitted;
  }

  /** The loop over the decoder's events and the end of its stream. */
  method ServeStream(session: Session, leased: bool, turn: Option<PendingTurn>, events: seq<Event>,
                     moments: seq<Moment>)
    returns (committedAt: Option<nat>, saved: Option<Saved>)
    requires |moments| > |events|
    modifies session
    ensures Handler(session.State(), committedAt, saved)
         == Serve(session.config, leased, turn, Begun(old(session.State())), events, moments)
  {
    committedAt, saved := None, None;
    var i := 0;
    while true
      invariant i <= |events|
      invariant Serve(session.config, leased, turn, Begun(old(session.State())), events, moments)
             == Serve(session.config, leased, turn, Handler(session.State(), committedAt, saved), events[i..],
               moments[i..])
      decreases |events| - i
    {
      var event := if i < |events| then Some(events[i]) else None;
      assert i < |events| ==> events[i..][1..] == events[i + 1..] && moments[i..][1..] == moments[i + 1..];
      var done;
      done, committedAt, saved := ServeEvent(session, leased, turn, event, moments[i], committedAt, saved);
      if done || i == |events| {
        return;
      }
      i := i + 1;
    }
  }
}
