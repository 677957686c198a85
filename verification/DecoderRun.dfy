/** Whole runs of the decoder: which events Next releases for a list of provider
    events, the end of the list being the end of the upstream body. */
module DecoderRun {
  import opened Bridge
  import opened DecoderSpec

  // ----- the (choice, tool) order of the reconstructed calls -----

  lemma {:induction false} LeastKey(keys: set<ToolKey>)
    requires keys != {}
    ensures exists k :: k in keys && forall j :: j in keys && j != k ==> KeyLess(k, j)
    decreases |keys|
  {
    var a :| a in keys;
    if keys - {a} == {} {
      assert keys == {a};
    } else {
      LeastKey(keys - {a});
      var k :| k in keys - {a} && forall j :: j in keys - {a} && j != k ==> KeyLess(k, j);
      var least := if KeyLess(a, k) then a else k;
      forall j | j in keys && j != least
        ensures KeyLess(least, j)
      {
        assert j == a || j in keys - {a};
      }
    }
  }

  ghost function KeyOrder(keys: set<ToolKey>): (order: seq<ToolKey>)
    ensures Sorted(order)
    ensures forall k :: k in order <==> k in keys
    decreases |keys|
  {
    if keys == {} then []
    else
      LeastKey(keys);
      var k :| k in keys && forall j :: j in keys && j != k ==> KeyLess(k, j);
      var rest := KeyOrder(keys - {k});
      assert forall i :: 0 <= i < |rest| ==> rest[i] in rest;
      [k] + rest
  }

  /** The order of the calls does not depend on how their map was iterated. */
  lemma {:induction false} KeyOrderUnique(a: seq<ToolKey>, b: seq<ToolKey>)
    requires Sorted(a) && Sorted(b)
    requires forall k :: k in a <==> k in b
    ensures a == b
    decreases |a|
  {
    assert forall i :: 0 <= i < |a| ==> a[i] in b;
    assert forall i :: 0 <= i < |b| ==> b[i] in a;
    if a != [] {
      assert a[0] == b[0];
      forall k
        ensures k in a[1..] <==> k in b[1..]
      {
        assert k in a[1..] ==> k != a[0] && k in a;
        assert k in b[1..] ==> k != b[0] && k in b;
        assert k in a && k != a[0] ==> k in a[1..];
        assert k in b && k != b[0] ==> k in b[1..];
      }
      KeyOrderUnique(a[1..], b[1..]);
    }
  }

  // ----- one provider event -----

  function BridgeFailure(err: Error): FailureCode {
    match err
    case AggregateLimit => StreamLimitExceeded
    case ArgumentLimit => StreamLimitExceeded
    case CallLimit => StreamLimitExceeded
    case MetadataLimit => StreamLimitExceeded
    case Undeclared => ToolNotDeclared
    case CustomMalformed => CustomToolInvalid
    case PatchLimit => StreamLimitExceeded
    case Malformed => UpstreamStreamError
    case NoError => UpstreamStreamError
  }

  function ReadFailure(cause: ReadError): FailureCode {
    match cause
    case SseLimit => StreamLimitExceeded
    case ReadCanceled => StreamCanceled
    case ReadTimeout => StreamTimeout
    case ReadInterrupted => StreamInterrupted
    case Undecodable => UpstreamStreamError
  }

  /** A failure discards whatever is queued and is itself the last event. */
  function FailWith(st: State, code: FailureCode): State {
    st.(phase := st.phase.(terminal := true), pending := [Failed(code)])
  }

  function Close(st: State): State {
    st.(phase := st.phase.(terminal := true))
  }

  /** The state after one provider event; its pending events are what Next then releases. */
  ghost function Step(cfg: Config, st: State, pe: ProviderEvent): State {
    match pe
    case ReadFailed(cause) => FailWith(st, ReadFailure(cause))
    case ProviderError => FailWith(st, UpstreamError)
    case NoChunk => FailWith(st, UpstreamStreamError)
    case ProviderDone =>
      var o := Finish(cfg, st, KeyOrder(st.calls.Keys));
      if o.err != NoError then FailWith(o.st, BridgeFailure(o.err)) else Close(o.st)
    case Data(chunk) =>
      var o := ConsumeChunk(cfg, st, chunk);
      if o.err != NoError then FailWith(o.st, BridgeFailure(o.err))
      else if |o.st.pending| > 0 then o.st
      else
        var o1 := Reserve(cfg, o.st, OVERHEAD);
        if o1.err != NoError then FailWith(o1.st, BridgeFailure(o1.err)) else o1.st
  }

  function Released(st: State): State {
    st.(pending := [])
  }

  // ----- a whole run -----

  datatype Outcome = Outcome(st: State, events: seq<Event>)

  ghost function Run(cfg: Config, st: State, input: seq<ProviderEvent>): Outcome
    decreases |input|
  {
    if st.phase.terminal then Outcome(st, [])
    else if input == [] then Outcome(Close(st), [Failed(UpstreamEof)])
    else
      var st1 := Step(cfg, st, input[0]);
      var rest := Run(cfg, Released(st1), input[1..]);
      Outcome(rest.st, st1.pending + rest.events)
  }

  /** The complete event stream of one upstream response. */
  ghost function Output(cfg: Config, input: seq<ProviderEvent>): seq<Event> {
    Run(cfg, INITIAL, input).events
  }
}
