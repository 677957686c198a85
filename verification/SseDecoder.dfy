/** SSEDecoder as the source writes it: a reader position and buffers that a byte
    loop and a line loop update. Next hands out, one by one, exactly what SseSpec
    says is still to come, and repeats the result that ended the stream. */
module SseDecoder {
  import opened Bridge
  import opened SseSpec
  import opened SseTheorems

  lemma {:induction false} LineLengthAtLeast(s: string, n: nat)
    requires n <= |s| && forall i :: 0 <= i < n ==> !IsBreak(s[i])
    ensures LineLength(s) >= n
    decreases n
  {
    if n > 0 {
      assert !IsBreak(s[0]);
      LineLengthAtLeast(s[1..], n - 1);
    }
  }

  /** Reading a line whose break stands at position p of the whole input. */
  lemma LineEnds(l: Limits, bytes: string, broken: bool, start: nat, p: nat)
    requires start <= p < |bytes| && IsBreak(bytes[p])
    requires LineLength(bytes[start..]) == p - start && (p - start <= LineLimit(l) || p == start)
    ensures SseSpec.ReadLine(l, Source(bytes[start..], broken)) ==
      if broken && bytes[p] == '\r' && p + 1 == |bytes| then NoRead(ReadFailed)
      else Line(bytes[start..p], true, Source(AfterBreak(bytes, p), broken))
  {
    var s, n := bytes[start..], p - start;
    assert s[..n] == bytes[start..p] && s[n] == bytes[p];
    assert n + 1 < |s| ==> s[n + 1] == bytes[p + 1] && s[n + 2..] == bytes[p + 2..];
    assert s[n + 1..] == bytes[p + 1..];
  }

  class Decoder {
    const limits: Limits
    const utf8: Utf8Test
    const bytes: string
    const broken: bool
    var position: nat
    var data: string
    var event: string
    var id: string
    var retry: Option<nat>
    var eventBytes: int
    var bomHandled: bool
    var terminalErr: Option<Finish>

    ghost predicate Valid()
      reads this
    {
      position <= |bytes|
    }

    ghost function State(): State
      requires Valid()
      reads this
    {
      SseSpec.State(Source(bytes[position..], broken), Buffers(data, event, id, retry), eventBytes, bomHandled,
        terminalErr)
    }

    /** What Next will still return. */
    ghost function Remaining(): Reading
      requires Valid()
      reads this
    {
      Drain(limits, utf8, State())
    }

    constructor (limits: Limits, utf8: Utf8Test, bytes: string, broken: bool)
      ensures this.limits == limits && this.utf8 == utf8 && this.bytes == bytes && this.broken == broken
      ensures Valid() && State() == Initial(Source(bytes, broken))
    {
      this.limits, this.utf8, this.bytes, this.broken := limits, utf8, bytes, broken;
      position, data, event, id, retry, eventBytes, bomHandled, terminalErr := 0, "", "", "", None, 0, false, None;
    }

    /** readLine: byte by byte up to a line break, the end, or the limit. */
    method ReadLine() returns (read: LineRead)
      requires Valid()
      modifies `position
      ensures Valid() && read == SseSpec.ReadLine(limits, old(State()).src)
      ensures read.Line? ==> State().src == read.rest
      ensures read.NoLine? ==> position == old(position)
    {
      var limit := LineLimit(limits);
      var line := "";
      ghost var start := position;
      ghost var s := bytes[start..];
      while true
        invariant start <= position <= |bytes| && line == bytes[start..position]
        invariant forall i :: 0 <= i < |line| ==> !IsBreak(line[i])
        invariant |line| <= limit || line == ""
        decreases |bytes| - position
      {
        assert forall i :: 0 <= i < |line| ==> s[i] == line[i];
        if position == |bytes| {
          LineLengthAtLeast(s, |line|);
          if broken {
            return NoRead(ReadFailed);
          }
          if |line| == 0 {
            return NoLine;
          }
          assert bytes[position..] == "";
          return Line(line, false, Source("", broken));
        }
        var value := bytes[position];
        assert s[|line|] == value;
        if value == '\n' || value == '\r' {
          LineLengthIs(s, |line|);
          read := EndLine(line, value, start);
          return read;
        }
        if |line| >= limit {
          LineLengthAtLeast(s, |line| + 1);
          return NoRead(OverLimit);
        }
        line := line + [value];
        position := position + 1;
      }
    }

    /** The line break itself, with the LF that may follow a CR. */
    method EndLine(line: string, value: char, ghost start: nat) returns (read: LineRead)
      requires start <= position < |bytes| && bytes[position] == value && IsBreak(value)
      requires line == bytes[start..position]
      requires LineLength(bytes[start..]) == |line| && (|line| <= LineLimit(limits) || line == "")
      modifies `position
      ensures Valid() && read == SseSpec.ReadLine(limits, Source(bytes[start..], broken))
      ensures read.Line? ==> State().src == read.rest
    {
      LineEnds(limits, bytes, broken, start, position);
      position := position + 1;
      if value == '\r' {
        if position == |bytes| {
          if broken {
            return NoRead(ReadFailed);
          }
        } else if bytes[position] == '\n' {
          position := position + 1;
        }
      }
      return Line(line, true, Source(bytes[position..], broken));
    }

    /** addEventBytes. */
    method AddEventBytes(count: int) returns (ok: bool)
      requires Valid()
      modifies `eventBytes
      ensures ok == AddBytes(limits, old(eventBytes), count).Some?
      ensures ok ==> Some(eventBytes) == AddBytes(limits, old(eventBytes), count)
    {
      if count < 0 || eventBytes > limits.event - count {
        return false;
      }
      eventBytes := eventBytes + count;
      ok := eventBytes <= limits.buffered;
    }

    /** processLine. */
    method ProcessLine(line: string) returns (ok: bool)
      requires Valid() && line != ""
      modifies `data, `event, `id, `retry
      ensures ok == SseSpec.ProcessLine(limits, old(State()).buf, line).Some?
      ensures ok ==> Some(State().buf) == SseSpec.ProcessLine(limits, old(State()).buf, line)
    {
      if |line| > limits.line || |line| > limits.buffered {
        return false;
      }
      if line[0] == ':' {
        return true;
      }
      var field, value := FieldName(line), FieldValue(line);
      if field == "data" {
        if |data| > limits.event - |value| - 1 {
          return false;
        }
        data := data + value;
        data := data + "\n";
      } else if field == "event" {
        event := value;
      } else if field == "id" {
        if !HasNul(value) {
          id := value;
        }
      } else if field == "retry" {
        var parsed := ParseRetry(value);
        if parsed.Some? {
          retry := parsed;
        }
      }
      return true;
    }

    /** dispatch. */
    method Dispatch() returns (e: SseEvent)
      requires Valid()
      modifies `data, `event, `retry, `eventBytes
      ensures e == Dispatched(old(State()).buf)
      ensures State() == old(State()).(buf := Cleared(old(State()).buf), eventBytes := 0)
    {
      e := SseEvent(event, id, retry, if |data| > 0 then data[..|data| - 1] else "");
      data, event, retry, eventBytes := "", "", None, 0;
    }

    /** The rest of one round of Next, for a line of UTF-8 that has been counted. */
    method UseLine(line: string, ended: bool) returns (result: Option<SseEvent>, stop: Option<Finish>)
      requires Valid() && terminalErr.None?
      modifies `data, `event, `id, `retry, `eventBytes, `terminalErr
      ensures Valid()
      ensures Matches(SseSpec.UseLine(limits, old(State()), line, ended), result, stop)
    {
      result, stop := None, None;
      if line == "" {
        if !ended {
          stop := Some(CutShort);
        } else if |data| == 0 && event == "" && retry.None? {
          eventBytes := 0;
        } else {
          var e := Dispatch();
          if e.data != "" {
            result := Some(e);
          }
        }
      } else {
        var ok := ProcessLine(line);
        if !ok {
          stop := Some(OverLimit);
        } else if !ended {
          stop := Some(CutShort);
        }
      }
      if stop.Some? {
        terminalErr := stop;
      }
    }

    /** The round came out as the specification says; a stop is remembered. */
    ghost predicate Matches(next: Next, result: Option<SseEvent>, stop: Option<Finish>)
      requires Valid()
      reads this
    {
      match next
      case Emit(e, st) => result == Some(e) && stop == None && State() == st
      case Continue(st) => result == None && stop == None && State() == st
      case Stop(finish, _) => result == None && stop == Some(finish) && Remaining() == Reading([], finish)
    }

    method TakeLine(line: string, ended: bool) returns (result: Option<SseEvent>, stop: Option<Finish>)
      requires Valid() && terminalErr.None?
      modifies `data, `event, `id, `retry, `eventBytes, `terminalErr
      ensures Valid()
      ensures Matches(SseSpec.TakeLine(limits, utf8, old(State()), line, ended), result, stop)
    {
      if !utf8(line) {
        terminalErr := Some(NotUtf8);
        return None, terminalErr;
      }
      var ok := AddEventBytes(Size(line));
      if !ok {
        terminalErr := Some(OverLimit);
        return None, terminalErr;
      }
      result, stop := UseLine(line, ended);
    }

    /** One round of the loop of Next. */
    method Round() returns (result: Option<SseEvent>, stop: Option<Finish>)
      requires Valid() && terminalErr.None?
      modifies this
      ensures Valid()
      ensures Matches(SseSpec.Round(limits, utf8, old(State())), result, stop)
    {
      var read := ReadLine();
      match read {
        case NoLine =>
          if |data| > 0 || event != "" || retry.Some? {
            terminalErr := Some(CutShort);
            return None, terminalErr;
          }
          EndStays(limits, utf8, State());
          return None, Some(CleanEnd);
        case NoRead(cause) =>
          terminalErr := Some(cause);
          return None, terminalErr;
        case Line(raw, ended, _) =>
          var line := raw;
          if !bomHandled {
            line := StripBom(line);
            bomHandled := true;
          }
          result, stop := TakeLine(line, ended);
      }
    }

    /** One round, in terms of what remains. */
    method Step() returns (result: Option<SseEvent>, stop: Option<Finish>)
      requires Valid() && terminalErr.None?
      modifies this
      ensures Valid()
      ensures result.Some? ==> stop.None? && old(Remaining()) == Put(result.value, Remaining())
      ensures stop.Some? ==> result.None? && old(Remaining()) == Reading([], stop.value) == Remaining()
      ensures result.None? && stop.None? ==>
        Remaining() == old(Remaining()) && terminalErr.None? && position > old(position)
    {
      DrainRound(limits, utf8, State());
      result, stop := Round();
    }

    /** Next: the first of the remaining events, or how the stream ended. */
    method Next() returns (result: Option<SseEvent>, stop: Option<Finish>)
      requires Valid()
      modifies this
      ensures Valid() && (result.Some? <==> stop.None?)
      ensures result.Some? ==> old(Remaining()) == Put(result.value, Remaining())
      ensures stop.Some? ==> old(Remaining()) == Reading([], stop.value) == Remaining()
    {
      if terminalErr.Some? {
        return None, terminalErr;
      }
      while true
        invariant Valid() && terminalErr.None? && Remaining() == old(Remaining())
        decreases |bytes| - position
      {
        result, stop := Step();
        if result.Some? || stop.Some? {
          return;
        }
      }
    }
  }

  function Put(e: SseEvent, more: Reading): Reading {
    Reading([e] + more.events, more.finish)
  }

  /** At the end of the stream every further call finds the end again. */
  lemma EndStays(l: Limits, utf8: Utf8Test, st: State)
    requires st.failed.None? && ReadLine(l, st.src) == NoLine && !Pending(st.buf)
    ensures Drain(l, utf8, st) == Reading([], CleanEnd)
  {
  }

  lemma DrainRound(l: Limits, utf8: Utf8Test, st: State)
    requires st.failed.None?
    ensures var r := Round(l, utf8, st);
      Drain(l, utf8, st) ==
        if r.Stop? then Reading([], r.finish)
        else if r.Continue? then Drain(l, utf8, r.st)
        else Put(r.event, Drain(l, utf8, r.st))
  {
  }
}
