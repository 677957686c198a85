/** The bounded machine against the reference reading, and the wire format of the
    session's own frames. */
module SseTheorems {
  import opened Bridge
  import opened SseSpec

  // ----- the limits, from the text alone -----

  /** What one event may use: both the event and the buffer limit apply to it. */
  function EventCap(l: Limits): int {
    Min(l.event, l.buffered)
  }

  predicate LinesFit(l: Limits, t: Text) {
    && (forall i :: 0 <= i < |t.lines| ==> |t.lines[i]| <= LineLimit(l) || t.lines[i] == "")
    && (t.tail.Some? ==> |t.tail.value| <= LineLimit(l))
  }

  function Plus(a: int, b: int): int {
    a + b
  }

  /** Between two blank lines the lines, each with its break, stay within the cap. */
  predicate EventsFit(l: Limits, t: Text, used: int)
    decreases |t.lines|
  {
    if t.lines == [] then t.tail.Some? ==> Plus(used, Size(t.tail.value)) <= EventCap(l)
    else
      var more := Plus(used, Size(t.lines[0]));
      more <= EventCap(l) && EventsFit(l, t.(lines := t.lines[1..]), if t.lines[0] == "" then 0 else more)
  }

  // ----- one line -----

  lemma ValueShort(line: string)
    ensures |FieldValue(line)| <= |line|
  {
  }

  lemma AddBytesExact(l: Limits, used: int, line: string)
    requires used >= 0
    ensures AddBytes(l, used, Size(line)) ==
      if Plus(used, Size(line)) <= EventCap(l) then Some(Plus(used, Size(line))) else None
  {
  }

  /** Once a line has been counted its own checks in processLine cannot fail. */
  lemma LineChecksRedundant(l: Limits, b: Buffers, line: string, before: int, after: int)
    requires line != "" && |b.data| <= before && after == before + |line| + 1
    requires |line| <= LineLimit(l) && after <= EventCap(l)
    ensures ProcessLine(l, b, line) == Some(Absorb(b, line)) && |Absorb(b, line).data| <= after
  {
    ValueShort(line);
  }

  // ----- reading lines off the source -----

  lemma SplitStep(s: string)
    requires SplitText(s).lines != []
    ensures LineLength(s) < |s| && SplitText(s).lines[0] == s[..LineLength(s)]
    ensures SplitText(AfterBreak(s, LineLength(s))) == SplitText(s).(lines := SplitText(s).lines[1..])
  {
    var n := LineLength(s);
    var more := SplitText(AfterBreak(s, n));
    assert ([s[..n]] + more.lines)[1..] == more.lines;
  }

  lemma SplitEnd(s: string)
    requires SplitText(s).lines == []
    ensures LineLength(s) == |s| && SplitText(s).tail == (if s == "" then None else Some(s))
  {
  }

  lemma ReadEnded(l: Limits, src: Source)
    requires !src.broken && SplitText(src.bytes).lines != []
    requires var line := SplitText(src.bytes).lines[0]; |line| <= LineLimit(l) || line == ""
    ensures var n := LineLength(src.bytes);
      ReadLine(l, src) == Line(SplitText(src.bytes).lines[0], true, Source(AfterBreak(src.bytes, n), false))
  {
    SplitStep(src.bytes);
  }

  lemma ReadTail(l: Limits, src: Source)
    requires !src.broken && SplitText(src.bytes).lines == []
    ensures SplitText(src.bytes).tail.None? ==> ReadLine(l, src) == NoLine
    ensures SplitText(src.bytes).tail.Some? && |src.bytes| <= LineLimit(l) ==>
      ReadLine(l, src) == Line(src.bytes, false, Source("", false))
  {
    SplitEnd(src.bytes);
  }

  /** What the machine still has to read. */
  function Ahead(st: State): Text {
    if st.bomHandled then SplitText(st.src.bytes) else Unmark(SplitText(st.src.bytes))
  }

  ghost predicate Running(st: State) {
    st.failed.None? && !st.src.broken && 0 <= st.eventBytes && |st.buf.data| <= st.eventBytes
  }

  lemma AheadLine(st: State, raw: string, line: string, rest: string)
    requires SplitText(st.src.bytes).lines != [] && raw == SplitText(st.src.bytes).lines[0]
    requires rest == AfterBreak(st.src.bytes, LineLength(st.src.bytes))
    requires line == if st.bomHandled then raw else StripBom(raw)
    ensures Ahead(st).lines != [] && Ahead(st).lines[0] == line
    ensures SplitText(rest) == Ahead(st).(lines := Ahead(st).lines[1..])
  {
    SplitStep(st.src.bytes);
    var t := SplitText(st.src.bytes);
    assert ([line] + t.lines[1..])[1..] == t.lines[1..];
  }

  lemma StripShort(raw: string)
    ensures |StripBom(raw)| <= |raw|
  {
  }

  // ----- within the limits -----

  /** A terminated line that fits: the machine goes on as the reference does. */
  lemma LineTaken(l: Limits, utf8: Utf8Test, st: State, line: string)
    requires Running(st) && utf8(line) && (|line| <= LineLimit(l) || line == "")
    requires Plus(st.eventBytes, Size(line)) <= EventCap(l)
    ensures var r := TakeLine(l, utf8, st, line, true);
      var used := if line == "" then 0 else Plus(st.eventBytes, Size(line));
      && (line != "" ==> r == Continue(st.(buf := Absorb(st.buf, line), eventBytes := used)))
      && (line == "" && !Pending(st.buf) ==> r == Continue(st.(eventBytes := used)))
      && (line == "" && Pending(st.buf) && Payload(st.buf) == "" ==>
        r == Continue(st.(buf := Cleared(st.buf), eventBytes := used)))
      && (line == "" && Pending(st.buf) && Payload(st.buf) != "" ==>
            r == Emit(Dispatched(st.buf), st.(buf := Cleared(st.buf), eventBytes := used)))
      && Running(r.st)
  {
    AddBytesExact(l, st.eventBytes, line);
    if line != "" {
      LineChecksRedundant(l, st.buf, line, st.eventBytes, Plus(st.eventBytes, Size(line)));
    }
  }

  lemma LineRefused(l: Limits, utf8: Utf8Test, st: State, line: string)
    requires !utf8(line)
    ensures TakeLine(l, utf8, st, line, true) == Stop(NotUtf8, Fail(st, NotUtf8))
  {
  }

  /** The reader accepts the next raw line. */
  predicate NextFits(l: Limits, st: State) {
    LineLength(st.src.bytes) <= LineLimit(l) || LineLength(st.src.bytes) == 0
  }

  lemma RoundLine(l: Limits, utf8: Utf8Test, st: State, line: string, rest: string)
    requires Running(st) && SplitText(st.src.bytes).lines != [] && NextFits(l, st)
    requires Ahead(st).lines != [] && line == Ahead(st).lines[0]
    requires rest == AfterBreak(st.src.bytes, LineLength(st.src.bytes))
    ensures Round(l, utf8, st) == TakeLine(l, utf8, st.(src := Source(rest, false), bomHandled := true), line, true)
    ensures |line| <= LineLimit(l) || line == ""
  {
    var raw := SplitText(st.src.bytes).lines[0];
    SplitStep(st.src.bytes);
    ReadEnded(l, st.src);
    StripShort(raw);
    AheadLine(st, raw, if st.bomHandled then raw else StripBom(raw), rest);
  }

  lemma ReadTextLine(utf8: Utf8Test, b: Buffers, t: Text)
    requires t.lines != []
    ensures var line, rest := t.lines[0], t.(lines := t.lines[1..]);
      ReadText(utf8, b, t) ==
        if !utf8(line) then Reading([], NotUtf8)
        else if line != "" then ReadText(utf8, Absorb(b, line), rest)
        else if !Pending(b) then ReadText(utf8, b, rest)
        else
          var more := ReadText(utf8, Cleared(b), rest);
          if Payload(b) == "" then more else Reading([Dispatched(b)] + more.events, more.finish)
  {
  }

  // ----- the machine against the reference, on every byte string -----

  /** A line that readLine refuses; an empty line always fits. */
  predicate TooLong(l: Limits, line: string) {
    |line| > LineLimit(l) && line != ""
  }

  /** A line or an event that is too long comes before any line that is not UTF-8.
      raw are the lines as they are read, t the same without a byte order mark. */
  predicate OverFirst(l: Limits, utf8: Utf8Test, raw: Text, t: Text, used: int)
    requires |raw.lines| == |t.lines| && (raw.tail.Some? <==> t.tail.Some?)
    decreases |t.lines|
  {
    if t.lines == [] then
      t.tail.Some? &&
      (TooLong(l, raw.tail.value) || (utf8(t.tail.value) && Plus(used, Size(t.tail.value)) > EventCap(l)))
    else
      var line, more := t.lines[0], Plus(used, Size(t.lines[0]));
      TooLong(l, raw.lines[0]) ||
      (utf8(line) &&
        (more > EventCap(l) ||
          OverFirst(l, utf8, raw.(lines := raw.lines[1..]), t.(lines := t.lines[1..]), if line == "" then 0 else more)))
  }

  predicate OverAhead(l: Limits, utf8: Utf8Test, st: State) {
    OverFirst(l, utf8, SplitText(st.src.bytes), Ahead(st), st.eventBytes)
  }

  /** Where an overlong line or event comes first, the machine returns the events
      before it and stops over the limit; otherwise it returns the reference. */
  predicate Matches(over: bool, drained: Reading, reference: Reading) {
    if over then drained.finish == OverLimit && drained.events <= reference.events else drained == reference
  }

  lemma ReadOver(l: Limits, src: Source)
    requires !src.broken && LineLength(src.bytes) > LineLimit(l) && LineLength(src.bytes) > 0
    ensures ReadLine(l, src) == NoRead(OverLimit)
  {
  }

  lemma OverNow(l: Limits, utf8: Utf8Test, st: State, line: string, ended: bool)
    requires Running(st) && utf8(line) && Plus(st.eventBytes, Size(line)) > EventCap(l)
    ensures TakeLine(l, utf8, st, line, ended) == Stop(OverLimit, Fail(st, OverLimit))
  {
    AddBytesExact(l, st.eventBytes, line);
  }

  lemma DrainLast(l: Limits, utf8: Utf8Test, st: State)
    requires Running(st) && SplitText(st.src.bytes).lines == []
    ensures Matches(OverAhead(l, utf8, st), Drain(l, utf8, st), ReadText(utf8, st.buf, Ahead(st)))
  {
    ReadTail(l, st.src);
    SplitEnd(st.src.bytes);
    var t := Ahead(st);
    if t.tail.Some? {
      var raw, line := st.src.bytes, t.tail.value;
      if TooLong(l, raw) {
        ReadOver(l, st.src);
      } else {
        DrainTail(l, utf8, st, line);
      }
    }
  }

  /** The unterminated line, once it has been read. */
  lemma DrainTail(l: Limits, utf8: Utf8Test, st: State, line: string)
    requires Running(st) && SplitText(st.src.bytes).lines == [] && Ahead(st).tail == Some(line)
    requires !TooLong(l, st.src.bytes)
    ensures Drain(l, utf8, st) ==
      if !utf8(line) then Reading([], NotUtf8)
      else if Plus(st.eventBytes, Size(line)) > EventCap(l) then Reading([], OverLimit)
      else Reading([], CutShort)
  {
    ReadTail(l, st.src);
    SplitEnd(st.src.bytes);
    StripShort(st.src.bytes);
    AddBytesExact(l, st.eventBytes, line);
    if line != "" && Plus(st.eventBytes, Size(line)) <= EventCap(l) {
      LineChecksRedundant(l, st.buf, line, st.eventBytes, Plus(st.eventBytes, Size(line)));
    }
  }

  /** On every byte string, from every running state. */
  lemma {:induction false} DrainMatches(l: Limits, utf8: Utf8Test, st: State)
    requires Running(st)
    ensures Matches(OverAhead(l, utf8, st), Drain(l, utf8, st), ReadText(utf8, st.buf, Ahead(st)))
    decreases |st.src.bytes|, 1
  {
    if SplitText(st.src.bytes).lines == [] {
      DrainLast(l, utf8, st);
    } else {
      var n := LineLength(st.src.bytes);
      SplitStep(st.src.bytes);
      var rest, raw := AfterBreak(st.src.bytes, n), SplitText(st.src.bytes).lines[0];
      var line := if st.bomHandled then raw else StripBom(raw);
      AheadLine(st, raw, line, rest);
      if TooLong(l, raw) {
        ReadOver(l, st.src);
      } else {
        DrainLine(l, utf8, st, line, rest);
      }
    }
  }

  /** A line that the reader accepts. */
  lemma {:induction false} DrainLine(l: Limits, utf8: Utf8Test, st: State, line: string, rest: string)
    requires Running(st) && SplitText(st.src.bytes).lines != [] && NextFits(l, st)
    requires Ahead(st).lines != [] && line == Ahead(st).lines[0]
    requires rest == AfterBreak(st.src.bytes, LineLength(st.src.bytes)) && |rest| < |st.src.bytes|
    requires SplitText(rest) == Ahead(st).(lines := Ahead(st).lines[1..])
    ensures Matches(OverAhead(l, utf8, st), Drain(l, utf8, st), ReadText(utf8, st.buf, Ahead(st)))
    decreases |st.src.bytes|, 0
  {
    var here := st.(src := Source(rest, false), bomHandled := true);
    RoundLine(l, utf8, st, line, rest);
    ReadTextLine(utf8, st.buf, Ahead(st));
    OverStep(l, utf8, st, line, rest);
    if !utf8(line) {
      LineRefused(l, utf8, here, line);
    } else if Plus(st.eventBytes, Size(line)) > EventCap(l) {
      OverNow(l, utf8, here, line, true);
    } else {
      LineTaken(l, utf8, here, line);
      DrainMatches(l, utf8, TakeLine(l, utf8, here, line, true).st);
    }
  }

  lemma OverStep(l: Limits, utf8: Utf8Test, st: State, line: string, rest: string)
    requires SplitText(st.src.bytes).lines != [] && NextFits(l, st)
    requires Ahead(st).lines != [] && line == Ahead(st).lines[0]
    requires rest == AfterBreak(st.src.bytes, LineLength(st.src.bytes))
    requires SplitText(rest) == Ahead(st).(lines := Ahead(st).lines[1..])
    ensures var more := Plus(st.eventBytes, Size(line));
      OverAhead(l, utf8, st) <==>
      utf8(line) &&
      (more > EventCap(l) || OverFirst(l, utf8, SplitText(rest), SplitText(rest), if line == "" then 0 else more))
  {
    SplitStep(st.src.bytes);
  }

  /** SSEDecoder against the reference, on every byte string that can be read to its
      end: the same events and the same ending, except that the machine stops where
      an overlong line or event comes before any line that is not UTF-8. */
  lemma DecoderExactly(l: Limits, utf8: Utf8Test, bytes: string)
    ensures var t := SplitText(bytes);
      Matches(OverFirst(l, utf8, t, Unmark(t), 0), Drain(l, utf8, Initial(Source(bytes, false))), Read(utf8, bytes))
  {
    DrainMatches(l, utf8, Initial(Source(bytes, false)));
  }

  lemma {:induction false} ReferenceHasNoLimit(utf8: Utf8Test, b: Buffers, t: Text)
    ensures ReadText(utf8, b, t).finish != OverLimit
  {
  }

  /** The limits are hit exactly by texts in which an overlong line or event comes
      before any line that is not UTF-8. */
  lemma LimitHitExactly(l: Limits, utf8: Utf8Test, bytes: string)
    ensures var t := SplitText(bytes);
      Drain(l, utf8, Initial(Source(bytes, false))).finish == OverLimit <==> OverFirst(l, utf8, t, Unmark(t), 0)
  {
    DecoderExactly(l, utf8, bytes);
    ReferenceHasNoLimit(utf8, EMPTY, Unmark(SplitText(bytes)));
  }

  lemma {:induction false} FitIsNotOver(l: Limits, utf8: Utf8Test, raw: Text, t: Text, used: int)
    requires |raw.lines| == |t.lines| && (raw.tail.Some? <==> t.tail.Some?)
    requires LinesFit(l, raw) && EventsFit(l, t, used)
    ensures !OverFirst(l, utf8, raw, t, used)
    decreases |t.lines|
  {
    if t.lines != [] {
      var more := Plus(used, Size(t.lines[0]));
      FitIsNotOver(l, utf8, raw.(lines := raw.lines[1..]), t.(lines := t.lines[1..]),
        if t.lines[0] == "" then 0 else more);
    }
  }

  /** Within the limits the decoder returns exactly the reference reading. */
  lemma DecoderRefinesReference(l: Limits, utf8: Utf8Test, bytes: string)
    requires LinesFit(l, SplitText(bytes)) && EventsFit(l, Unmark(SplitText(bytes)), 0)
    ensures Drain(l, utf8, Initial(Source(bytes, false))) == Read(utf8, bytes)
  {
    DecoderExactly(l, utf8, bytes);
    FitIsNotOver(l, utf8, SplitText(bytes), Unmark(SplitText(bytes)), 0);
  }

  // ----- the session's own frames -----

  /** One frame as writeEventLocked writes it. */
  function FrameBytes(payload: string): string {
    "data: " + payload + "\n\n"
  }

  function FramesBytes(payloads: seq<string>): string {
    if payloads == [] then "" else FrameBytes(payloads[0]) + FramesBytes(payloads[1..])
  }

  /** What an encoded payload is known to be: not empty, UTF-8, on one line. */
  ghost predicate OneLine(utf8: Utf8Test, payload: string) {
    payload != "" && utf8(payload) && forall i :: 0 <= i < |payload| ==> !IsBreak(payload[i])
  }

  ghost predicate AllOneLine(utf8: Utf8Test, payloads: seq<string>) {
    forall i :: 0 <= i < |payloads| ==> OneLine(utf8, payloads[i])
  }

  predicate PayloadFits(l: Limits, payload: string) {
    |payload| + 6 <= LineLimit(l) && |payload| + 8 <= EventCap(l)
  }

  lemma SplitAt(s: string, line: string, rest: string)
    requires s == line + "\n" + rest && forall i :: 0 <= i < |line| ==> !IsBreak(line[i])
    ensures SplitText(s) == Text([line] + SplitText(rest).lines, SplitText(rest).tail)
  {
    assert s[|line|] == '\n';
    assert forall i :: 0 <= i < |line| ==> s[i] == line[i];
    LineLengthIs(s, |line|);
    assert s[..|line|] == line && s[|line| + 1..] == rest;
  }

  lemma {:induction false} LineLengthIs(s: string, n: nat)
    requires n < |s| && IsBreak(s[n]) && forall i :: 0 <= i < n ==> !IsBreak(s[i])
    ensures LineLength(s) == n
    decreases n
  {
    if n > 0 {
      assert !IsBreak(s[0]);
      LineLengthIs(s[1..], n - 1);
    }
  }

  lemma FrameIs(payload: string, rest: string, line: string, blank: string)
    requires line == "data: " + payload && blank == "\n" + rest
    ensures FrameBytes(payload) + rest == line + "\n" + blank
    ensures blank == "" + "\n" + rest
  {
  }

  lemma SplitFrame(payload: string, rest: string)
    requires forall i :: 0 <= i < |payload| ==> !IsBreak(payload[i])
    ensures SplitText(FrameBytes(payload) + rest) ==
      Text(["data: " + payload, ""] + SplitText(rest).lines, SplitText(rest).tail)
  {
    var line, blank := "data: " + payload, "\n" + rest;
    FrameIs(payload, rest, line, blank);
    SplitTwice(FrameBytes(payload) + rest, line, blank, rest);
  }

  lemma SplitTwice(s: string, line: string, blank: string, rest: string)
    requires s == line + "\n" + blank && blank == "" + "\n" + rest && forall i :: 0 <= i < |line| ==> !IsBreak(line[i])
    ensures SplitText(s) == Text([line, ""] + SplitText(rest).lines, SplitText(rest).tail)
  {
    SplitAt(s, line, blank);
    SplitAt(blank, "", rest);
    TwoLines(line, "", SplitText(rest));
  }

  lemma TwoLines(a: string, b: string, rest: Text)
    ensures [a] + ([b] + rest.lines) == [a, b] + rest.lines
  {
  }

  lemma DataField(payload: string)
    ensures FieldName("data: " + payload) == "data" && FieldValue("data: " + payload) == payload
  {
    var line := "data: " + payload;
    FirstColonIs(line, 4);
    assert line[..4] == "data" && line[5..] == " " + payload && (" " + payload)[1..] == payload;
  }

  lemma {:induction false} FirstColonIs(s: string, n: nat)
    requires n < |s| && s[n] == ':' && forall i :: 0 <= i < n ==> s[i] != ':'
    ensures FirstColon(s) == n
    decreases n
  {
    if n > 0 {
      assert s[0] != ':';
      FirstColonIs(s[1..], n - 1);
    }
  }

  function PayloadEvents(payloads: seq<string>): seq<SseEvent> {
    seq(|payloads|, i requires 0 <= i < |payloads| => SseEvent("", "", None, payloads[i]))
  }

  lemma FrameAbsorbed(payload: string)
    ensures Absorb(EMPTY, "data: " + payload) == EMPTY.(data := payload + "\n")
  {
    DataField(payload);
    assert "" + payload + "\n" == payload + "\n";
  }

  lemma FrameDispatched(payload: string)
    requires payload != ""
    ensures var b := EMPTY.(data := payload + "\n");
      Pending(b) && Payload(b) == payload && Cleared(b) == EMPTY && Dispatched(b) == SseEvent("", "", None, payload)
  {
    assert (payload + "\n")[..|payload|] == payload;
  }

  /** Reading the lines of one frame yields its event. */
  lemma FrameRead(utf8: Utf8Test, payload: string, rest: Text)
    requires Utf8Facts(utf8) && OneLine(utf8, payload)
    ensures ReadText(utf8, EMPTY, Text(["data: " + payload, ""] + rest.lines, rest.tail)) ==
      var more := ReadText(utf8, EMPTY, rest); Reading([SseEvent("", "", None, payload)] + more.events, more.finish)
  {
    var line := "data: " + payload;
    var t := Text([line, ""] + rest.lines, rest.tail);
    assert Ascii("data: ") && Ascii("") && utf8("data: " + payload) && utf8("");
    assert t.lines[1..] == [""] + rest.lines && ([""] + rest.lines)[1..] == rest.lines;
    ReadTextLine(utf8, EMPTY, t);
    FrameAbsorbed(payload);
    FrameDispatched(payload);
    ReadTextLine(utf8, EMPTY.(data := payload + "\n"), Text([""] + rest.lines, rest.tail));
  }

  lemma FrameThenRest(utf8: Utf8Test, payload: string, rest: Text, events: seq<SseEvent>)
    requires Utf8Facts(utf8) && OneLine(utf8, payload) && ReadText(utf8, EMPTY, rest) == Reading(events, CleanEnd)
    ensures ReadText(utf8, EMPTY, Text(["data: " + payload, ""] + rest.lines, rest.tail)) ==
      Reading([SseEvent("", "", None, payload)] + events, CleanEnd)
  {
    FrameRead(utf8, payload, rest);
  }

  /** One frame more in front. */
  lemma FramesMore(utf8: Utf8Test, payloads: seq<string>, payload: string, rest: seq<string>)
    requires AllOneLine(utf8, payloads) && payloads == [payload] + rest
    ensures OneLine(utf8, payload) && AllOneLine(utf8, rest)
    ensures SplitText(FramesBytes(payloads)) ==
      var more := SplitText(FramesBytes(rest)); Text(["data: " + payload, ""] + more.lines, more.tail)
  {
    assert payloads[0] == payload && payloads[1..] == rest;
    SplitFrame(payload, FramesBytes(rest));
  }

  lemma PayloadsMore(payload: string, rest: seq<string>)
    ensures PayloadEvents([payload] + rest) == [SseEvent("", "", None, payload)] + PayloadEvents(rest)
  {
  }

  lemma {:induction false} FramesRead(utf8: Utf8Test, payloads: seq<string>)
    requires Utf8Facts(utf8) && AllOneLine(utf8, payloads)
    ensures ReadText(utf8, EMPTY, SplitText(FramesBytes(payloads))) == Reading(PayloadEvents(payloads), CleanEnd)
    decreases |payloads|
  {
    if payloads != [] {
      var payload, rest := payloads[0], payloads[1..];
      FramesMore(utf8, payloads, payload, rest);
      PayloadsMore(payload, rest);
      FramesRead(utf8, rest);
      FrameThenRest(utf8, payload, SplitText(FramesBytes(rest)), PayloadEvents(rest));
      assert [payload] + rest == payloads;
    }
  }

  ghost predicate AllFit(l: Limits, payloads: seq<string>) {
    forall i :: 0 <= i < |payloads| ==> PayloadFits(l, payloads[i])
  }

  lemma {:induction false} FramesFit(l: Limits, utf8: Utf8Test, payloads: seq<string>)
    requires AllFit(l, payloads) && AllOneLine(utf8, payloads)
    ensures LinesFit(l, SplitText(FramesBytes(payloads))) && EventsFit(l, SplitText(FramesBytes(payloads)), 0)
    ensures Unmark(SplitText(FramesBytes(payloads))) == SplitText(FramesBytes(payloads))
    decreases |payloads|
  {
    if payloads != [] {
      var payload, rest := payloads[0], payloads[1..];
      var line, more := "data: " + payload, SplitText(FramesBytes(rest));
      assert OneLine(utf8, payload) && PayloadFits(l, payload);
      SplitFrame(payload, FramesBytes(rest));
      FramesFit(l, utf8, rest);
      FrameFits(l, payload, more);
      NoBom(payload);
      assert [line] + ([line, ""] + more.lines)[1..] == [line, ""] + more.lines;
      assert forall i :: 0 <= i < |more.lines| ==> ([line, ""] + more.lines)[i + 2] == more.lines[i];
    }
  }

  lemma NoBom(payload: string)
    ensures StripBom("data: " + payload) == "data: " + payload
  {
    assert BOM[0] != ("data: " + payload)[0];
  }

  lemma FrameFits(l: Limits, payload: string, more: Text)
    requires PayloadFits(l, payload) && EventsFit(l, more, 0)
    ensures EventsFit(l, Text(["data: " + payload, ""] + more.lines, more.tail), 0)
  {
    var line := "data: " + payload;
    var t, blank := Text([line, ""] + more.lines, more.tail), Text([""] + more.lines, more.tail);
    assert t.(lines := t.lines[1..]) == blank && blank.(lines := blank.lines[1..]) == more;
    var used := Plus(0, Size(line));
    assert Plus(used, Size("")) <= EventCap(l);
    assert EventsFit(l, blank, used);
  }

  /** Frames written by the session come back as exactly their payloads. */
  lemma FramesRoundTrip(l: Limits, utf8: Utf8Test, payloads: seq<string>)
    requires Utf8Facts(utf8) && AllOneLine(utf8, payloads) && AllFit(l, payloads)
    ensures Drain(l, utf8, Initial(Source(FramesBytes(payloads), false))) == Reading(PayloadEvents(payloads), CleanEnd)
  {
    FramesFit(l, utf8, payloads);
    FramesRead(utf8, payloads);
    DecoderRefinesReference(l, utf8, FramesBytes(payloads));
  }
}
