/** Server-Sent Events: a reference reading of a byte string, and the bounded
    machine of SSEDecoder as functions on values. A string is a sequence of bytes. */
module SseSpec {
  import opened Bridge

  // ----- fields and events -----

  datatype SseEvent = SseEvent(event: string, id: string, retry: Option<nat>, data: string)

  /** The buffers between two blank lines; id outlives the event. */
  datatype Buffers = Buffers(data: string, event: string, id: string, retry: Option<nat>)

  const EMPTY := Buffers("", "", "", None)

  const MAX_RETRY: int := 9223372036854

  predicate IsBreak(c: char) {
    c == '\r' || c == '\n'
  }

  function FirstColon(s: string): (n: nat)
    ensures n <= |s| && (n < |s| ==> s[n] == ':') && forall i :: 0 <= i < n ==> s[i] != ':'
  {
    if s == "" || s[0] == ':' then 0 else 1 + FirstColon(s[1..])
  }

  function FieldName(line: string): string {
    line[..FirstColon(line)]
  }

  function WithoutSpace(value: string): string {
    if value != "" && value[0] == ' ' then value[1..] else value
  }

  function FieldValue(line: string): string {
    var n := FirstColon(line);
    if n == |line| then "" else WithoutSpace(line[n + 1..])
  }

  predicate IsDigit(c: char) {
    '0' <= c <= '9'
  }

  function DigitOf(c: char): nat
    requires IsDigit(c)
  {
    c as int - '0' as int
  }

  function Digits(s: string): nat
    requires forall i :: 0 <= i < |s| ==> IsDigit(s[i])
  {
    if s == "" then 0
    else
      var n := |s| - 1;
      10 * Digits(s[..n]) + DigitOf(s[n])
  }

  predicate Signed(s: string) {
    s != "" && (s[0] == '+' || s[0] == '-')
  }

  function Unsigned(s: string): string {
    if Signed(s) then s[1..] else s
  }

  /** parseRetry: a decimal integer with an optional sign, not negative, at most the
      longest duration; "+5" and "-0" are numbers to strconv.ParseInt. */
  function ParseRetry(value: string): Option<nat> {
    var digits := Unsigned(value);
    if digits == "" || exists i :: 0 <= i < |digits| && !IsDigit(digits[i]) then None
    else
      var n := Digits(digits);
      if (value[0] == '-' && n > 0) || n > MAX_RETRY then None else Some(n)
  }

  predicate HasNul(s: string) {
    exists i :: 0 <= i < |s| && s[i] == 0 as char
  }

  /** One line that is not blank. */
  function Absorb(b: Buffers, line: string): Buffers {
    if line != "" && line[0] == ':' then b
    else
      var name, value := FieldName(line), FieldValue(line);
      if name == "data" then b.(data := b.data + value + "\n")
      else if name == "event" then b.(event := value)
      else if name == "id" then (if HasNul(value) then b else b.(id := value))
      else if name == "retry" then (if ParseRetry(value).None? then b else b.(retry := ParseRetry(value)))
      else b
  }

  predicate Pending(b: Buffers) {
    b.data != "" || b.event != "" || b.retry.Some?
  }

  function Payload(b: Buffers): string {
    if b.data == "" then "" else b.data[..|b.data| - 1]
  }

  function Dispatched(b: Buffers): SseEvent {
    SseEvent(b.event, b.id, b.retry, Payload(b))
  }

  function Cleared(b: Buffers): Buffers {
    EMPTY.(id := b.id)
  }

  // ----- the reference reading -----

  /** How a stream ends: properly, inside an event or a line, with bytes that are
      not UTF-8, over a limit, or in a read error. */
  datatype Finish = CleanEnd | CutShort | NotUtf8 | OverLimit | ReadFailed

  datatype Reading = Reading(events: seq<SseEvent>, finish: Finish)

  datatype Source = Source(bytes: string, broken: bool)

  function LineLength(s: string): (n: nat)
    ensures n <= |s| && (forall i :: 0 <= i < n ==> !IsBreak(s[i])) && (n < |s| ==> IsBreak(s[n]))
  {
    if s == "" || IsBreak(s[0]) then 0 else 1 + LineLength(s[1..])
  }

  /** What follows the line break at position n: one LF, one CR, or CR LF. */
  function AfterBreak(s: string, n: nat): (rest: string)
    requires n < |s|
    ensures |rest| < |s|
  {
    if s[n] == '\r' && n + 1 < |s| && s[n + 1] == '\n' then s[n + 2..] else s[n + 1..]
  }

  /** The terminated lines of a byte string, and the unterminated one after them. */
  datatype Text = Text(lines: seq<string>, tail: Option<string>)

  function SplitText(s: string): Text
    decreases |s|
  {
    var n := LineLength(s);
    if n == |s| then Text([], if s == "" then None else Some(s))
    else
      var more := SplitText(AfterBreak(s, n));
      Text([s[..n]] + more.lines, more.tail)
  }

  const BOM: string := [0xEF as char, 0xBB as char, 0xBF as char]

  function StripBom(line: string): string {
    if BOM <= line then line[3..] else line
  }

  /** One leading byte order mark is dropped from the first line, ended or not. */
  function Unmark(t: Text): Text {
    if t.lines != [] then t.(lines := [StripBom(t.lines[0])] + t.lines[1..])
    else if t.tail.Some? then t.(tail := Some(StripBom(t.tail.value)))
    else t
  }

  /** The events of a list of lines, and what is left in the buffers; None from the
      first line that is not UTF-8 on. */
  function Interpret(utf8: Utf8Test, b: Buffers, lines: seq<string>): (seq<SseEvent>, Option<Buffers>)
    decreases |lines|
  {
    if lines == [] then ([], Some(b))
    else if !utf8(lines[0]) then ([], None)
    else if lines[0] != "" then Interpret(utf8, Absorb(b, lines[0]), lines[1..])
    else if !Pending(b) then Interpret(utf8, b, lines[1..])
    else
      var rest := Interpret(utf8, Cleared(b), lines[1..]);
      (if Payload(b) == "" then rest.0 else [Dispatched(b)] + rest.0, rest.1)
  }

  /** The reference: split into lines, strip one leading byte order mark, fold the
      fields, dispatch on blank lines, skip events without data, and report an end
      inside an event or a line. */
  function Read(utf8: Utf8Test, bytes: string): Reading {
    ReadText(utf8, EMPTY, Unmark(SplitText(bytes)))
  }

  function ReadText(utf8: Utf8Test, b: Buffers, t: Text): Reading {
    var r := Interpret(utf8, b, t.lines);
    Reading(r.0, Ending(utf8, r.1, t.tail))
  }

  function Ending(utf8: Utf8Test, left: Option<Buffers>, tail: Option<string>): Finish {
    if left.None? then NotUtf8
    else if tail.None? then (if Pending(left.value) then CutShort else CleanEnd)
    else if !utf8(tail.value) then NotUtf8
    else CutShort
  }

  // ----- the machine -----

  datatype Limits = Limits(line: int, event: int, buffered: int)

  function Min(a: int, b: int): int {
    if a < b then a else b
  }

  /** lineLimit. */
  function LineLimit(l: Limits): int {
    Min(Min(l.line, l.buffered), l.event)
  }

  datatype State = State(src: Source, buf: Buffers, eventBytes: int, bomHandled: bool, failed: Option<Finish>)

  function Initial(src: Source): State {
    State(src, EMPTY, 0, false, None)
  }

  datatype LineRead = Line(line: string, ended: bool, rest: Source) | NoLine | NoRead(cause: Finish)

  /** readLine. */
  function ReadLine(l: Limits, src: Source): (r: LineRead)
    ensures r.Line? ==> |r.rest.bytes| < |src.bytes|
  {
    var s := src.bytes;
    var n := LineLength(s);
    if n > LineLimit(l) && n > 0 then NoRead(OverLimit)
    else if n < |s| then
      if src.broken && s[n] == '\r' && n + 1 == |s| then NoRead(ReadFailed)
      else Line(s[..n], true, src.(bytes := AfterBreak(s, n)))
    else if src.broken then NoRead(ReadFailed)
    else if s == "" then NoLine
    else Line(s, false, src.(bytes := ""))
  }

  /** addEventBytes: what the counter becomes, if the limits allow it. */
  function AddBytes(l: Limits, eventBytes: int, bytes: int): Option<int> {
    if bytes < 0 || eventBytes > l.event - bytes then None
    else if eventBytes + bytes > l.buffered then None
    else Some(eventBytes + bytes)
  }

  /** processLine, with its own limit checks. */
  function ProcessLine(l: Limits, b: Buffers, line: string): Option<Buffers>
    requires line != ""
  {
    if |line| > l.line || |line| > l.buffered then None
    else if line[0] != ':' && FieldName(line) == "data" && |b.data| > l.event - |FieldValue(line)| - 1 then None
    else Some(Absorb(b, line))
  }

  function Fail(st: State, cause: Finish): State {
    st.(failed := Some(cause))
  }

  datatype Next = Emit(event: SseEvent, st: State) | Continue(st: State) | Stop(finish: Finish, st: State)

  function Size(line: string): int {
    |line| + 1
  }

  /** One round of the loop of Next. */
  function Round(l: Limits, utf8: Utf8Test, st: State): (r: Next)
    ensures !r.Stop? ==> |r.st.src.bytes| < |st.src.bytes|
  {
    match ReadLine(l, st.src)
    case NoLine => if Pending(st.buf) then Stop(CutShort, Fail(st, CutShort)) else Stop(CleanEnd, st)
    case NoRead(cause) => Stop(cause, Fail(st, cause))
    case Line(raw, ended, rest) => TakeLine(l, utf8, st.(src := rest, bomHandled := true),
      if st.bomHandled then raw else StripBom(raw), ended)
  }

  function TakeLine(l: Limits, utf8: Utf8Test, st: State, line: string, ended: bool): (r: Next)
    ensures r.st.src == st.src
  {
    if !utf8(line) then Stop(NotUtf8, Fail(st, NotUtf8))
    else
      var bytes := AddBytes(l, st.eventBytes, Size(line));
      if bytes.None? then Stop(OverLimit, Fail(st, OverLimit))
      else UseLine(l, st.(eventBytes := bytes.value), line, ended)
  }

  function UseLine(l: Limits, st: State, line: string, ended: bool): (r: Next)
    ensures r.st.src == st.src
  {
    if line == "" then
      if !ended then Stop(CutShort, Fail(st, CutShort))
      else if !Pending(st.buf) then Continue(st.(eventBytes := 0))
      else if Payload(st.buf) == "" then Continue(st.(buf := Cleared(st.buf), eventBytes := 0))
      else Emit(Dispatched(st.buf), st.(buf := Cleared(st.buf), eventBytes := 0))
    else
      var b := ProcessLine(l, st.buf, line);
      if b.None? then Stop(OverLimit, Fail(st, OverLimit))
      else if !ended then Stop(CutShort, Fail(st.(buf := b.value), CutShort))
      else Continue(st.(buf := b.value))
  }

  /** Everything that repeated calls of Next still return. */
  function Drain(l: Limits, utf8: Utf8Test, st: State): Reading
    decreases |st.src.bytes|
  {
    if st.failed.Some? then Reading([], st.failed.value)
    else
      var r := Round(l, utf8, st);
      match r
      case Stop(finish, _) => Reading([], finish)
      case Continue(st') => Drain(l, utf8, st')
      case Emit(e, st') => var more := Drain(l, utf8, st'); Reading([e] + more.events, more.finish)
  }
}
