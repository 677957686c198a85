/** Provider-neutral vocabulary shared by the stream decoder, the Responses
    session and the continuation store.

    A string is read as a sequence of bytes, one byte per character, so |s| is
    the byte length the source measures with len. */
module Bridge {

  datatype Option<+T> = None | Some(value: T)

  datatype ToolKind = KindUnset | KindFunction | KindCustom | KindOther(text: string)

  datatype ToolKey = ToolKey(choice: int, tool: int)

  datatype Registration = Registration(kind: ToolKind, inbound: string, upstream: string, wrapper: string)

  datatype Usage = Usage(prompt: int, completion: int, total: int, cacheHit: int, cacheMiss: int, reasoning: int)

  datatype FailureCode =
    | UpstreamEof
    | UpstreamError
    | UpstreamTerminalError
    | UpstreamStreamError
    | ToolNotDeclared
    | CustomToolInvalid
    | StreamLimitExceeded
    | StreamInterrupted
    | StreamTimeout
    | StreamCanceled
    | ContinuationCapacity
    | ContinuationCommit
    | StreamInvalidTransition
    | GenericStreamError
    | OtherCode(text: string)

  /** Semantic stream events. NilEvent stands for a nil or unknown event value. */
  datatype Event =
    | ResponseStarted(id: string, model: string)
    | TextDelta(choice: int, text: string)
    | ReasoningDelta(choice: int, text: string)
    | UsageUpdated(usage: Usage)
    | ToolCallStarted(key: ToolKey, kind: ToolKind, callId: string, name: string)
    | ToolCallMetadata(key: ToolKey, callId: string, name: string)
    | ToolCallArguments(key: ToolKey, arguments: string)
    | ToolCallCompleted(key: ToolKey, kind: ToolKind, callId: string, name: string, arguments: string)
    | Completed
    | Incomplete(maxTokens: bool)
    | Failed(code: FailureCode)
    | NilEvent

  predicate IsTerminal(e: Event) {
    e.Completed? || e.Incomplete? || e.Failed?
  }

  datatype ToolResult = ToolResult(callId: string, kind: ToolKind, output: string, status: string, error: bool)

  /** The provider-side assistant turn kept for the continuation. */
  datatype UpstreamCall = UpstreamCall(callId: string, providerId: string, kind: ToolKind, name: string,
                                       arguments: string)

  datatype PendingTurn = PendingTurn(provider: string, model: string, reasoning: string, content: string,
                                     calls: seq<UpstreamCall>)

  const PROVIDER_NAME := "opencodego"

  /** The one custom tool, under the name the client knows. */
  const APPLY_PATCH := "apply_patch"

  // ----- UTF-8 and the identifier check of the Responses session -----
  // The protocol modules take the UTF-8 test as a parameter and use only
  // Utf8Facts; Utf8Valid below is the test itself and has those facts.

  type Utf8Test = string -> bool

  ghost predicate Utf8Facts(utf8: Utf8Test) {
    && (forall a, b {:trigger utf8(a + b)} :: utf8(a) && utf8(b) ==> utf8(a + b))
    && (forall s {:trigger utf8(s)} :: Ascii(s) ==> utf8(s))
  }

  predicate Ascii(s: string) {
    forall i :: 0 <= i < |s| ==> Between(s[i], 0x00, 0x7F)
  }

  predicate Between(c: char, lo: int, hi: int) {
    lo <= c as int <= hi
  }

  /** How many bytes a UTF-8 sequence with this first byte has; 0 if none starts so. */
  function LeadLength(c: char): nat {
    if Between(c, 0x00, 0x7F) then 1
    else if Between(c, 0xC2, 0xDF) then 2
    else if Between(c, 0xE0, 0xEF) then 3
    else if Between(c, 0xF0, 0xF4) then 4
    else 0
  }

  /** The second byte: some first bytes narrow its range, against overlong forms,
      surrogates and code points that are too large. */
  predicate SecondFits(lead: char, second: char) {
    if Between(lead, 0xE0, 0xE0) then Between(second, 0xA0, 0xBF)
    else if Between(lead, 0xED, 0xED) then Between(second, 0x80, 0x9F)
    else if Between(lead, 0xF0, 0xF0) then Between(second, 0x90, 0xBF)
    else if Between(lead, 0xF4, 0xF4) then Between(second, 0x80, 0x8F)
    else Between(second, 0x80, 0xBF)
  }

  /** The first n bytes of s are one UTF-8 sequence. */
  predicate IsRune(s: string, n: nat) {
    && 0 < n <= |s| && n == LeadLength(s[0])
    && (n > 1 ==> SecondFits(s[0], s[1]))
    && forall i :: 2 <= i < n ==> Between(s[i], 0x80, 0xBF)
  }

  /** Length of the well-formed UTF-8 sequence at the front of s, 0 if there is none. */
  function RuneLength(s: string): (n: nat)
    ensures n <= |s|
  {
    if s != "" && IsRune(s, LeadLength(s[0])) then LeadLength(s[0]) else 0
  }

  predicate Utf8Valid(s: string) {
    s == "" || (RuneLength(s) > 0 && Utf8Valid(s[RuneLength(s)..]))
  }

  lemma RuneStays(a: string, b: string)
    requires RuneLength(a) > 0
    ensures RuneLength(a + b) == RuneLength(a)
  {
    var n := RuneLength(a);
    assert forall i :: 0 <= i < n ==> (a + b)[i] == a[i];
    assert IsRune(a + b, n);
  }

  lemma {:induction false} Utf8Concat(a: string, b: string)
    requires Utf8Valid(a) && Utf8Valid(b)
    ensures Utf8Valid(a + b)
  {
    if a == "" {
      assert a + b == b;
    } else {
      var n := RuneLength(a);
      RuneStays(a, b);
      assert (a + b)[n..] == a[n..] + b;
      Utf8Concat(a[n..], b);
    }
  }

  lemma {:induction false} AsciiIsUtf8(s: string)
    requires Ascii(s)
    ensures Utf8Valid(s)
  {
    if s != "" {
      AsciiIsUtf8(s[1..]);
    }
  }

  lemma Utf8ValidHasFacts()
    ensures Utf8Facts(Utf8Valid)
  {
    forall a, b | Utf8Valid(a) && Utf8Valid(b)
      ensures Utf8Valid(a + b)
    {
      Utf8Concat(a, b);
    }
    forall s | Ascii(s)
      ensures Utf8Valid(s)
    {
      AsciiIsUtf8(s);
    }
  }

  predicate Printable(s: string) {
    forall i :: 0 <= i < |s| ==> s[i] as int >= 0x20
  }

  predicate ValidStreamValue(utf8: Utf8Test, value: string, maxBytes: int) {
    value != "" && |value| <= maxBytes && utf8(value) && Printable(value)
  }

  predicate ValidOptionalStreamValue(utf8: Utf8Test, value: string, maxBytes: int) {
    value == "" || ValidStreamValue(utf8, value, maxBytes)
  }

  // ----- decimal formatting, for synthetic call ids -----

  function Decimal(n: nat): string {
    var digit := [(0x30 + n % 10) as char];
    if n < 10 then digit else Decimal(n / 10) + digit
  }

  function SignedDecimal(n: int): string {
    if n < 0 then "-" + Decimal(-n) else Decimal(n)
  }

  /** The call id the decoder invents when the first fragment carries none. */
  function SyntheticCallId(key: ToolKey): string {
    "call_" + SignedDecimal(key.choice) + "_" + SignedDecimal(key.tool)
  }

  lemma {:induction false} DecimalDigits(n: nat)
    ensures forall i :: 0 <= i < |Decimal(n)| ==> Between(Decimal(n)[i], 0x30, 0x39)
  {
    if n >= 10 {
      DecimalDigits(n / 10);
    }
  }

  lemma SyntheticCallIdValid(utf8: Utf8Test, key: ToolKey, maxBytes: int)
    requires Utf8Facts(utf8)
    requires key.choice >= 0 && key.tool >= 0
    requires |SyntheticCallId(key)| <= maxBytes
    ensures ValidStreamValue(utf8, SyntheticCallId(key), maxBytes)
  {
    var s := SyntheticCallId(key);
    DecimalDigits(key.choice);
    DecimalDigits(key.tool);
    assert forall i :: 0 <= i < |s| ==> Between(s[i], 0x20, 0x7F);
    assert Ascii(s);
  }
}
