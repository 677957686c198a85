/** The structural pass over a request body: an explicit stack of open collections,
    fed one JSON token at a time. It accepts a token list exactly if the list is the
    token list of one JSON value whose nesting, collection sizes and token count
    are within the limits and in which no object repeats a key. */
module JsonScanner {
  // ----- tokens and values -----

  datatype Token = OpenObject | CloseObject | OpenArray | CloseArray | Text(text: string) | Scalar

  datatype Value = Atom | Word(text: string) | Array(items: seq<Value>) | Object(members: seq<Member>)
  datatype Member = Member(key: string, value: Value)

  function Tokens(v: Value): (r: seq<Token>)
    ensures r != []
    decreases v
  {
    match v
    case Atom => [Scalar]
    case Word(text) => [Text(text)]
    case Array(items) => [OpenArray] + ItemTokens(items) + [CloseArray]
    case Object(members) => [OpenObject] + MemberTokens(members) + [CloseObject]
  }

  function ItemTokens(items: seq<Value>): seq<Token>
    decreases items
  {
    if items == [] then [] else ItemTokens(items[..|items| - 1]) + Tokens(items[|items| - 1])
  }

  function MemberTokens(members: seq<Member>): seq<Token>
    decreases members
  {
    if members == [] then []
    else
      var last := members[|members| - 1];
      MemberTokens(members[..|members| - 1]) + [Text(last.key)] + Tokens(last.value)
  }

  predicate DistinctKeys(members: seq<Member>) {
    forall i, j :: 0 <= i < j < |members| ==> members[i].key != members[j].key
  }

  /** Nesting of at most depth, collections of at most size, no repeated key. */
  predicate Within(v: Value, depth: int, size: int)
    decreases v
  {
    match v
    case Atom => true
    case Word(_) => true
    case Array(items) =>
      depth > 0 && |items| <= size && forall i :: 0 <= i < |items| ==> Within(items[i], depth - 1, size)
    case Object(members) =>
      && depth > 0 && |members| <= size && DistinctKeys(members)
      && forall i :: 0 <= i < |members| ==> Within(members[i].value, depth - 1, size)
  }

  // ----- the scanner -----

  datatype Limits = Limits(depth: int, tokens: int, items: int)

  datatype Error =
    | LimitsNotPositive | TooManyTokens | TrailingValue | UnexpectedDelimiter | TooDeep | KeyNotText
    | DuplicateKey | TooManyMembers | TooManyItems | ValueMissing | IncompleteValue | ReaderFailed

  datatype Frame = Frame(isObject: bool, expectingKey: bool, count: nat, seen: set<string>)

  datatype Scanner = Scanner(stack: seq<Frame>, rootComplete: bool, tokens: nat)

  datatype Fed = More(st: Scanner) | Rejected(error: Error)

  const START := Scanner([], false, 0)

  predicate IsDelimiter(t: Token) {
    !t.Text? && !t.Scalar?
  }

  predicate Opens(t: Token) {
    t.OpenObject? || t.OpenArray?
  }

  function Push(st: Scanner, t: Token): Scanner {
    st.(stack := st.stack + [Frame(t.OpenObject?, t.OpenObject?, 0, {})])
  }

  /** completeValue. */
  function CompleteValue(st: Scanner): Scanner {
    if st.stack == [] then st.(rootComplete := true)
    else
      var top := |st.stack| - 1;
      if st.stack[top].isObject then st.(stack := st.stack[top := st.stack[top].(expectingKey := true)]) else st
  }

  /** The body of the loop for one token that is not beyond the token limit. */
  function Feed(limits: Limits, st: Scanner, t: Token): Fed {
    if st.stack == [] then FeedRoot(limits, st, t)
    else
      var top := |st.stack| - 1;
      if st.stack[top].isObject && st.stack[top].expectingKey then FeedKey(limits, st, t)
      else if !st.stack[top].isObject then FeedItem(limits, st, t)
      else if t == CloseObject then Rejected(ValueMissing)
      else FeedValue(limits, st, t)
  }

  function FeedRoot(limits: Limits, st: Scanner, t: Token): Fed {
    if st.rootComplete then Rejected(TrailingValue)
    else if !IsDelimiter(t) then More(st.(rootComplete := true))
    else if !Opens(t) then Rejected(UnexpectedDelimiter)
    else if 1 > limits.depth then Rejected(TooDeep)
    else More(Push(st, t))
  }

  function FeedKey(limits: Limits, st: Scanner, t: Token): Fed
    requires st.stack != []
  {
    var top := |st.stack| - 1;
    var frame := st.stack[top];
    if t == CloseObject then More(CompleteValue(st.(stack := st.stack[..top])))
    else if !t.Text? then Rejected(KeyNotText)
    else if t.text in frame.seen then Rejected(DuplicateKey)
    else if frame.count + 1 > limits.items then Rejected(TooManyMembers)
    else More(st.(stack := st.stack[top := Frame(true, false, frame.count + 1, frame.seen + {t.text})]))
  }

  function FeedItem(limits: Limits, st: Scanner, t: Token): Fed
    requires st.stack != []
  {
    var top := |st.stack| - 1;
    var frame := st.stack[top];
    if t == CloseArray then More(CompleteValue(st.(stack := st.stack[..top])))
    else if frame.count + 1 > limits.items then Rejected(TooManyItems)
    else FeedValue(limits, st.(stack := st.stack[top := frame.(count := frame.count + 1)]), t)
  }

  function FeedValue(limits: Limits, st: Scanner, t: Token): Fed {
    if !IsDelimiter(t) then More(CompleteValue(st))
    else if !Opens(t) then Rejected(UnexpectedDelimiter)
    else if |st.stack| + 1 > limits.depth then Rejected(TooDeep)
    else More(Push(st, t))
  }

  /** How the reader ends the token list: at the end of the input, or in an error. */
  datatype Ending = EndOfInput | BrokenInput

  function Next(limits: Limits, st: Scanner, t: Token): Fed {
    if st.tokens + 1 > limits.tokens then Rejected(TooManyTokens)
    else Feed(limits, st.(tokens := st.tokens + 1), t)
  }

  function ScanFrom(limits: Limits, st: Scanner, tokens: seq<Token>): Fed
    decreases |tokens|
  {
    if tokens == [] then More(st)
    else
      var fed := Next(limits, st, tokens[0]);
      if fed.Rejected? then fed else ScanFrom(limits, fed.st, tokens[1..])
  }

  datatype Verdict = Accepted | Refused(error: Error)

  function Judge(fed: Fed, ending: Ending): Verdict {
    if fed.Rejected? then Refused(fed.error)
    else if ending == BrokenInput then Refused(ReaderFailed)
    else if !fed.st.rootComplete || fed.st.stack != [] then Refused(IncompleteValue)
    else Accepted
  }

  function Validate(limits: Limits, tokens: seq<Token>, ending: Ending): Verdict {
    if limits.depth <= 0 || limits.tokens <= 0 || limits.items <= 0 then Refused(LimitsNotPositive)
    else Judge(ScanFrom(limits, START, tokens), ending)
  }

  // ----- the loop of the source -----

  method ValidateDocument(limits: Limits, tokens: seq<Token>, ending: Ending) returns (verdict: Verdict)
    ensures verdict == Validate(limits, tokens, ending)
  {
    if limits.depth <= 0 || limits.tokens <= 0 || limits.items <= 0 {
      return Refused(LimitsNotPositive);
    }
    var st := START;
    for i := 0 to |tokens|
      invariant ScanFrom(limits, START, tokens) == ScanFrom(limits, st, tokens[i..])
    {
      assert tokens[i..][0] == tokens[i] && tokens[i..][1..] == tokens[i + 1..];
      st := st.(tokens := st.tokens + 1);
      if st.tokens > limits.tokens {
        return Refused(TooManyTokens);
      }
      var error;
      st, error := Step(limits, st, tokens[i]);
      if error.Refused? {
        return error;
      }
    }
    if ending == BrokenInput {
      return Refused(ReaderFailed);
    }
    if !st.rootComplete || |st.stack| != 0 {
      return Refused(IncompleteValue);
    }
    return Accepted;
  }

  /** The body of the loop, with the frame stack in a local variable. */
  method Step(limits: Limits, st: Scanner, token: Token) returns (next: Scanner, verdict: Verdict)
    ensures Feed(limits, st, token) == if verdict.Refused? then Rejected(verdict.error) else More(next)
  {
    var stack := st.stack;
    next, verdict := st, Accepted;
    if |stack| == 0 {
      if st.rootComplete {
        return next, Refused(TrailingValue);
      }
      if !IsDelimiter(token) {
        next := st.(rootComplete := true);
        return;
      }
      if !Opens(token) {
        return next, Refused(UnexpectedDelimiter);
      }
      if 1 > limits.depth {
        return next, Refused(TooDeep);
      }
      next := Push(st, token);
      return;
    }
    var top := |stack| - 1;
    var current := stack[top];
    if current.isObject && current.expectingKey {
      if token == CloseObject {
        next := CompleteValue(st.(stack := stack[..top]));
        return;
      }
      if !token.Text? {
        return next, Refused(KeyNotText);
      }
      if token.text in current.seen {
        return next, Refused(DuplicateKey);
      }
      if current.count + 1 > limits.items {
        return next, Refused(TooManyMembers);
      }
      next := st.(stack := stack[top := Frame(true, false, current.count + 1, current.seen + {token.text})]);
      return;
    }
    if !current.isObject {
      if token == CloseArray {
        next := CompleteValue(st.(stack := stack[..top]));
        return;
      }
      if current.count + 1 > limits.items {
        return next, Refused(TooManyItems);
      }
      stack := stack[top := current.(count := current.count + 1)];
    } else if token == CloseObject {
      return next, Refused(ValueMissing);
    }
    next := st.(stack := stack);
    if IsDelimiter(token) {
      if !Opens(token) {
        return next, Refused(UnexpectedDelimiter);
      }
      if |stack| + 1 > limits.depth {
        return next, Refused(TooDeep);
      }
      next := Push(next, token);
      return;
    }
    next := CompleteValue(next);
  }
}
