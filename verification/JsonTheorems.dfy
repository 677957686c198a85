/** The scanner of JsonScanner against the definition of a JSON value: every state
    of the scanner is the picture of one partly read value, and reading a whole
    value leads to the picture of that value. */
module JsonTheorems {
  import opened JsonScanner

  // ----- partly read values -----

  /** An open collection: an array with its items so far, an object between two
      members, or an object whose next key has been read. */
  datatype Part = Items(items: seq<Value>) | Members(members: seq<Member>) | Keyed(members: seq<Member>, key: string)

  datatype Parse = Open(parts: seq<Part>) | Whole(value: Value)

  function PartTokens(p: Part): seq<Token> {
    match p
    case Items(items) => [OpenArray] + ItemTokens(items)
    case Members(members) => [OpenObject] + MemberTokens(members)
    case Keyed(members, key) => [OpenObject] + MemberTokens(members) + [Text(key)]
  }

  function AllTokens(parts: seq<Part>): seq<Token> {
    if parts == [] then [] else AllTokens(parts[..|parts| - 1]) + PartTokens(parts[|parts| - 1])
  }

  function ReadSoFar(p: Parse): seq<Token> {
    if p.Open? then AllTokens(p.parts) else Tokens(p.value)
  }

  /** The value fills the innermost open place. */
  function Fill(parts: seq<Part>, v: Value): Parse {
    if parts == [] then Whole(v)
    else
      var outer, inner := parts[..|parts| - 1], parts[|parts| - 1];
      match inner
      case Items(items) => Open(outer + [Items(items + [v])])
      case Members(members) => Open(parts)
      case Keyed(members, key) => Open(outer + [Members(members + [Member(key, v)])])
  }

  function NewPart(t: Token): Part {
    if t.OpenObject? then Members([]) else Items([])
  }

  function LeafOf(t: Token): Value {
    if t.Text? then Word(t.text) else Atom
  }

  /** The parse after one more token that the scanner lets pass. */
  function Extend(p: Parse, t: Token): Parse {
    if p.Whole? then p
    else if p.parts == [] then (if Opens(t) then Open([NewPart(t)]) else Fill([], LeafOf(t)))
    else
      var outer, inner := p.parts[..|p.parts| - 1], p.parts[|p.parts| - 1];
      match inner
      case Members(members) =>
        if t.Text? then Open(outer + [Keyed(members, t.text)]) else Fill(outer, Object(members))
      case Items(items) =>
        if t == CloseArray then Fill(outer, Array(items))
        else if Opens(t) then Open(p.parts + [NewPart(t)]) else Fill(p.parts, LeafOf(t))
      case Keyed(_, _) =>
        if Opens(t) then Open(p.parts + [NewPart(t)]) else Fill(p.parts, LeafOf(t))
  }

  // ----- the scanner's picture of a parse -----

  function Keys(members: seq<Member>): set<string> {
    set i | 0 <= i < |members| :: members[i].key
  }

  function FrameOf(p: Part, innermost: bool): Frame {
    match p
    case Items(items) => Frame(false, false, if innermost then |items| else |items| + 1, {})
    case Members(members) => Frame(true, true, |members|, Keys(members))
    case Keyed(members, key) => Frame(true, false, |members| + 1, Keys(members) + {key})
  }

  function Frames(parts: seq<Part>): seq<Frame> {
    seq(|parts|, i requires 0 <= i < |parts| => FrameOf(parts[i], i == |parts| - 1))
  }

  function Picture(p: Parse): Scanner {
    if p.Open? then Scanner(Frames(p.parts), false, |ReadSoFar(p)|) else Scanner([], true, |ReadSoFar(p)|)
  }

  // ----- limits on a partly read value -----

  predicate AllWithin(items: seq<Value>, depth: int, size: int) {
    forall i :: 0 <= i < |items| ==> Within(items[i], depth, size)
  }

  predicate MembersWithin(members: seq<Member>, depth: int, size: int) {
    forall i :: 0 <= i < |members| ==> Within(members[i].value, depth, size)
  }

  predicate PartGood(p: Part, depth: int, size: int, innermost: bool) {
    match p
    case Items(items) => (if innermost then |items| else |items| + 1) <= size && AllWithin(items, depth, size)
    case Members(members) => innermost && |members| <= size && DistinctKeys(members) &&
      MembersWithin(members, depth, size)
    case Keyed(members, key) =>
      && |members| + 1 <= size && DistinctKeys(members) && key !in Keys(members) && MembersWithin(members, depth, size)
  }

  /** The nesting that is left inside part i. */
  function Left(limits: Limits, i: int): int {
    limits.depth - 1 - i
  }

  predicate Good(limits: Limits, p: Parse) {
    if p.Whole? then Within(p.value, limits.depth, limits.items)
    else |p.parts| <= limits.depth && forall i :: 0 <= i < |p.parts| ==>
      PartGood(p.parts[i], Left(limits, i), limits.items, i == |p.parts| - 1)
  }

  // ----- token lists -----

  lemma ItemTokensLast(items: seq<Value>, v: Value)
    ensures ItemTokens(items + [v]) == ItemTokens(items) + Tokens(v)
  {
    assert (items + [v])[..|items|] == items;
  }

  lemma MemberTokensLast(members: seq<Member>, key: string, v: Value)
    ensures MemberTokens(members + [Member(key, v)]) == MemberTokens(members) + [Text(key)] + Tokens(v)
  {
    assert (members + [Member(key, v)])[..|members|] == members;
  }

  lemma AllTokensLast(outer: seq<Part>, inner: Part)
    ensures AllTokens(outer + [inner]) == AllTokens(outer) + PartTokens(inner)
  {
    assert (outer + [inner])[..|outer|] == outer;
  }

  lemma Join<T>(a: seq<T>, b: seq<T>, c: seq<T>)
    ensures a + b + c == a + (b + c)
  {
  }

  /** A place that can take a value. */
  predicate Expects(parts: seq<Part>) {
    parts == [] || !parts[|parts| - 1].Members?
  }

  lemma Innermost(outer: seq<Part>, inner: Part)
    ensures (outer + [inner])[..|outer|] == outer && (outer + [inner])[|outer|] == inner
  {
  }

  lemma PartGrows(outer: seq<Part>, inner: Part, next: Part, more: seq<Token>)
    requires PartTokens(next) == PartTokens(inner) + more
    ensures AllTokens(outer + [next]) == AllTokens(outer + [inner]) + more
  {
    AllTokensLast(outer, inner);
    AllTokensLast(outer, next);
    Join(AllTokens(outer), PartTokens(inner), more);
  }

  lemma ItemsGrow(items: seq<Value>, v: Value)
    ensures PartTokens(Items(items + [v])) == PartTokens(Items(items)) + Tokens(v)
  {
    ItemTokensLast(items, v);
    Join([OpenArray], ItemTokens(items), Tokens(v));
  }

  lemma MembersGrow(members: seq<Member>, key: string, v: Value)
    ensures PartTokens(Members(members + [Member(key, v)])) == PartTokens(Keyed(members, key)) + Tokens(v)
  {
    MemberTokensLast(members, key, v);
    Join([OpenObject], MemberTokens(members) + [Text(key)], Tokens(v));
    Join([OpenObject], MemberTokens(members), [Text(key)]);
  }

  lemma FillTokens(outer: seq<Part>, inner: Part, v: Value)
    requires !inner.Members?
    ensures ReadSoFar(Fill(outer + [inner], v)) == AllTokens(outer + [inner]) + Tokens(v)
  {
    Innermost(outer, inner);
    match inner
    case Items(items) =>
      ItemsGrow(items, v);
      PartGrows(outer, inner, Items(items + [v]), Tokens(v));
    case Keyed(members, key) =>
      MembersGrow(members, key, v);
      PartGrows(outer, inner, Members(members + [Member(key, v)]), Tokens(v));
  }

  /** The value fills the place whatever surrounds it. */
  lemma FilledTokens(parts: seq<Part>, v: Value)
    requires Expects(parts)
    ensures ReadSoFar(Fill(parts, v)) == AllTokens(parts) + Tokens(v)
  {
    if parts != [] {
      var outer, inner := parts[..|parts| - 1], parts[|parts| - 1];
      assert parts == outer + [inner];
      FillTokens(outer, inner, v);
    }
  }

  // ----- frames -----

  function OuterFrames(parts: seq<Part>): seq<Frame> {
    seq(|parts|, i requires 0 <= i < |parts| => FrameOf(parts[i], false))
  }

  lemma FramesLast(outer: seq<Part>, inner: Part)
    ensures Frames(outer + [inner]) == OuterFrames(outer) + [FrameOf(inner, true)]
    ensures OuterFrames(outer + [inner]) == OuterFrames(outer) + [FrameOf(inner, false)]
  {
  }

  lemma KeysGrow(members: seq<Member>, key: string, v: Value)
    ensures Keys(members + [Member(key, v)]) == Keys(members) + {key}
  {
    var more := members + [Member(key, v)];
    assert forall i :: 0 <= i < |members| ==> more[i] == members[i];
    assert more[|members|].key == key;
  }

  /** Filling a place and completeValue are the same step. */
  lemma FillPicture(outer: seq<Part>, inner: Part, v: Value, n: nat)
    requires !inner.Members? && n == |ReadSoFar(Fill(outer + [inner], v))|
    ensures CompleteValue(Scanner(OuterFrames(outer + [inner]), false, n)) == Picture(Fill(outer + [inner], v))
  {
    Innermost(outer, inner);
    FramesLast(outer, inner);
    match inner
    case Items(items) => FramesLast(outer, Items(items + [v]));
    case Keyed(members, key) =>
      FramesLast(outer, Members(members + [Member(key, v)]));
      KeysGrow(members, key, v);
  }

  lemma RootPicture(v: Value, n: nat)
    requires n == |Tokens(v)|
    ensures CompleteValue(Scanner(OuterFrames([]), false, n)) == Picture(Fill([], v))
  {
    assert OuterFrames([]) == [];
  }

  lemma FilledPicture(parts: seq<Part>, v: Value, n: nat)
    requires Expects(parts) && n == |ReadSoFar(Fill(parts, v))|
    ensures CompleteValue(Scanner(OuterFrames(parts), false, n)) == Picture(Fill(parts, v))
  {
    if parts == [] {
      RootPicture(v, n);
    } else {
      var outer, inner := parts[..|parts| - 1], parts[|parts| - 1];
      assert parts == outer + [inner];
      FillPicture(outer, inner, v, n);
    }
  }

  // ----- limits -----

  predicate OuterGood(limits: Limits, parts: seq<Part>) {
    forall i :: 0 <= i < |parts| ==> PartGood(parts[i], Left(limits, i), limits.items, false)
  }

  predicate Room(limits: Limits, parts: seq<Part>) {
    |parts| <= limits.depth && OuterGood(limits, parts)
  }

  lemma OuterGoodLast(limits: Limits, outer: seq<Part>, inner: Part, left: int)
    requires left == Left(limits, |outer|)
    ensures OuterGood(limits, outer + [inner]) <==>
      OuterGood(limits, outer) && PartGood(inner, left, limits.items, false)
    ensures Good(limits, Open(outer + [inner])) <==>
      |outer| < limits.depth && OuterGood(limits, outer) && PartGood(inner, left, limits.items, true)
  {
    var parts := outer + [inner];
    assert forall i :: 0 <= i < |outer| ==> parts[i] == outer[i];
    assert parts[|outer|] == inner;
  }

  lemma WithinLast(items: seq<Value>, v: Value, depth: int, size: int)
    requires AllWithin(items, depth, size) && Within(v, depth, size)
    ensures AllWithin(items + [v], depth, size)
  {
  }

  lemma MembersLast(members: seq<Member>, key: string, v: Value, depth: int, size: int)
    requires MembersWithin(members, depth, size) && Within(v, depth, size)
    requires DistinctKeys(members) && key !in Keys(members)
    ensures MembersWithin(members + [Member(key, v)], depth, size) && DistinctKeys(members + [Member(key, v)])
  {
    assert forall i :: 0 <= i < |members| ==> members[i].key in Keys(members);
  }

  lemma FillGood(limits: Limits, outer: seq<Part>, inner: Part, v: Value, left: int)
    requires Room(limits, outer + [inner]) && left == Left(limits, |outer|) && Within(v, left, limits.items)
    ensures !inner.Members? && Good(limits, Fill(outer + [inner], v))
  {
    Innermost(outer, inner);
    OuterGoodLast(limits, outer, inner, left);
    match inner
    case Items(items) =>
      WithinLast(items, v, left, limits.items);
      OuterGoodLast(limits, outer, Items(items + [v]), left);
    case Keyed(members, key) =>
      MembersLast(members, key, v, left, limits.items);
      OuterGoodLast(limits, outer, Members(members + [Member(key, v)]), left);
  }

  /** The nesting a value may have that fills the innermost place. */
  function Depth(limits: Limits, parts: seq<Part>): int {
    limits.depth - |parts|
  }

  lemma FilledGood(limits: Limits, parts: seq<Part>, v: Value)
    requires Room(limits, parts) && Within(v, Depth(limits, parts), limits.items)
    ensures Expects(parts) && Good(limits, Fill(parts, v))
  {
    if parts != [] {
      var outer, inner := parts[..|parts| - 1], parts[|parts| - 1];
      assert parts == outer + [inner];
      FillGood(limits, outer, inner, v, Left(limits, |outer|));
    }
  }

  /** A value has been read: the scanner completes it, the parse is filled with it. */
  lemma ValueDone(limits: Limits, parts: seq<Part>, v: Value, before: seq<Token>, t: Token, n: nat)
    requires Room(limits, parts) && Within(v, Depth(limits, parts), limits.items)
    requires AllTokens(parts) + Tokens(v) == before + [t] && n == |before| + 1
    ensures CompleteValue(Scanner(OuterFrames(parts), false, n)) == Picture(Fill(parts, v))
    ensures Good(limits, Fill(parts, v)) && ReadSoFar(Fill(parts, v)) == before + [t]
  {
    FilledGood(limits, parts, v);
    FilledTokens(parts, v);
    FilledPicture(parts, v, n);
  }

  /** A collection opens in a place that takes a value. */
  lemma CollectionOpens(limits: Limits, parts: seq<Part>, t: Token, n: nat)
    requires Room(limits, parts) && Opens(t) && |parts| < limits.depth && limits.items > 0
    requires n == |AllTokens(parts)| + 1
    ensures Push(Scanner(OuterFrames(parts), false, n), t) == Picture(Open(parts + [NewPart(t)]))
    ensures Good(limits, Open(parts + [NewPart(t)]))
    ensures AllTokens(parts + [NewPart(t)]) == AllTokens(parts) + [t]
  {
    NewPartIs(t);
    AllTokensLast(parts, NewPart(t));
    FramesLast(parts, NewPart(t));
    OuterGoodLast(limits, parts, NewPart(t), Left(limits, |parts|));
  }

  lemma NewPartIs(t: Token)
    requires Opens(t)
    ensures PartTokens(NewPart(t)) == [t] && FrameOf(NewPart(t), true) == Frame(t.OpenObject?, t.OpenObject?, 0, {})
  {
    assert [t] + [] == [t];
    assert Keys([]) == {};
  }

  // ----- one token -----

  /** The step from p over t, when the scanner lets the token pass. */
  ghost predicate StepsTo(limits: Limits, p: Parse, t: Token, fed: Fed, p': Parse) {
    && fed == More(Picture(p')) && Good(limits, p') && ReadSoFar(p') == ReadSoFar(p) + [t]
  }

  lemma ArrayCloses(limits: Limits, outer: seq<Part>, items: seq<Value>)
    requires Good(limits, Open(outer + [Items(items)]))
    ensures Room(limits, outer) && Within(Array(items), Depth(limits, outer), limits.items)
    ensures AllTokens(outer) + Tokens(Array(items)) == AllTokens(outer + [Items(items)]) + [CloseArray]
  {
    OuterGoodLast(limits, outer, Items(items), Left(limits, |outer|));
    AllTokensLast(outer, Items(items));
  }

  lemma ObjectCloses(limits: Limits, outer: seq<Part>, members: seq<Member>)
    requires Good(limits, Open(outer + [Members(members)]))
    ensures Room(limits, outer) && Within(Object(members), Depth(limits, outer), limits.items)
    ensures AllTokens(outer) + Tokens(Object(members)) == AllTokens(outer + [Members(members)]) + [CloseObject]
  {
    OuterGoodLast(limits, outer, Members(members), Left(limits, |outer|));
    AllTokensLast(outer, Members(members));
  }

  lemma LeafReads(limits: Limits, parts: seq<Part>, t: Token)
    requires Room(limits, parts) && !IsDelimiter(t)
    ensures Within(LeafOf(t), Depth(limits, parts), limits.items) && Tokens(LeafOf(t)) == [t]
  {
  }

  lemma RootFeeds(limits: Limits, t: Token, st: Scanner)
    requires st == Scanner([], false, 1) && FeedRoot(limits, st, t).More?
    ensures Opens(t) ==> limits.depth > 0 && FeedRoot(limits, st, t) == More(Push(st, t))
    ensures !Opens(t) ==> !IsDelimiter(t) && FeedRoot(limits, st, t) == More(CompleteValue(st))
  {
  }

  lemma NoParts()
    ensures OuterFrames([]) == [] && Frames([]) == [] && AllTokens([]) == []
  {
  }

  lemma RootOpens(limits: Limits, t: Token)
    requires limits.items > 0 && limits.depth > 0 && Opens(t)
    ensures StepsTo(limits, Open([]), t, More(Push(Scanner([], false, 1), t)), Open([NewPart(t)]))
  {
    NoParts();
    assert [] + [NewPart(t)] == [NewPart(t)];
    CollectionOpens(limits, [], t, 1);
  }

  lemma RootLeaf(limits: Limits, t: Token)
    requires limits.items > 0 && limits.depth > 0 && !IsDelimiter(t)
    ensures StepsTo(limits, Open([]), t, More(CompleteValue(Scanner([], false, 1))), Fill([], LeafOf(t)))
  {
    NoParts();
    LeafReads(limits, [], t);
    assert [] + Tokens(LeafOf(t)) == [] + [t];
    ValueDone(limits, [], LeafOf(t), [], t, 1);
  }

  lemma StepRoot(limits: Limits, t: Token, fed: Fed)
    requires limits.items > 0 && limits.depth > 0
    requires fed == FeedRoot(limits, Scanner([], false, 1), t) && fed.More?
    ensures StepsTo(limits, Open([]), t, fed, Extend(Open([]), t))
  {
    RootFeeds(limits, t, Scanner([], false, 1));
    if Opens(t) {
      RootOpens(limits, t);
    } else {
      RootLeaf(limits, t);
    }
  }

  /** A token where a value is expected inside a collection. */
  lemma StepValue(limits: Limits, parts: seq<Part>, t: Token, n: nat, fed: Fed)
    requires limits.items > 0 && Room(limits, parts) && n == |AllTokens(parts)| + 1
    requires fed == FeedValue(limits, Scanner(OuterFrames(parts), false, n), t) && fed.More?
    ensures Opens(t) ==> StepsTo(limits, Open(parts), t, fed, Open(parts + [NewPart(t)]))
    ensures !Opens(t) ==> !IsDelimiter(t) && StepsTo(limits, Open(parts), t, fed, Fill(parts, LeafOf(t)))
  {
    if Opens(t) {
      CollectionOpens(limits, parts, t, n);
    } else {
      LeafReads(limits, parts, t);
      ValueDone(limits, parts, LeafOf(t), AllTokens(parts), t, n);
    }
  }

  lemma StepItem(limits: Limits, outer: seq<Part>, items: seq<Value>, t: Token, n: nat, fed: Fed)
    requires limits.items > 0 && Good(limits, Open(outer + [Items(items)]))
    requires n == |AllTokens(outer + [Items(items)])| + 1
    requires fed == FeedItem(limits, Scanner(Frames(outer + [Items(items)]), false, n), t) && fed.More?
    ensures StepsTo(limits, Open(outer + [Items(items)]), t, fed, Extend(Open(outer + [Items(items)]), t))
  {
    var parts := outer + [Items(items)];
    Innermost(outer, Items(items));
    FramesLast(outer, Items(items));
    OuterGoodLast(limits, outer, Items(items), Left(limits, |outer|));
    if t == CloseArray {
      ArrayCloses(limits, outer, items);
      assert Frames(parts)[..|outer|] == OuterFrames(outer);
      ValueDone(limits, outer, Array(items), AllTokens(parts), t, n);
    } else {
      var frames := Frames(parts);
      assert frames[|outer| := frames[|outer|].(count := |items| + 1)] == OuterFrames(parts);
      StepValue(limits, parts, t, n, fed);
    }
  }

  lemma StepKeyed(limits: Limits, outer: seq<Part>, members: seq<Member>, key: string, t: Token, n: nat, fed: Fed)
    requires limits.items > 0 && Good(limits, Open(outer + [Keyed(members, key)]))
    requires n == |AllTokens(outer + [Keyed(members, key)])| + 1
    requires fed == FeedValue(limits, Scanner(Frames(outer + [Keyed(members, key)]), false, n), t) && fed.More?
    ensures StepsTo(limits, Open(outer + [Keyed(members, key)]), t, fed, Extend(Open(outer + [Keyed(members, key)]), t))
  {
    var parts := outer + [Keyed(members, key)];
    Innermost(outer, Keyed(members, key));
    FramesLast(outer, Keyed(members, key));
    OuterGoodLast(limits, outer, Keyed(members, key), Left(limits, |outer|));
    StepValue(limits, parts, t, n, fed);
  }

  lemma StepMember(limits: Limits, outer: seq<Part>, members: seq<Member>, t: Token, n: nat, fed: Fed)
    requires limits.items > 0 && Good(limits, Open(outer + [Members(members)]))
    requires n == |AllTokens(outer + [Members(members)])| + 1
    requires fed == FeedKey(limits, Scanner(Frames(outer + [Members(members)]), false, n), t) && fed.More?
    ensures StepsTo(limits, Open(outer + [Members(members)]), t, fed, Extend(Open(outer + [Members(members)]), t))
  {
    var parts := outer + [Members(members)];
    Innermost(outer, Members(members));
    FramesLast(outer, Members(members));
    if t == CloseObject {
      ObjectCloses(limits, outer, members);
      assert Frames(parts)[..|outer|] == OuterFrames(outer);
      ValueDone(limits, outer, Object(members), AllTokens(parts), t, n);
    } else {
      KeyRead(limits, outer, members, t.text);
    }
  }

  lemma KeyRead(limits: Limits, outer: seq<Part>, members: seq<Member>, key: string)
    requires Good(limits, Open(outer + [Members(members)])) && key !in Keys(members) && |members| < limits.items
    ensures var frames := Frames(outer + [Members(members)]);
      frames[|outer| := Frame(true, false, |members| + 1, Keys(members) + {key})] ==
        Frames(outer + [Keyed(members, key)])
    ensures Good(limits, Open(outer + [Keyed(members, key)]))
    ensures AllTokens(outer + [Keyed(members, key)]) == AllTokens(outer + [Members(members)]) + [Text(key)]
  {
    FramesLast(outer, Members(members));
    FramesLast(outer, Keyed(members, key));
    OuterGoodLast(limits, outer, Members(members), Left(limits, |outer|));
    OuterGoodLast(limits, outer, Keyed(members, key), Left(limits, |outer|));
    PartGrows(outer, Members(members), Keyed(members, key), [Text(key)]);
  }

  /** Every token that the scanner lets pass extends the parse, and the scanner's
      state stays its picture. */
  lemma StepSound(limits: Limits, p: Parse, t: Token)
    requires limits.items > 0 && limits.depth > 0 && Good(limits, p) && Next(limits, Picture(p), t).More?
    ensures StepsTo(limits, p, t, Next(limits, Picture(p), t), Extend(p, t))
  {
    if p.Open? {
      StepOpen(limits, p.parts, t, Next(limits, Picture(p), t));
    }
  }

  lemma StepOpen(limits: Limits, parts: seq<Part>, t: Token, fed: Fed)
    requires limits.items > 0 && limits.depth > 0 && Good(limits, Open(parts))
    requires fed == Next(limits, Picture(Open(parts)), t) && fed.More?
    ensures StepsTo(limits, Open(parts), t, fed, Extend(Open(parts), t))
  {
    if parts == [] {
      StepFirst(limits, t, fed);
    } else {
      var outer, inner := parts[..|parts| - 1], parts[|parts| - 1];
      assert parts == outer + [inner];
      StepNested(limits, outer, inner, t, fed);
    }
  }

  lemma StepFirst(limits: Limits, t: Token, fed: Fed)
    requires limits.items > 0 && limits.depth > 0
    requires fed == Next(limits, Picture(Open([])), t) && fed.More?
    ensures StepsTo(limits, Open([]), t, fed, Extend(Open([]), t))
  {
    NoParts();
    NextFeeds(limits, [], t, 1);
    StepRoot(limits, t, fed);
  }

  lemma StepNested(limits: Limits, outer: seq<Part>, inner: Part, t: Token, fed: Fed)
    requires limits.items > 0 && Good(limits, Open(outer + [inner]))
    requires fed == Next(limits, Picture(Open(outer + [inner])), t) && fed.More?
    ensures StepsTo(limits, Open(outer + [inner]), t, fed, Extend(Open(outer + [inner]), t))
  {
    var n := |AllTokens(outer + [inner])| + 1;
    NextFeeds(limits, outer + [inner], t, n);
    StepInner(limits, outer, inner, t, n, fed);
  }

  lemma NextFeeds(limits: Limits, parts: seq<Part>, t: Token, n: nat)
    requires Next(limits, Picture(Open(parts)), t).More? && n == |AllTokens(parts)| + 1
    ensures Next(limits, Picture(Open(parts)), t) == Feed(limits, Scanner(Frames(parts), false, n), t)
  {
  }

  lemma StepInner(limits: Limits, outer: seq<Part>, inner: Part, t: Token, n: nat, fed: Fed)
    requires limits.items > 0 && Good(limits, Open(outer + [inner])) && n == |AllTokens(outer + [inner])| + 1
    requires fed == Feed(limits, Scanner(Frames(outer + [inner]), false, n), t) && fed.More?
    ensures StepsTo(limits, Open(outer + [inner]), t, fed, Extend(Open(outer + [inner]), t))
  {
    FramesLast(outer, inner);
    match inner
    case Items(items) => StepItem(limits, outer, items, t, n, fed);
    case Members(members) => StepMember(limits, outer, members, t, n, fed);
    case Keyed(members, key) => StepKeyed(limits, outer, members, key, t, n, fed);
  }

  // ----- what the scanner accepts is a value -----

  lemma {:induction false} ScanSound(limits: Limits, p: Parse, tokens: seq<Token>) returns (p': Parse)
    requires limits.items > 0 && limits.depth > 0 && Good(limits, p)
    requires ScanFrom(limits, Picture(p), tokens).More?
    ensures StepsAll(limits, p, tokens, p')
    decreases |tokens|
  {
    if tokens == [] {
      p' := p;
      assert ReadSoFar(p) + [] == ReadSoFar(p);
    } else {
      var t, rest := tokens[0], tokens[1..];
      ScanUnfold(limits, Picture(p), tokens);
      StepSound(limits, p, t);
      p' := ScanSound(limits, Extend(p, t), rest);
      StepsMore(limits, p, t, rest, Extend(p, t), p');
      assert [t] + rest == tokens;
    }
  }

  lemma ScanUnfold(limits: Limits, st: Scanner, tokens: seq<Token>)
    requires tokens != []
    ensures ScanFrom(limits, st, tokens) ==
      var fed := Next(limits, st, tokens[0]); if fed.Rejected? then fed else ScanFrom(limits, fed.st, tokens[1..])
  {
  }

  lemma StepsMore(limits: Limits, p: Parse, t: Token, rest: seq<Token>, q: Parse, p': Parse)
    requires StepsTo(limits, p, t, Next(limits, Picture(p), t), q) && StepsAll(limits, q, rest, p')
    ensures StepsAll(limits, p, [t] + rest, p')
  {
    assert ([t] + rest)[1..] == rest;
    ScanUnfold(limits, Picture(p), [t] + rest);
    Join(ReadSoFar(p), [t], rest);
  }

  ghost predicate StepsAll(limits: Limits, p: Parse, tokens: seq<Token>, p': Parse) {
    ScanFrom(limits, Picture(p), tokens) == More(Picture(p')) && Good(limits, p') &&
      ReadSoFar(p') == ReadSoFar(p) + tokens
  }

  // ----- every value within the limits is accepted -----

  lemma {:induction false} ScanConcat(limits: Limits, st: Scanner, a: seq<Token>, b: seq<Token>)
    ensures ScanFrom(limits, st, a + b) ==
      if ScanFrom(limits, st, a).Rejected? then ScanFrom(limits, st, a)
        else ScanFrom(limits, ScanFrom(limits, st, a).st, b)
    decreases |a|
  {
    if a == [] {
      assert a + b == b;
    } else {
      assert (a + b)[0] == a[0] && (a + b)[1..] == a[1..] + b;
      var fed := Next(limits, st, a[0]);
      if fed.More? {
        ScanConcat(limits, fed.st, a[1..], b);
      }
    }
  }

  /** From p the scanner reads the tokens and reaches p'. */
  ghost predicate Reads(limits: Limits, p: Parse, tokens: seq<Token>, p': Parse) {
    ScanFrom(limits, Picture(p), tokens) == More(Picture(p'))
  }

  lemma ReadsThen(limits: Limits, p: Parse, a: seq<Token>, q: Parse, b: seq<Token>, r: Parse)
    requires Reads(limits, p, a, q) && Reads(limits, q, b, r)
    ensures Reads(limits, p, a + b, r)
  {
    ScanConcat(limits, Picture(p), a, b);
  }

  lemma ReadsOne(limits: Limits, p: Parse, t: Token, p': Parse)
    requires Next(limits, Picture(p), t) == More(Picture(p'))
    ensures Reads(limits, p, [t], p')
  {
    assert [t][1..] == [];
  }

  lemma RoomIsGood(limits: Limits, parts: seq<Part>)
    requires Room(limits, parts)
    ensures Good(limits, Open(parts)) && Expects(parts)
  {
  }

  predicate StartsValue(limits: Limits, parts: seq<Part>, t: Token) {
    !IsDelimiter(t) || (Opens(t) && |parts| < limits.depth)
  }

  lemma ItemPasses(limits: Limits, outer: seq<Part>, items: seq<Value>, t: Token, n: nat)
    requires |items| < limits.items && StartsValue(limits, outer + [Items(items)], t)
    ensures Feed(limits, Scanner(Frames(outer + [Items(items)]), false, n), t).More?
  {
    FramesLast(outer, Items(items));
  }

  lemma KeyedPasses(limits: Limits, outer: seq<Part>, members: seq<Member>, key: string, t: Token, n: nat)
    requires StartsValue(limits, outer + [Keyed(members, key)], t)
    ensures Feed(limits, Scanner(Frames(outer + [Keyed(members, key)]), false, n), t).More?
  {
    FramesLast(outer, Keyed(members, key));
  }

  lemma RootPasses(limits: Limits, t: Token, n: nat)
    requires limits.depth > 0 && StartsValue(limits, [], t)
    ensures Feed(limits, Scanner([], false, n), t).More?
  {
  }

  lemma NextOfPicture(limits: Limits, parts: seq<Part>, t: Token, n: nat)
    requires |AllTokens(parts)| < limits.tokens && n == |AllTokens(parts)| + 1
    ensures Next(limits, Picture(Open(parts)), t) == Feed(limits, Scanner(Frames(parts), false, n), t)
  {
  }

  lemma ValuePasses(limits: Limits, parts: seq<Part>, t: Token)
    requires limits.items > 0 && limits.depth > 0 && Room(limits, parts) && StartsValue(limits, parts, t)
    requires |AllTokens(parts)| < limits.tokens
    ensures Next(limits, Picture(Open(parts)), t).More?
  {
    var n := |AllTokens(parts)| + 1;
    NextOfPicture(limits, parts, t, n);
    if parts == [] {
      assert Frames(parts) == [];
      RootPasses(limits, t, n);
    } else {
      var outer, inner := parts[..|parts| - 1], parts[|parts| - 1];
      assert parts == outer + [inner];
      InnerPasses(limits, outer, inner, t, n);
    }
  }

  lemma InnerPasses(limits: Limits, outer: seq<Part>, inner: Part, t: Token, n: nat)
    requires Room(limits, outer + [inner]) && StartsValue(limits, outer + [inner], t)
    ensures Feed(limits, Scanner(Frames(outer + [inner]), false, n), t).More?
  {
    OuterGoodLast(limits, outer, inner, Left(limits, |outer|));
    match inner
    case Items(items) => ItemPasses(limits, outer, items, t, n);
    case Keyed(members, key) => KeyedPasses(limits, outer, members, key, t, n);
  }

  lemma LeafRead(limits: Limits, parts: seq<Part>, t: Token)
    requires limits.items > 0 && limits.depth > 0 && Room(limits, parts) && !IsDelimiter(t)
    requires |AllTokens(parts)| < limits.tokens
    ensures Reads(limits, Open(parts), [t], Fill(parts, LeafOf(t)))
  {
    ValuePasses(limits, parts, t);
    RoomIsGood(limits, parts);
    StepSound(limits, Open(parts), t);
    LeafFills(parts, t);
    ReadsOne(limits, Open(parts), t, Fill(parts, LeafOf(t)));
  }

  lemma LeafFills(parts: seq<Part>, t: Token)
    requires Expects(parts) && !IsDelimiter(t)
    ensures Extend(Open(parts), t) == Fill(parts, LeafOf(t))
  {
  }

  lemma OpeningRead(limits: Limits, parts: seq<Part>, t: Token)
    requires limits.items > 0 && limits.depth > 0 && Room(limits, parts) && Opens(t) && |parts| < limits.depth
    requires |AllTokens(parts)| < limits.tokens
    ensures Reads(limits, Open(parts), [t], Open(parts + [NewPart(t)]))
    ensures Good(limits, Open(parts + [NewPart(t)])) && AllTokens(parts + [NewPart(t)]) == AllTokens(parts) + [t]
  {
    ValuePasses(limits, parts, t);
    RoomIsGood(limits, parts);
    StepSound(limits, Open(parts), t);
    ReadsOne(limits, Open(parts), t, Extend(Open(parts), t));
    assert [] + [NewPart(t)] == [NewPart(t)];
  }

  lemma ArrayEndRead(limits: Limits, outer: seq<Part>, items: seq<Value>)
    requires limits.items > 0 && limits.depth > 0 && Good(limits, Open(outer + [Items(items)]))
    requires |AllTokens(outer + [Items(items)])| < limits.tokens
    ensures Reads(limits, Open(outer + [Items(items)]), [CloseArray], Fill(outer, Array(items)))
  {
    var p := Open(outer + [Items(items)]);
    FramesLast(outer, Items(items));
    Innermost(outer, Items(items));
    StepSound(limits, p, CloseArray);
    ReadsOne(limits, p, CloseArray, Extend(p, CloseArray));
  }

  lemma ObjectEndRead(limits: Limits, outer: seq<Part>, members: seq<Member>)
    requires limits.items > 0 && limits.depth > 0 && Good(limits, Open(outer + [Members(members)]))
    requires |AllTokens(outer + [Members(members)])| < limits.tokens
    ensures Reads(limits, Open(outer + [Members(members)]), [CloseObject], Fill(outer, Object(members)))
  {
    var p := Open(outer + [Members(members)]);
    FramesLast(outer, Members(members));
    Innermost(outer, Members(members));
    StepSound(limits, p, CloseObject);
    ReadsOne(limits, p, CloseObject, Extend(p, CloseObject));
  }

  lemma KeyReads(limits: Limits, outer: seq<Part>, members: seq<Member>, key: string)
    requires limits.items > 0 && limits.depth > 0 && Good(limits, Open(outer + [Members(members)]))
    requires |AllTokens(outer + [Members(members)])| < limits.tokens
    requires key !in Keys(members) && |members| < limits.items
    ensures Reads(limits, Open(outer + [Members(members)]), [Text(key)], Open(outer + [Keyed(members, key)]))
    ensures Good(limits, Open(outer + [Keyed(members, key)]))
  {
    var p := Open(outer + [Members(members)]);
    FramesLast(outer, Members(members));
    Innermost(outer, Members(members));
    StepSound(limits, p, Text(key));
    ReadsOne(limits, p, Text(key), Extend(p, Text(key)));
  }

  /** The tokens of a value that fits are read, and fill the place with it. */
  lemma {:induction false} ValueReads(limits: Limits, parts: seq<Part>, v: Value)
    requires limits.items > 0 && limits.depth > 0 && Room(limits, parts)
    requires Within(v, Depth(limits, parts), limits.items) && |AllTokens(parts)| + |Tokens(v)| <= limits.tokens
    ensures Reads(limits, Open(parts), Tokens(v), Fill(parts, v))
    decreases v, 0
  {
    match v
    case Atom => LeafRead(limits, parts, Scalar);
    case Word(text) => LeafRead(limits, parts, Text(text));
    case Array(items) =>
      var depth := Left(limits, |parts|);
      OpeningRead(limits, parts, OpenArray);
      ItemsRead(limits, parts, items, depth);
      ArrayRoom(limits, parts, items, depth);
      ArrayEndRead(limits, parts, items);
      ReadsThen(limits, Open(parts), [OpenArray], Open(parts + [Items([])]), ItemTokens(items),
        Open(parts + [Items(items)]));
      ReadsThen(limits, Open(parts), [OpenArray] + ItemTokens(items), Open(parts + [Items(items)]), [CloseArray],
        Fill(parts, v));
    case Object(members) =>
      var depth := Left(limits, |parts|);
      OpeningRead(limits, parts, OpenObject);
      MembersRead(limits, parts, members, depth);
      MembersRoom(limits, parts, members, depth);
      ObjectEndRead(limits, parts, members);
      ReadsThen(limits, Open(parts), [OpenObject], Open(parts + [Members([])]), MemberTokens(members),
        Open(parts + [Members(members)]));
      ReadsThen(limits, Open(parts), [OpenObject] + MemberTokens(members), Open(parts + [Members(members)]),
        [CloseObject], Fill(parts, v));
  }

  /** The parts with a collection under construction. */
  lemma ArrayRoom(limits: Limits, parts: seq<Part>, items: seq<Value>, depth: int)
    requires Room(limits, parts) && |parts| < limits.depth && depth == Left(limits, |parts|)
    requires AllWithin(items, depth, limits.items)
    ensures |items| < limits.items ==> Room(limits, parts + [Items(items)])
    ensures |items| <= limits.items ==> Good(limits, Open(parts + [Items(items)]))
    ensures |AllTokens(parts + [Items(items)])| == |AllTokens(parts)| + 1 + |ItemTokens(items)|
  {
    OuterGoodLast(limits, parts, Items(items), depth);
    AllTokensLast(parts, Items(items));
  }

  lemma {:induction false} ItemsRead(limits: Limits, parts: seq<Part>, items: seq<Value>, depth: int)
    requires limits.items > 0 && Room(limits, parts) && |parts| < limits.depth && depth == Left(limits, |parts|)
    requires |items| <= limits.items && AllWithin(items, depth, limits.items)
    requires |AllTokens(parts)| + 1 + |ItemTokens(items)| <= limits.tokens
    ensures Reads(limits, Open(parts + [Items([])]), ItemTokens(items), Open(parts + [Items(items)]))
    decreases items
  {
    if items != [] {
      var front, last := items[..|items| - 1], items[|items| - 1];
      assert items == front + [last];
      ItemTokensLast(front, last);
      ItemsRead(limits, parts, front, depth);
      ItemRead(limits, parts, front, last, depth);
      ReadsThen(limits, Open(parts + [Items([])]), ItemTokens(front), Open(parts + [Items(front)]), Tokens(last),
        Open(parts + [Items(items)]));
    }
  }

  lemma {:induction false} ItemRead(limits: Limits, parts: seq<Part>, front: seq<Value>, last: Value, depth: int)
    requires limits.items > 0 && Room(limits, parts) && |parts| < limits.depth && depth == Left(limits, |parts|)
    requires |front| < limits.items && AllWithin(front, depth, limits.items) && Within(last, depth, limits.items)
    requires |AllTokens(parts)| + 1 + |ItemTokens(front)| + |Tokens(last)| <= limits.tokens
    ensures Reads(limits, Open(parts + [Items(front)]), Tokens(last), Open(parts + [Items(front + [last])]))
    decreases last, 1
  {
    var inner := parts + [Items(front)];
    ArrayRoom(limits, parts, front, depth);
    assert Depth(limits, inner) == depth;
    ValueReads(limits, inner, last);
    FillItems(parts, front, last);
  }

  lemma FillItems(outer: seq<Part>, items: seq<Value>, v: Value)
    ensures Fill(outer + [Items(items)], v) == Open(outer + [Items(items + [v])])
  {
    Innermost(outer, Items(items));
  }

  lemma FillKeyed(outer: seq<Part>, members: seq<Member>, key: string, v: Value)
    ensures Fill(outer + [Keyed(members, key)], v) == Open(outer + [Members(members + [Member(key, v)])])
  {
    Innermost(outer, Keyed(members, key));
  }

  lemma MembersRoom(limits: Limits, parts: seq<Part>, members: seq<Member>, depth: int)
    requires Room(limits, parts) && |parts| < limits.depth && depth == Left(limits, |parts|)
    requires MembersWithin(members, depth, limits.items) && DistinctKeys(members) && |members| <= limits.items
    ensures Good(limits, Open(parts + [Members(members)]))
    ensures |AllTokens(parts + [Members(members)])| == |AllTokens(parts)| + 1 + |MemberTokens(members)|
  {
    OuterGoodLast(limits, parts, Members(members), depth);
    AllTokensLast(parts, Members(members));
  }

  lemma KeyedRoom(limits: Limits, parts: seq<Part>, members: seq<Member>, key: string, depth: int)
    requires Room(limits, parts) && |parts| < limits.depth && depth == Left(limits, |parts|)
    requires MembersWithin(members, depth, limits.items) && DistinctKeys(members) && |members| < limits.items
    requires key !in Keys(members)
    ensures Room(limits, parts + [Keyed(members, key)])
    ensures |AllTokens(parts + [Keyed(members, key)])| == |AllTokens(parts)| + 2 + |MemberTokens(members)|
  {
    OuterGoodLast(limits, parts, Keyed(members, key), depth);
    AllTokensLast(parts, Keyed(members, key));
  }

  lemma FrontMembers(front: seq<Member>, last: Member, depth: int, size: int)
    requires MembersWithin(front + [last], depth, size) && DistinctKeys(front + [last])
    ensures MembersWithin(front, depth, size) && DistinctKeys(front)
    ensures Within(last.value, depth, size) && last.key !in Keys(front)
  {
    var all := front + [last];
    assert forall i :: 0 <= i < |front| ==> all[i] == front[i];
    assert all[|front|] == last;
  }

  lemma {:induction false} MembersRead(limits: Limits, parts: seq<Part>, members: seq<Member>, depth: int)
    requires limits.items > 0 && Room(limits, parts) && |parts| < limits.depth && depth == Left(limits, |parts|)
    requires |members| <= limits.items && MembersWithin(members, depth, limits.items) && DistinctKeys(members)
    requires |AllTokens(parts)| + 1 + |MemberTokens(members)| <= limits.tokens
    ensures Reads(limits, Open(parts + [Members([])]), MemberTokens(members), Open(parts + [Members(members)]))
    decreases members
  {
    if members != [] {
      var front, last := members[..|members| - 1], members[|members| - 1];
      assert members == front + [last] && last == Member(last.key, last.value);
      FrontMembers(front, last, depth, limits.items);
      MemberTokensLast(front, last.key, last.value);
      MembersRead(limits, parts, front, depth);
      MemberRead(limits, parts, front, last, depth);
      ReadsThen(limits, Open(parts + [Members([])]), MemberTokens(front), Open(parts + [Members(front)]),
        [Text(last.key)] + Tokens(last.value), Open(parts + [Members(members)]));
      Join(MemberTokens(front), [Text(last.key)], Tokens(last.value));
    }
  }

  lemma {:induction false} MemberRead(limits: Limits, parts: seq<Part>, front: seq<Member>, last: Member, depth: int)
    requires limits.items > 0 && Room(limits, parts) && |parts| < limits.depth && depth == Left(limits, |parts|)
    requires |front| < limits.items && MembersWithin(front, depth, limits.items) && DistinctKeys(front)
    requires last.key !in Keys(front) && Within(last.value, depth, limits.items)
    requires |AllTokens(parts)| + 2 + |MemberTokens(front)| + |Tokens(last.value)| <= limits.tokens
    ensures Reads(limits, Open(parts + [Members(front)]), [Text(last.key)] + Tokens(last.value),
      Open(parts + [Members(front + [last])]))
    decreases last, 0
  {
    MembersRoom(limits, parts, front, depth);
    KeyReads(limits, parts, front, last.key);
    KeyedRoom(limits, parts, front, last.key, depth);
    assert Depth(limits, parts + [Keyed(front, last.key)]) == depth;
    ValueReads(limits, parts + [Keyed(front, last.key)], last.value);
    FillKeyed(parts, front, last.key, last.value);
    assert last == Member(last.key, last.value);
    ReadsThen(limits, Open(parts + [Members(front)]), [Text(last.key)], Open(parts + [Keyed(front, last.key)]),
      Tokens(last.value), Open(parts + [Members(front + [last])]));
  }

  // ----- the main statement -----

  /** The scanner accepts exactly the token lists of one value within the limits. */
  lemma AcceptsExactly(limits: Limits, tokens: seq<Token>, ending: Ending)
    ensures Validate(limits, tokens, ending) == Accepted <==>
      && limits.depth > 0 && limits.tokens > 0 && limits.items > 0 && ending == EndOfInput
      && |tokens| <= limits.tokens && exists v :: Tokens(v) == tokens && Within(v, limits.depth, limits.items)
  {
    if limits.depth > 0 && limits.tokens > 0 && limits.items > 0 && ending == EndOfInput {
      if Validate(limits, tokens, ending) == Accepted {
        AcceptedIsValue(limits, tokens);
      }
      if v :| |tokens| <= limits.tokens && Tokens(v) == tokens && Within(v, limits.depth, limits.items) {
        ValueIsAccepted(limits, v);
      }
    }
  }

  lemma NothingRead()
    ensures Picture(Open([])) == START && ReadSoFar(Open([])) == []
  {
    assert Frames([]) == [];
  }

  lemma AcceptedIsValue(limits: Limits, tokens: seq<Token>)
    requires limits.depth > 0 && limits.tokens > 0 && limits.items > 0
    requires Validate(limits, tokens, EndOfInput) == Accepted
    ensures |tokens| <= limits.tokens && exists v :: Tokens(v) == tokens && Within(v, limits.depth, limits.items)
  {
    NothingRead();
    var p := ScanSound(limits, Open([]), tokens);
    assert [] + tokens == tokens;
    assert p.Whole? && Tokens(p.value) == tokens;
    TokensCounted(limits, START, tokens);
  }

  lemma {:induction false} TokensCounted(limits: Limits, st: Scanner, tokens: seq<Token>)
    requires ScanFrom(limits, st, tokens).More?
    ensures ScanFrom(limits, st, tokens).st.tokens == st.tokens + |tokens|
    ensures tokens != [] ==> st.tokens + |tokens| <= limits.tokens
    decreases |tokens|
  {
    if tokens != [] {
      TokensCounted(limits, Next(limits, st, tokens[0]).st, tokens[1..]);
    }
  }

  lemma ValueIsAccepted(limits: Limits, v: Value)
    requires limits.depth > 0 && limits.tokens > 0 && limits.items > 0
    requires |Tokens(v)| <= limits.tokens && Within(v, limits.depth, limits.items)
    ensures Validate(limits, Tokens(v), EndOfInput) == Accepted
  {
    NothingRead();
    ValueReads(limits, [], v);
  }

  // ----- and of one value only -----

  function ExtendAll(p: Parse, tokens: seq<Token>): Parse
    decreases |tokens|
  {
    if tokens == [] then p else ExtendAll(Extend(p, tokens[0]), tokens[1..])
  }

  lemma {:induction false} ExtendConcat(p: Parse, a: seq<Token>, b: seq<Token>)
    ensures ExtendAll(p, a + b) == ExtendAll(ExtendAll(p, a), b)
    decreases |a|
  {
    if a == [] {
      assert a + b == b;
    } else {
      assert (a + b)[0] == a[0] && (a + b)[1..] == a[1..] + b;
      ExtendConcat(Extend(p, a[0]), a[1..], b);
    }
  }

  lemma ExtendOne(p: Parse, t: Token)
    ensures ExtendAll(p, [t]) == Extend(p, t)
  {
    assert [t][1..] == [];
  }

  lemma ArrayExtends(parts: seq<Part>, items: seq<Value>)
    requires Expects(parts)
    requires ExtendAll(Open(parts + [Items([])]), ItemTokens(items)) == Open(parts + [Items(items)])
    ensures ExtendAll(Open(parts), Tokens(Array(items))) == Fill(parts, Array(items))
  {
    Opened(parts, OpenArray);
    Innermost(parts, Items(items));
    ExtendOne(Open(parts + [Items(items)]), CloseArray);
    ExtendConcat(Open(parts), [OpenArray], ItemTokens(items));
    ExtendConcat(Open(parts), [OpenArray] + ItemTokens(items), [CloseArray]);
  }

  lemma ObjectExtends(parts: seq<Part>, members: seq<Member>)
    requires Expects(parts)
    requires ExtendAll(Open(parts + [Members([])]), MemberTokens(members)) == Open(parts + [Members(members)])
    ensures ExtendAll(Open(parts), Tokens(Object(members))) == Fill(parts, Object(members))
  {
    Opened(parts, OpenObject);
    Innermost(parts, Members(members));
    ExtendOne(Open(parts + [Members(members)]), CloseObject);
    ExtendConcat(Open(parts), [OpenObject], MemberTokens(members));
    ExtendConcat(Open(parts), [OpenObject] + MemberTokens(members), [CloseObject]);
  }

  lemma Opened(parts: seq<Part>, t: Token)
    requires Expects(parts) && Opens(t)
    ensures ExtendAll(Open(parts), [t]) == Open(parts + [NewPart(t)])
  {
    ExtendOne(Open(parts), t);
    assert [] + [NewPart(t)] == [NewPart(t)];
  }

  lemma LeafExtends(parts: seq<Part>, t: Token)
    requires Expects(parts) && !IsDelimiter(t)
    ensures ExtendAll(Open(parts), [t]) == Fill(parts, LeafOf(t))
  {
    ExtendOne(Open(parts), t);
  }

  /** Without any limits, too, the tokens of a value fill the place with it. */
  lemma {:induction false} ValueExtends(parts: seq<Part>, v: Value)
    requires Expects(parts)
    ensures ExtendAll(Open(parts), Tokens(v)) == Fill(parts, v)
    decreases v
  {
    match v
    case Atom => LeafExtends(parts, Scalar);
    case Word(text) => LeafExtends(parts, Text(text));
    case Array(items) =>
      ItemsExtend(parts, items);
      ArrayExtends(parts, items);
    case Object(members) =>
      MembersExtend(parts, members);
      ObjectExtends(parts, members);
  }

  lemma {:induction false} ItemsExtend(parts: seq<Part>, items: seq<Value>)
    ensures ExtendAll(Open(parts + [Items([])]), ItemTokens(items)) == Open(parts + [Items(items)])
    decreases items
  {
    if items != [] {
      var front, last := items[..|items| - 1], items[|items| - 1];
      assert items == front + [last];
      ItemTokensLast(front, last);
      ItemsExtend(parts, front);
      Innermost(parts, Items(front));
      ValueExtends(parts + [Items(front)], last);
      ExtendConcat(Open(parts + [Items([])]), ItemTokens(front), Tokens(last));
    }
  }

  lemma {:induction false} MembersExtend(parts: seq<Part>, members: seq<Member>)
    ensures ExtendAll(Open(parts + [Members([])]), MemberTokens(members)) == Open(parts + [Members(members)])
    decreases members
  {
    if members != [] {
      var front, last := members[..|members| - 1], members[|members| - 1];
      assert members == front + [last] && last == Member(last.key, last.value);
      MemberTokensLast(front, last.key, last.value);
      MembersExtend(parts, front);
      MemberExtends(parts, front, last);
      ExtendConcat(Open(parts + [Members([])]), MemberTokens(front), [Text(last.key)]);
      ExtendConcat(Open(parts + [Members([])]), MemberTokens(front) + [Text(last.key)], Tokens(last.value));
    }
  }

  lemma {:induction false} MemberExtends(parts: seq<Part>, front: seq<Member>, last: Member)
    ensures ExtendAll(Open(parts + [Members(front)]), [Text(last.key)]) == Open(parts + [Keyed(front, last.key)])
    ensures ExtendAll(Open(parts + [Keyed(front, last.key)]), Tokens(last.value)) ==
      Open(parts + [Members(front + [last])])
    decreases last, 0
  {
    Innermost(parts, Members(front));
    ExtendOne(Open(parts + [Members(front)]), Text(last.key));
    Innermost(parts, Keyed(front, last.key));
    ValueExtends(parts + [Keyed(front, last.key)], last.value);
    assert last == Member(last.key, last.value);
  }

  /** No two values have the same token list. */
  lemma OneValue(v: Value, w: Value)
    requires Tokens(v) == Tokens(w)
    ensures v == w
  {
    ValueExtends([], v);
    ValueExtends([], w);
  }
}
