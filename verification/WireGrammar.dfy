/** The grammar of the frames one response stream may contain, as an automaton
    that knows nothing about the session: created, in_progress, then items that
    are added in output-index order, each followed by its deltas and closed by its
    done frames, then at most one terminal frame and nothing after it. The strict
    grammar also wants the arguments of a closed tool call to be the concatenation
    of its delta frames; for text both grammars do. */
module WireGrammar {
  import opened Bridge
  import opened SessionSpec

  /** deltas is the concatenation of the delta frames, final the text of the done frames. */
  datatype Stage =
    | TextAnnounced
    | TextOpen(deltas: string)
    | TextFinal(deltas: string)
    | PartFinal(deltas: string)
    | ToolOpen(deltas: string)
    | ToolFinal(deltas: string, final: string)
    | Closed(deltas: string, final: string)

  datatype Slot = Slot(id: string, stage: Stage)

  datatype Reading = Broken | Nothing | CreatedOnly | Live(slots: seq<Slot>) | Ended(slots: seq<Slot>)

  function OutputText(item: Snapshot): string {
    match item
    case TextSnapshot(_, _, content) => if content.Some? then content.value else ""
    case ToolSnapshot(_, _, _, _, _, arguments) => arguments
  }

  /** The next stage of the item a frame belongs to, None if the frame may not come now. */
  function Advance(strict: bool, slot: Slot, body: Body): Option<Stage> {
    match body
    case PartAdded(_, id) => if slot.stage.TextAnnounced? && id == slot.id then Some(TextOpen("")) else None
    case TextDeltaFrame(_, id, d) =>
      if slot.stage.TextOpen? && id == slot.id then Some(TextOpen(slot.stage.deltas + d)) else None
    case TextDoneFrame(_, id, text) =>
      if slot.stage == TextOpen(text) && id == slot.id then Some(TextFinal(text)) else None
    case PartDone(_, id, text) => if slot.stage == TextFinal(text) && id == slot.id then Some(PartFinal(text)) else None
    case ArgumentsDeltaFrame(_, id, _, d) =>
      if slot.stage.ToolOpen? && id == slot.id then Some(ToolOpen(slot.stage.deltas + d)) else None
    case ArgumentsDoneFrame(_, id, _, _, final) =>
      if slot.stage.ToolOpen? && id == slot.id && (strict ==> final == slot.stage.deltas)
      then Some(ToolFinal(slot.stage.deltas, final)) else None
    case ItemDone(_, item) =>
      if item.id == slot.id && item.status != InProgress && Finishes(slot.stage, item)
      then Some(Closed(slot.stage.deltas, OutputText(item))) else None
    case _ => None
  }

  /** The done frames before it carried the text the closing snapshot repeats. */
  predicate Finishes(stage: Stage, item: Snapshot) {
    match item
    case TextSnapshot(_, _, content) => content.Some? && stage == PartFinal(content.value)
    case ToolSnapshot(_, _, _, _, _, arguments) => stage.ToolFinal? && stage.final == arguments
  }

  function Opening(item: Snapshot): Slot {
    Slot(item.id, if item.TextSnapshot? then TextAnnounced else ToolOpen(""))
  }

  /** Only the protocol-error ending may leave items open or unannounced; every
      closed item is repeated in the terminal output with its final text. */
  predicate EndingOk(slots: seq<Slot>, ending: Ending, output: seq<Snapshot>) {
    && |output| >= |slots|
    && (ending != EndFailed(StreamInvalidTransition) ==>
          |output| == |slots| && forall i :: 0 <= i < |slots| ==> slots[i].stage.Closed?)
    && forall i :: 0 <= i < |slots| && slots[i].stage.Closed? ==> OutputText(output[i]) == slots[i].stage.final
  }

  function Accept(strict: bool, r: Reading, body: Body): Reading {
    match body
    case CreatedFrame(_) => if r.Nothing? then CreatedOnly else Broken
    case InProgressFrame(_) => if r.CreatedOnly? then Live([]) else Broken
    case ItemAdded(index, item) =>
      if r.Live? && index == |r.slots| && item.status == InProgress && OutputText(item) == ""
        then Live(r.slots + [Opening(item)]) else Broken
    case TerminalFrame(ending, response) =>
      if r.Live? && EndingOk(r.slots, ending, response.output) then Ended(r.slots) else Broken
    case _ =>
      if r.Live? && body.index < |r.slots| && Advance(strict, r.slots[body.index], body).Some?
      then Live(r.slots[body.index := r.slots[body.index].(stage := Advance(strict, r.slots[body.index], body).value)])
      else Broken
  }

  function Read(strict: bool, frames: seq<Frame>): Reading {
    if frames == [] then Nothing else Accept(strict, Read(strict, frames[..|frames| - 1]), frames[|frames| - 1].body)
  }

  lemma ReadAppend(strict: bool, frames: seq<Frame>, f: Frame)
    ensures Read(strict, frames + [f]) == Accept(strict, Read(strict, frames), f.body)
  {
    assert (frames + [f])[..|frames|] == frames;
  }

  predicate Numbered(frames: seq<Frame>) {
    forall i :: 0 <= i < |frames| ==> frames[i].seqNo == i
  }

  /** Once reading is broken or ended, one more frame breaks it. */
  lemma {:induction false} BrokenPrefix(strict: bool, frames: seq<Frame>, n: nat)
    requires n <= |frames| && Read(strict, frames) != Broken
    ensures Read(strict, frames[..n]) != Broken
    ensures n < |frames| ==> !Read(strict, frames[..n]).Ended?
    decreases |frames|
  {
    if n == |frames| {
      assert frames[..n] == frames;
    } else {
      var front := frames[..|frames| - 1];
      assert Read(strict, frames) == Accept(strict, Read(strict, front), frames[|frames| - 1].body);
      if n == |frames| - 1 {
        assert frames[..n] == front;
      } else {
        BrokenPrefix(strict, front, n);
        assert front[..n] == frames[..n];
      }
    }
  }
}
