/** The chunks a chat stream emits, and the grammar they keep whatever the model, the tools and the
    event bus deliver, and in whatever order. */
module ChatStream {
  import opened Wrappers

  type PartId = nat

  datatype Chunk =
    | Start | Data | StepStart | StepEnd
    | TextStart(part: PartId) | TextDelta(part: PartId, content: string) | TextEnd(part: PartId)
    | ReasoningStart(part: PartId) | ReasoningDelta(part: PartId, content: string) | ReasoningEnd(part: PartId)
    | ToolInput(call: string) | ToolOutput(call: string) | ApprovalRequest(approval: string, call: string)
    | Finish | Error

  // ---------------------------------------------------------------- the grammar

  /** What a reader of the stream knows: whether a step is open, which part is open, which tool inputs
      it has seen, how many parts there were, and whether the stream has ended. */
  datatype Reader = Reader(
    step: bool, text: Option<PartId>, reasoning: Option<PartId>, inputs: set<string>, parts: nat, ended: bool)
  {
    predicate Quiet() {
      text.None? && reasoning.None?
    }
  }

  const NEW_READER := Reader(false, None, None, {}, 0, false)

  predicate Allowed(r: Reader, c: Chunk) {
    && !r.ended
    && match c
       case Start => true
       case Data => true
       case StepStart => !r.step
       case StepEnd => r.step && r.Quiet()
       case TextStart(p) => r.step && r.Quiet() && p == r.parts
       case TextDelta(p, _) => r.text == Some(p)
       case TextEnd(p) => r.text == Some(p)
       case ReasoningStart(p) => r.step && r.Quiet() && p == r.parts
       case ReasoningDelta(p, _) => r.reasoning == Some(p)
       case ReasoningEnd(p) => r.reasoning == Some(p)
       case ToolInput(_) => r.step && r.Quiet()
       case ToolOutput(_) => r.Quiet()
       case ApprovalRequest(_, call) => r.step && r.Quiet() && (call != "" ==> call in r.inputs)
       case Finish => !r.step && r.Quiet()
       case Error => !r.step && r.Quiet()
  }

  function Read(r: Reader, c: Chunk): Reader {
    match c
    case StepStart => r.(step := true)
    case StepEnd => r.(step := false)
    case TextStart(p) => r.(text := Some(p), parts := r.parts + 1)
    case TextEnd(_) => r.(text := None)
    case ReasoningStart(p) => r.(reasoning := Some(p), parts := r.parts + 1)
    case ReasoningEnd(_) => r.(reasoning := None)
    case ToolInput(call) => r.(inputs := r.inputs + {call})
    case Finish => r.(ended := true)
    case Error => r.(ended := true)
    case _ => r
  }

  function ReadAll(trace: seq<Chunk>): Option<Reader> {
    if trace == [] then Some(NEW_READER)
    else
      var before, c := ReadAll(trace[..|trace| - 1]), trace[|trace| - 1];
      if before.Some? && Allowed(before.value, c) then Some(Read(before.value, c)) else None
  }

  predicate WellFormed(trace: seq<Chunk>) {
    ReadAll(trace).Some?
  }

  /** A reader that stops early has seen a well-formed stream too. */
  lemma {:induction false} PrefixIsWellFormed(trace: seq<Chunk>, n: nat)
    requires WellFormed(trace) && n <= |trace|
    ensures WellFormed(trace[..n])
    decreases |trace|
  {
    if n == |trace| {
      assert trace[..n] == trace;
    } else {
      var shorter := trace[..|trace| - 1];
      PrefixIsWellFormed(shorter, n);
      assert shorter[..n] == trace[..n];
    }
  }

  /** `trace[from..]` neither closes the part nor opens another. */
  predicate StillOpen(trace: seq<Chunk>, from: nat, text: bool) {
    forall i | from <= i < |trace| ::
      && !trace[i].TextStart? && !trace[i].ReasoningStart? && !trace[i].StepEnd?
      && !trace[i].Finish? && !trace[i].Error?
      && (if text then !trace[i].TextEnd? else !trace[i].ReasoningEnd?)
  }

  ghost predicate TextOpenSince(trace: seq<Chunk>, part: PartId, i: nat) {
    i < |trace| && trace[i] == TextStart(part) && StillOpen(trace, i + 1, true)
  }

  ghost predicate ReasoningOpenSince(trace: seq<Chunk>, part: PartId, i: nat) {
    i < |trace| && trace[i] == ReasoningStart(part) && StillOpen(trace, i + 1, false)
  }

  /** What the reader's fields mean in terms of the trace. */
  lemma {:induction false} ReaderMeans(trace: seq<Chunk>)
    requires WellFormed(trace)
    ensures var r := ReadAll(trace).value;
      && (r.text.Some? ==> exists i :: TextOpenSince(trace, r.text.value, i))
      && (r.reasoning.Some? ==> exists i :: ReasoningOpenSince(trace, r.reasoning.value, i))
      && (r.text.None? || r.reasoning.None?)
      && (r.text.Some? || r.reasoning.Some? ==> r.step && !r.ended)
      && (forall call | call in r.inputs :: ToolInput(call) in trace)
      && (r.ended ==> !r.step)
  {
    hide TextOpenSince, ReasoningOpenSince;
    if trace != [] {
      var n := |trace| - 1;
      var shorter, c := trace[..n], trace[n];
      ReaderMeans(shorter);
      assert trace == shorter + [c];
      var before, r := ReadAll(shorter).value, ReadAll(trace).value;
      assert Allowed(before, c) && r == Read(before, c);
      hide ReadAll;
      if r.text.Some? {
        TextIsOpen(shorter, before, c);
      }
      if r.reasoning.Some? {
        ReasoningIsOpen(shorter, before, c);
      }
    }
  }

  lemma TextIsOpen(shorter: seq<Chunk>, before: Reader, c: Chunk)
    requires Allowed(before, c) && Read(before, c).text.Some?
    requires before.text.Some? ==> exists i :: TextOpenSince(shorter, before.text.value, i)
    requires before.text.Some? ==> before.reasoning.None? && before.step && !before.ended
    ensures exists i :: TextOpenSince(shorter + [c], Read(before, c).text.value, i)
  {
    if c.TextStart? {
      assert TextOpenSince(shorter + [c], c.part, |shorter|);
    } else {
      var i :| TextOpenSince(shorter, before.text.value, i);
      assert TextOpenSince(shorter + [c], before.text.value, i);
    }
  }

  lemma ReasoningIsOpen(shorter: seq<Chunk>, before: Reader, c: Chunk)
    requires Allowed(before, c) && Read(before, c).reasoning.Some?
    requires before.reasoning.Some? ==> exists i :: ReasoningOpenSince(shorter, before.reasoning.value, i)
    requires before.reasoning.Some? ==> before.text.None? && before.step && !before.ended
    ensures exists i :: ReasoningOpenSince(shorter + [c], Read(before, c).reasoning.value, i)
  {
    if c.ReasoningStart? {
      assert ReasoningOpenSince(shorter + [c], c.part, |shorter|);
    } else {
      var i :| ReasoningOpenSince(shorter, before.reasoning.value, i);
      assert ReasoningOpenSince(shorter + [c], before.reasoning.value, i);
    }
  }

  /** What a well-formed stream promises about each of its chunks. */
  lemma WellFormedMeans(trace: seq<Chunk>, i: nat)
    requires WellFormed(trace) && i < |trace|
    ensures trace[i].TextDelta? ==> exists j :: TextOpenSince(trace[..i], trace[i].part, j)
    ensures trace[i].ReasoningDelta? ==> exists j :: ReasoningOpenSince(trace[..i], trace[i].part, j)
    ensures trace[i].ApprovalRequest? && trace[i].call != "" ==> ToolInput(trace[i].call) in trace[..i]
    ensures trace[i].Finish? || trace[i].Error? ==> i == |trace| - 1
  {
    PrefixIsWellFormed(trace, i);
    PrefixIsWellFormed(trace, i + 1);
    ReaderMeans(trace[..i]);
    assert trace[..i + 1][..i] == trace[..i];
    if i < |trace| - 1 {
      PrefixIsWellFormed(trace, i + 2);
      assert trace[..i + 2][..i + 1] == trace[..i + 1];
    }
  }

  // ---------------------------------------------------------------- what the stream says

  /** The part of a stream its reader is after: text, reasoning, tool outputs and approval requests. */
  datatype Said =
    | Text(content: string) | Thought(content: string) | Output(call: string) | Asked(approval: string, call: string)

  function SaidBy(c: Chunk): seq<Said> {
    match c
    case TextDelta(_, s) => [Text(s)]
    case ReasoningDelta(_, s) => [Thought(s)]
    case ToolOutput(call) => [Output(call)]
    case ApprovalRequest(approval, call) => [Asked(approval, call)]
    case _ => []
  }

  function Content(trace: seq<Chunk>): seq<Said> {
    if trace == [] then [] else Content(trace[..|trace| - 1]) + SaidBy(trace[|trace| - 1])
  }

  lemma ReadOneMore(trace: seq<Chunk>, c: Chunk)
    ensures ReadAll(trace + [c]) ==
      if ReadAll(trace).Some? && Allowed(ReadAll(trace).value, c) then Some(Read(ReadAll(trace).value, c)) else None
    ensures Content(trace + [c]) == Content(trace) + SaidBy(c)
  {
    assert (trace + [c])[..|trace|] == trace;
  }

  // ---------------------------------------------------------------- the generator

  /** A scoped event; an approval's call id falls back to its approval id. */
  datatype ScopedEvent = AwaitingApproval(approval: string, call: string) | OtherEvent

  /** What happens next: an item from the token queue, a drain of the event queue, the end of the
      producer, or the loss of the run's fence.  `stored` says whether writing a terminal status
      succeeds, `fallback` is a fresh id for a call without one. */
  datatype Input =
    | Token(content: string) | Reasoning(content: string)
    | ToolCall(call: string, fallback: string) | ToolResult(call: string) | Unknown
    | Done(awaiting: bool, events: seq<ScopedEvent>, stored: bool)
    | Failure(events: seq<ScopedEvent>, stored: bool)
    | Drain(events: seq<ScopedEvent>)
    | ProducerEnded(failed: bool, events: seq<ScopedEvent>, stored: bool)
    | FenceLost

  function Approval(e: ScopedEvent): seq<Said> {
    match e
    case AwaitingApproval(approval, call) => [Asked(approval, if call != "" then call else approval)]
    case OtherEvent => []
  }

  function Approvals(events: seq<ScopedEvent>): seq<Said> {
    if events == [] then [] else Approvals(events[..|events| - 1]) + Approval(events[|events| - 1])
  }

  /** What one input does: what it adds, whether the generator goes on, and the chunk it ends with.  A
      generator that neither goes on nor ends has raised, because a terminal status could not be stored. */
  datatype Turn = Turn(said: seq<Said>, goes: bool, last: Option<Chunk>)

  function Ends(events: seq<ScopedEvent>, last: Chunk, ok: bool): Turn {
    if ok then Turn(Approvals(events), false, Some(last)) else Turn([], false, None)
  }

  function TurnOf(input: Input, lost: bool): Turn {
    match input
    case Token(content) => Turn([Text(content)], true, None)
    case Reasoning(content) => Turn([Thought(content)], true, None)
    case ToolResult(call) => Turn([Output(call)], true, None)
    case Drain(events) => Turn(Approvals(events), true, None)
    case Done(awaiting, events, stored) =>
      if !awaiting && lost then Turn([], true, None) else Ends(events, Finish, awaiting || stored)
    case Failure(events, stored) => Ends(events, Error, lost || stored)
    case ProducerEnded(failed, events, stored) =>
      Ends(events, if failed then Error else Finish, !failed || lost || stored)
    case _ => Turn([], true, None)
  }

  /** The whole stream: the turns of its inputs up to the first one after which the generator stops. */
  function Story(inputs: seq<Input>, lost: bool): Turn {
    if inputs == [] then Turn([], true, None)
    else
      var first := TurnOf(inputs[0], lost);
      if !first.goes then first
      else
        var rest := Story(inputs[1..], lost || inputs[0].FenceLost?);
        rest.(said := first.said + rest.said)
  }

  lemma NoStory(lost: bool)
    ensures Story([], lost) == Turn([], true, None)
  {
  }

  lemma StoryAfter(inputs: seq<Input>, i: nat, lost: bool)
    requires i < |inputs|
    ensures Story(inputs[i..], lost) ==
      var turn, rest := TurnOf(inputs[i], lost), Story(inputs[i + 1..], lost || inputs[i].FenceLost?);
      if turn.goes then rest.(said := turn.said + rest.said) else turn
  {
    assert inputs[i..][1..] == inputs[i + 1..];
  }

  /** The inputs the generator takes before it stops, the stopping one included. */
  function Taken(inputs: seq<Input>, lost: bool): (n: nat)
    ensures n <= |inputs|
  {
    if inputs == [] then 0
    else if !TurnOf(inputs[0], lost).goes then 1
    else 1 + Taken(inputs[1..], lost || inputs[0].FenceLost?)
  }

  function Words(said: seq<Said>): seq<Said> {
    if said == [] then []
    else (if said[0].Text? || said[0].Thought? then [said[0]] else []) + Words(said[1..])
  }

  function Spoken(inputs: seq<Input>): seq<Said> {
    if inputs == [] then []
    else
      (match inputs[0]
       case Token(content) => [Text(content)]
       case Reasoning(content) => [Thought(content)]
       case _ => []) + Spoken(inputs[1..])
  }

  lemma {:induction false} WordsConcat(a: seq<Said>, b: seq<Said>)
    ensures Words(a + b) == Words(a) + Words(b)
    decreases |a|
  {
    if a == [] {
      assert a + b == b;
    } else {
      WordsConcat(a[1..], b);
      hide Words;
      FirstWord(a[0], a[1..]);
      FirstWord(a[0], a[1..] + b);
      assert a == [a[0]] + a[1..] && a + b == [a[0]] + (a[1..] + b);
    }
  }

  lemma FirstWord(first: Said, rest: seq<Said>)
    ensures Words([first] + rest) == (if first.Text? || first.Thought? then [first] else []) + Words(rest)
  {
    assert ([first] + rest)[1..] == rest;
  }

  lemma OneWord(said: Said)
    ensures Words([said]) == if said.Text? || said.Thought? then [said] else []
  {
    assert [said][1..] == [];
  }

  lemma {:induction false} ApprovalsAreWordless(events: seq<ScopedEvent>)
    ensures Words(Approvals(events)) == []
    decreases |events|
  {
    if events != [] {
      var last := Approval(events[|events| - 1]);
      ApprovalsAreWordless(events[..|events| - 1]);
      hide Words;
      WordsConcat(Approvals(events[..|events| - 1]), last);
      if last == [] {
        NoWords();
      } else {
        OneWord(last[0]);
      }
    }
  }

  /** Every token and every piece of reasoning taken is passed on, once, in order, and nothing else is. */
  lemma {:induction false} StoryKeepsWords(inputs: seq<Input>, lost: bool)
    ensures Words(Story(inputs, lost).said) == Spoken(inputs[..Taken(inputs, lost)])
    decreases |inputs|
  {
    hide Story, Taken, TurnOf, Words, Spoken;
    StoryFirst(inputs, lost);
    if inputs == [] {
      NoWords();
    } else {
      var input, later := inputs[0], lost || inputs[0].FenceLost?;
      var first, n := TurnOf(input, lost), Taken(inputs[1..], later);
      TurnKeepsWords(input, lost);
      if first.goes {
        StoryKeepsWords(inputs[1..], later);
        WordsConcat(first.said, Story(inputs[1..], later).said);
        assert inputs[..n + 1] == [input] + inputs[1..][..n];
        FirstSpoken(input, inputs[1..][..n]);
      } else {
        assert inputs[..1] == [input];
      }
    }
  }

  lemma StoryFirst(inputs: seq<Input>, lost: bool)
    ensures inputs == [] ==> Story(inputs, lost) == Turn([], true, None) && Taken(inputs, lost) == 0
    ensures inputs != [] ==>
      var first, later := TurnOf(inputs[0], lost), lost || inputs[0].FenceLost?;
      if first.goes then
        && Story(inputs, lost) == Story(inputs[1..], later).(said := first.said + Story(inputs[1..], later).said)
        && Taken(inputs, lost) == 1 + Taken(inputs[1..], later)
      else Story(inputs, lost) == first && Taken(inputs, lost) == 1
  {
    hide TurnOf;
  }

  lemma TurnKeepsWords(input: Input, lost: bool)
    ensures Words(TurnOf(input, lost).said) == Spoken([input])
  {
    hide Words, Approvals;
    assert [input][1..] == [] && Words([]) == [] by { NoWords(); }
    match input
    case Token(content) => OneWord(Text(content));
    case Reasoning(content) => OneWord(Thought(content));
    case ToolResult(call) => OneWord(Output(call));
    case Drain(events) => ApprovalsAreWordless(events);
    case Done(_, events, _) => ApprovalsAreWordless(events);
    case Failure(events, _) => ApprovalsAreWordless(events);
    case ProducerEnded(_, events, _) => ApprovalsAreWordless(events);
    case _ =>
  }

  lemma NoWords()
    ensures Words([]) == [] && Spoken([]) == []
  {
  }

  lemma FirstSpoken(input: Input, rest: seq<Input>)
    ensures Spoken([input] + rest) == Spoken([input]) + Spoken(rest)
  {
    assert ([input] + rest)[1..] == rest && [input][1..] == [];
  }

  class Stream {
    var text: Option<PartId>
    var reasoning: Option<PartId>
    var stepOpen: bool
    var pending: nat
    var emitted: set<string>
    var persisted: bool
    var fenceLost: bool
    var paused: bool
    /** Effects seen outside: the chunks yielded, tool executions marked, and statuses stored. */
    var trace: seq<Chunk>
    var started: nat
    var finished: nat
    var stores: nat
    /** How many parts were opened; part ids are numbered where the source draws fresh ones. */
    var parts: nat
    ghost var ended: bool

    /** The generator's variables are what a reader of its chunks knows. */
    ghost predicate Valid()
      reads this
    {
      && ReadAll(trace) == Some(Reader(stepOpen, text, reasoning, emitted, parts, ended))
      && (text.None? || reasoning.None?) && (!stepOpen ==> text.None? && reasoning.None?)
      && finished + pending == started && stores == (if persisted then 1 else 0)
    }

    ghost predicate Open()
      reads this
    {
      Valid() && !ended
    }

    /** What a turn says happened, from the chunks `before` it. */
    ghost predicate Did(turn: Turn, before: seq<Chunk>, more: bool)
      reads this
    {
      && Content(trace) == Content(before) + turn.said && more == turn.goes && ended == turn.last.Some?
      && (ended ==> |trace| > 0 && trace[|trace| - 1] == turn.last.value)
    }

    constructor ()
      ensures !persisted && !fenceLost
      ensures Open() && stepOpen && fresh(this) && stores == 0 && started == 0
    {
      text, reasoning, stepOpen, pending, emitted := None, None, true, 0, {};
      persisted, fenceLost, paused := false, false, false;
      trace, started, finished, stores, parts, ended := [Start, Data, Data, StepStart], 0, 0, 0, 0, false;
      new;
      assert trace[..3] == [Start, Data, Data] && trace[..3][..2] == [Start, Data] && [Start, Data][..1] == [Start];
      assert ReadAll([Start]) == Some(NEW_READER) by {
        assert [Start][..0] == [];
      }
      assert ReadAll([Start, Data]) == Some(NEW_READER);
      assert ReadAll([Start, Data, Data]) == Some(NEW_READER);
    }

    method Yield(c: Chunk)
      requires Open() && Allowed(ReadAll(trace).value, c)
      modifies this`trace
      ensures trace == old(trace) + [c] && ReadAll(trace) == Some(Read(ReadAll(old(trace)).value, c))
      ensures Content(trace) == Content(old(trace)) + SaidBy(c)
    {
      ReadOneMore(trace, c);
      trace := trace + [c];
    }

    method CloseText()
      requires Open()
      modifies this`trace, this`text
      ensures Open() && text.None? && old(trace) <= trace && Content(trace) == Content(old(trace))
    {
      hide ReadAll, Content;
      if text.Some? {
        Yield(TextEnd(text.value));
        text := None;
      }
    }

    method CloseReasoning()
      requires Open()
      modifies this`trace, this`reasoning
      ensures Open() && reasoning.None? && old(trace) <= trace && Content(trace) == Content(old(trace))
    {
      hide ReadAll, Content;
      if reasoning.Some? {
        Yield(ReasoningEnd(reasoning.value));
        reasoning := None;
      }
    }

    method CloseParts()
      requires Open()
      modifies this`trace, this`text, this`reasoning
      ensures Open() && text.None? && reasoning.None? && old(trace) <= trace && Content(trace) == Content(old(trace))
    {
      hide ReadAll, Content;
      CloseReasoning();
      CloseText();
    }

    method OpenStep()
      requires Open()
      modifies this`trace, this`stepOpen
      ensures Open() && stepOpen && old(trace) <= trace && Content(trace) == Content(old(trace))
    {
      hide ReadAll, Content;
      if !stepOpen {
        Yield(StepStart);
        stepOpen := true;
      }
    }

    method CloseStep()
      requires Open() && text.None? && reasoning.None?
      modifies this`trace, this`stepOpen
      ensures Open() && !stepOpen && old(trace) <= trace && Content(trace) == Content(old(trace))
    {
      hide ReadAll, Content;
      if stepOpen {
        Yield(StepEnd);
        stepOpen := false;
      }
    }

    method EmitInput(call: string)
      requires Open() && stepOpen && text.None? && reasoning.None?
      modifies this`trace, this`emitted
      ensures Open() && emitted == old(emitted) + {call} && old(trace) <= trace && Content(trace) == Content(old(trace))
    {
      hide ReadAll, Content;
      Yield(ToolInput(call));
      emitted := emitted + {call};
    }

    /** The input of a call is sent before its approval request, unless it was sent already. */
    method RequestApproval(approval: string, call: string)
      requires Open()
      modifies this`trace, this`text, this`reasoning, this`stepOpen, this`emitted
      ensures Open() && old(trace) <= trace
      ensures Content(trace) == Content(old(trace)) + Approval(AwaitingApproval(approval, call))
    {
      hide ReadAll, Content;
      OpenStep();
      CloseParts();
      var id := if call != "" then call else approval;
      if id != "" && id !in emitted {
        EmitInput(id);
      }
      Yield(ApprovalRequest(approval, id));
    }

    method EmitEvent(e: ScopedEvent)
      requires Open()
      modifies this`trace, this`text, this`reasoning, this`stepOpen, this`emitted
      ensures Open() && old(trace) <= trace
      ensures Content(trace) == Content(old(trace)) + Approval(e)
    {
      hide ReadAll, Content;
      Yield(Data);
      if e.AwaitingApproval? {
        RequestApproval(e.approval, e.call);
      }
    }

    method DrainEvents(events: seq<ScopedEvent>)
      requires Open()
      modifies this`trace, this`text, this`reasoning, this`stepOpen, this`emitted
      ensures Open() && old(trace) <= trace
      ensures Content(trace) == Content(old(trace)) + Approvals(events)
    {
      hide ReadAll, Content, Valid, Approval;
      for i := 0 to |events|
        invariant Open() && old(trace) <= trace
        invariant Content(trace) == Content(old(trace)) + Approvals(events[..i])
      {
        assert events[..i + 1][..i] == events[..i];
        EmitEvent(events[i]);
      }
      assert events[..|events|] == events;
    }

    /** Everything is closed before the last chunk. */
    method End(events: seq<ScopedEvent>, last: Chunk)
      requires Open() && (last.Finish? || last.Error?)
      modifies this`trace, this`text, this`reasoning, this`stepOpen, this`emitted, this`ended
      ensures Valid() && ended && old(trace) <= trace && trace[|trace| - 1] == last
      ensures Content(trace) == Content(old(trace)) + Approvals(events)
    {
      hide ReadAll, Content;
      DrainEvents(events);
      CloseParts();
      CloseStep();
      Yield(last);
      ended := true;
    }

    /** Store a terminal status unless one is stored; `succeeds` says whether the write does. */
    method PersistTerminal(succeeds: bool) returns (ok: bool)
      requires Valid()
      modifies this`persisted, this`stores
      ensures Valid() && persisted == (old(persisted) || succeeds) && ok == persisted
    {
      if persisted {
        return true;
      }
      if succeeds {
        stores := stores + 1;
        persisted := true;
      }
      return succeeds;
    }

    method OpenText()
      requires Open() && stepOpen && reasoning.None?
      modifies this`trace, this`text, this`parts
      ensures Open() && text.Some? && old(trace) <= trace && Content(trace) == Content(old(trace))
    {
      hide ReadAll, Content;
      if text.None? {
        Yield(TextStart(parts));
        text, parts := Some(parts), parts + 1;
      }
    }

    method OpenReasoning()
      requires Open() && stepOpen && text.None?
      modifies this`trace, this`reasoning, this`parts
      ensures Open() && reasoning.Some? && old(trace) <= trace && Content(trace) == Content(old(trace))
    {
      hide ReadAll, Content;
      if reasoning.None? {
        Yield(ReasoningStart(parts));
        reasoning, parts := Some(parts), parts + 1;
      }
    }

    method EmitText(content: string)
      requires Open()
      modifies this`trace, this`text, this`reasoning, this`stepOpen, this`parts
      ensures Open() && old(trace) <= trace
      ensures Content(trace) == Content(old(trace)) + [Text(content)]
    {
      hide ReadAll, Content;
      OpenStep();
      CloseReasoning();
      OpenText();
      Yield(TextDelta(text.value, content));
    }

    method EmitReasoning(content: string)
      requires Open()
      modifies this`trace, this`text, this`reasoning, this`stepOpen, this`parts
      ensures Open() && old(trace) <= trace
      ensures Content(trace) == Content(old(trace)) + [Thought(content)]
    {
      hide ReadAll, Content;
      OpenStep();
      CloseText();
      OpenReasoning();
      Yield(ReasoningDelta(reasoning.value, content));
    }

    method CallTool(call: string)
      requires Open()
      modifies this`trace, this`text, this`reasoning, this`stepOpen, this`emitted, this`pending, this`started
      ensures Open() && old(trace) <= trace && Content(trace) == Content(old(trace))
      ensures started == old(started) + 1 && pending == old(pending) + 1
    {
      hide ReadAll, Content;
      OpenStep();
      CloseParts();
      pending, started := pending + 1, started + 1;
      EmitInput(call);
    }

    /** A result beyond the calls made is passed on but not counted as a finished execution. */
    method ReturnResult(call: string)
      requires Open()
      modifies this`trace, this`text, this`reasoning, this`stepOpen, this`pending, this`finished
      ensures Open() && old(trace) <= trace && text.None? && reasoning.None? && (pending == 0 ==> !stepOpen)
      ensures pending == (if old(pending) > 0 then old(pending) - 1 else 0)
      ensures Content(trace) == Content(old(trace)) + [Output(call)]
    {
      hide ReadAll, Content;
      CloseParts();
      Yield(ToolOutput(call));
      if pending > 0 {
        pending, finished := pending - 1, finished + 1;
      }
      if pending == 0 {
        CloseStep();
      }
    }

    /** Waiting for the user counts every outstanding execution as finished. */
    method Pause(events: seq<ScopedEvent>)
      requires Open()
      modifies this
      ensures Valid() && ended && old(trace) <= trace && pending == 0 && paused && stores == old(stores)
      ensures trace[|trace| - 1] == Finish && fenceLost == old(fenceLost)
      ensures Content(trace) == Content(old(trace)) + Approvals(events)
    {
      hide ReadAll, Content;
      paused := true;
      while pending > 0
        invariant Open() && paused && trace == old(trace) && stores == old(stores) && fenceLost == old(fenceLost)
      {
        pending, finished := pending - 1, finished + 1;
      }
      End(events, Finish);
    }

    method HandleDone(awaiting: bool, events: seq<ScopedEvent>, stored: bool) returns (more: bool)
      requires Open() && !persisted
      modifies this
      ensures Valid() && old(trace) <= trace && fenceLost == old(fenceLost) && (more ==> !persisted && !ended)
      ensures Did(TurnOf(Done(awaiting, events, stored), old(fenceLost)), old(trace), more)
    {
      hide ReadAll, Content, Approvals;
      if awaiting {
        Pause(events);
        return false;
      }
      if fenceLost {
        return true;
      }
      var ok := PersistTerminal(stored);
      if ok {
        End(events, Finish);
      }
      return false;
    }

    method HandleFailure(events: seq<ScopedEvent>, stored: bool)
      requires Open() && !persisted
      modifies this
      ensures Valid() && old(trace) <= trace && fenceLost == old(fenceLost)
      ensures Did(TurnOf(Failure(events, stored), old(fenceLost)), old(trace), false)
    {
      hide ReadAll, Content, Approvals;
      var ok := fenceLost;
      if !fenceLost {
        ok := PersistTerminal(stored);
      }
      if ok {
        End(events, Error);
      }
    }

    method HandleEnd(failed: bool, events: seq<ScopedEvent>, stored: bool)
      requires Open() && !persisted
      modifies this
      ensures Valid() && old(trace) <= trace && fenceLost == old(fenceLost)
      ensures Did(TurnOf(ProducerEnded(failed, events, stored), old(fenceLost)), old(trace), false)
    {
      hide ReadAll, Content, Approvals;
      var ok := true;
      if failed && !fenceLost {
        ok := PersistTerminal(stored);
      }
      if ok {
        End(events, if failed then Error else Finish);
      }
    }

    /** One turn of the loop; `more` is false when the generator returns or raises. */
    method Handle(input: Input) returns (more: bool)
      requires Open() && !persisted
      modifies this
      ensures Valid() && old(trace) <= trace && fenceLost == (old(fenceLost) || input.FenceLost?)
      ensures more ==> !persisted && !ended
      ensures Did(TurnOf(input, old(fenceLost)), old(trace), more)
    {
      hide ReadAll, Content;
      match input {
        case Token(content) =>
          EmitText(content);
          return true;
        case Reasoning(content) =>
          EmitReasoning(content);
          return true;
        case ToolCall(call, fallback) =>
          CallTool(if call != "" then call else fallback);
          return true;
        case ToolResult(call) =>
          ReturnResult(call);
          return true;
        case Unknown =>
          Yield(Data);
          return true;
        case Drain(events) =>
          DrainEvents(events);
          return true;
        case FenceLost =>
          fenceLost := true;
          return true;
        case Done(awaiting, events, stored) =>
          more := HandleDone(awaiting, events, stored);
        case Failure(events, stored) =>
          HandleFailure(events, stored);
          return false;
        case ProducerEnded(failed, events, stored) =>
          HandleEnd(failed, events, stored);
          return false;
      }
    }

    /** What is known between two inputs: `whole` is what has been said, then what the rest has to say. */
    ghost predicate Telling(whole: Turn, rest: Turn, said: seq<Said>, before: seq<Chunk>)
      reads this
    {
      Open() && !persisted && Content(trace) == Content(before) + said && whole == rest.(said := said + rest.said)
    }

    /** One more input of the story. */
    method TakeOne(input: Input, ghost whole: Turn, ghost rest: Turn, ghost later: Turn, ghost said: seq<Said>,
                   ghost before: seq<Chunk>)
      returns (more: bool)
      requires Telling(whole, rest, said, before)
      requires var turn := TurnOf(input, fenceLost);
        rest == if turn.goes then later.(said := turn.said + later.said) else turn
      modifies this
      ensures Valid() && fenceLost == (old(fenceLost) || input.FenceLost?)
      ensures more == TurnOf(input, old(fenceLost)).goes
      ensures more ==> Telling(whole, later, said + TurnOf(input, old(fenceLost)).said, before)
      ensures !more ==> Did(whole, before, whole.goes)
    {
      hide ReadAll, Content, TurnOf, Valid;
      ghost var turn := TurnOf(input, fenceLost);
      more := Handle(input);
      assert said + (turn.said + later.said) == (said + turn.said) + later.said;
    }

    /** The loop over the inputs. */
    method Consume(inputs: seq<Input>)
      requires Open() && !persisted
      modifies this
      ensures Valid()
      ensures var story := Story(inputs, old(fenceLost)); Did(story, old(trace), story.goes)
    {
      hide ReadAll, Content, TurnOf, Story, Valid, Did;
      assert inputs[0..] == inputs;
      ghost var whole, said := Story(inputs, fenceLost), [];
      assert whole == whole.(said := [] + whole.said);
      var i, more := 0, true;
      while more && i < |inputs|
        invariant i <= |inputs| && Valid()
        invariant more ==> Telling(whole, Story(inputs[i..], fenceLost), said, old(trace))
        invariant !more ==> Did(whole, old(trace), whole.goes)
        decreases |inputs| - i
      {
        StoryAfter(inputs, i, fenceLost);
        ghost var rest := Story(inputs[i..], fenceLost);
        ghost var later := Story(inputs[i + 1..], fenceLost || inputs[i].FenceLost?);
        ghost var turn := TurnOf(inputs[i], fenceLost);
        more := TakeOne(inputs[i], whole, rest, later, said, old(trace));
        said, i := said + turn.said, i + 1;
      }
      if more {
        assert inputs[i..] == [];
        NoStory(fenceLost);
        AllTold(whole, said, old(trace));
      }
    }

    lemma AllTold(whole: Turn, said: seq<Said>, before: seq<Chunk>)
      requires Telling(whole, Turn([], true, None), said, before)
      ensures Did(whole, before, whole.goes)
    {
      hide ReadAll, Content;
    }

    /** The generator on any sequence of inputs, with its clean-up: the chunks are well formed, say what the
        inputs have to say and end as they end; no more tool executions finish than start, and a terminal
        status is stored at most once. */
    method Run(inputs: seq<Input>, stored: bool)
      requires Open() && !persisted
      modifies this
      ensures WellFormed(trace) && finished <= started && stores <= 1
      ensures stores == 0 ==> fenceLost || paused || !stored
      ensures var story := Story(inputs, old(fenceLost)); Did(story, old(trace), story.goes)
    {
      hide ReadAll, Content, Story;
      Consume(inputs);
      if !persisted && !fenceLost && !paused {
        var ok := PersistTerminal(stored);
      }
    }
  }
}
