/** Translating a request into Anthropic turns: system text apart, tool results as user content, and
    neighbouring messages of one role merged. */
module Anthropic {
  import opened Wrappers
  import opened Transcript

  datatype Block =
    | TextBlock(text: string) | Raw(raw: string)
    | ToolUse(id: Option<string>, name: string, input: string)
    | ToolResult(useId: Option<string>, content: Content)

  datatype Turn = Turn(role: Role, content: seq<Block>)

  datatype Request = Request(system: seq<Block>, turns: seq<Turn>)

  /** Reads the arguments of a call; `None` when they are not a JSON object. */
  type Parser = string -> Option<string>

  // ---------------------------------------------------------------- one message

  function Wrap(raw: seq<string>): (r: seq<Block>)
    ensures |r| == |raw| && forall i | 0 <= i < |r| :: r[i] == Raw(raw[i])
  {
    seq(|raw|, i requires 0 <= i < |raw| => Raw(raw[i]))
  }

  function ContentBlocks(content: Content): seq<Block> {
    match content
    case Absent => []
    case Text(s) => if s == "" then [] else [TextBlock(s)]
    case Blocks(raw, _) => Wrap(raw)
  }

  predicate Translatable(m: Message, parse: Parser) {
    && (m.role.Tool? ==> m.toolCallId.Some?)
    && (m.role.Assistant? ==> forall i | 0 <= i < |m.calls| :: m.calls[i].id.Some? && parse(m.calls[i].arguments).Some?)
  }

  function Uses(calls: seq<Call>, parse: Parser): (r: seq<Block>)
    ensures |r| == |calls| && forall i | 0 <= i < |r| :: r[i].ToolUse? && r[i].id == calls[i].id
  {
    seq(|calls|, i requires 0 <= i < |calls| =>
      var input := parse(calls[i].arguments);
      ToolUse(calls[i].id, calls[i].name, if input.Some? then input.value else ""))
  }

  function TurnRole(m: Message): Role {
    if m.role.Tool? then User else m.role
  }

  /** An empty result is sent as empty text. */
  function ResultContent(content: Content): Content {
    if content.Absent? || (content.Blocks? && content.raw == []) then Text("") else content
  }

  function TurnBlocks(m: Message, parse: Parser): seq<Block> {
    if m.role.Tool? then [ToolResult(m.toolCallId, ResultContent(m.content))]
    else if m.role.Assistant? then Wrap(m.reasoning) + ContentBlocks(m.content) + Uses(m.calls, parse)
    else ContentBlocks(m.content)
  }

  // ---------------------------------------------------------------- all messages

  function Append(turns: seq<Turn>, role: Role, blocks: seq<Block>): seq<Turn> {
    if turns != [] && turns[|turns| - 1].role == role
    then turns[..|turns| - 1] + [Turn(role, turns[|turns| - 1].content + blocks)]
    else turns + [Turn(role, blocks)]
  }

  function Add(turns: seq<Turn>, m: Message, parse: Parser): seq<Turn> {
    if IsInstruction(m) then turns else Append(turns, TurnRole(m), TurnBlocks(m, parse))
  }

  function Turns(turns: seq<Turn>, ms: seq<Message>, parse: Parser): seq<Turn> {
    if ms == [] then turns else Add(Turns(turns, ms[..|ms| - 1], parse), ms[|ms| - 1], parse)
  }

  function SystemBlocks(ms: seq<Message>): seq<Block> {
    if ms == [] then []
    else SystemBlocks(ms[..|ms| - 1])
         + (if IsInstruction(ms[|ms| - 1]) then ContentBlocks(ms[|ms| - 1].content) else [])
  }

  method BuildRequest(ms: seq<Message>, parse: Parser) returns (r: Option<Request>)
    ensures r.Some? <==> forall i | 0 <= i < |ms| :: IsInstruction(ms[i]) || Translatable(ms[i], parse)
    ensures r.Some? ==> r.value == Request(SystemBlocks(ms), Turns([], ms, parse))
  {
    hide Translatable, TurnBlocks, TurnRole, ContentBlocks, IsInstruction;
    var turns: seq<Turn> := [];
    var system: seq<Block> := [];
    for k := 0 to |ms|
      invariant forall i | 0 <= i < k :: IsInstruction(ms[i]) || Translatable(ms[i], parse)
      invariant turns == Turns([], ms[..k], parse) && system == SystemBlocks(ms[..k])
    {
      var m := ms[k];
      assert ms[..k + 1][..k] == ms[..k];
      if IsInstruction(m) {
        system := system + ContentBlocks(m.content);
        continue;
      }
      if !Translatable(m, parse) {
        return None;
      }
      var role, blocks := TurnRole(m), TurnBlocks(m, parse);
      if turns != [] && turns[|turns| - 1].role == role {
        turns := turns[|turns| - 1 := Turn(role, turns[|turns| - 1].content + blocks)];
      } else {
        turns := turns + [Turn(role, blocks)];
      }
    }
    assert ms[..|ms|] == ms;
    return Some(Request(system, turns));
  }

  // ---------------------------------------------------------------- alternation and conservation

  predicate Alternates(turns: seq<Turn>) {
    forall i | 0 < i < |turns| :: turns[i].role != turns[i - 1].role
  }

  lemma {:induction false} TurnsAlternate(turns: seq<Turn>, ms: seq<Message>, parse: Parser)
    requires Alternates(turns)
    ensures Alternates(Turns(turns, ms, parse))
  {
    if ms != [] {
      TurnsAlternate(turns, ms[..|ms| - 1], parse);
    }
  }

  /** Blocks in order, each with the role it is sent under. */
  function Tagged(role: Role, blocks: seq<Block>): (r: seq<(Role, Block)>)
    ensures |r| == |blocks| && forall i | 0 <= i < |r| :: r[i] == (role, blocks[i])
  {
    seq(|blocks|, i requires 0 <= i < |blocks| => (role, blocks[i]))
  }

  function Sent(turns: seq<Turn>): seq<(Role, Block)> {
    if turns == [] then []
    else Sent(turns[..|turns| - 1]) + Tagged(turns[|turns| - 1].role, turns[|turns| - 1].content)
  }

  function Given(ms: seq<Message>, parse: Parser): seq<(Role, Block)> {
    if ms == [] then []
    else Given(ms[..|ms| - 1], parse)
         + (if IsInstruction(ms[|ms| - 1]) then []
            else Tagged(TurnRole(ms[|ms| - 1]), TurnBlocks(ms[|ms| - 1], parse)))
  }

  lemma AppendSends(turns: seq<Turn>, role: Role, blocks: seq<Block>)
    ensures Sent(Append(turns, role, blocks)) == Sent(turns) + Tagged(role, blocks)
  {
    var out := Append(turns, role, blocks);
    if turns != [] && turns[|turns| - 1].role == role {
      var before := turns[..|turns| - 1];
      assert out[..|out| - 1] == before;
      assert Tagged(role, turns[|turns| - 1].content + blocks)
          == Tagged(role, turns[|turns| - 1].content) + Tagged(role, blocks);
    } else {
      assert out[..|out| - 1] == turns;
    }
  }

  /** Every block that is not system text is sent once, in order, under its role. */
  lemma {:induction false} BlocksAreConserved(ms: seq<Message>, parse: Parser)
    ensures Sent(Turns([], ms, parse)) == Given(ms, parse)
  {
    if ms != [] {
      var m := ms[|ms| - 1];
      BlocksAreConserved(ms[..|ms| - 1], parse);
      if !IsInstruction(m) {
        AppendSends(Turns([], ms[..|ms| - 1], parse), TurnRole(m), TurnBlocks(m, parse));
      }
    }
  }

  // ---------------------------------------------------------------- calls and their results

  function UseIds(blocks: seq<Block>): seq<Option<string>> {
    if blocks == [] then []
    else (if blocks[0].ToolUse? then [blocks[0].id] else []) + UseIds(blocks[1..])
  }

  function ResultIds(blocks: seq<Block>): seq<Option<string>> {
    if blocks == [] then []
    else (if blocks[0].ToolResult? then [blocks[0].useId] else []) + ResultIds(blocks[1..])
  }

  lemma FirstIds(block: Block, rest: seq<Block>)
    ensures UseIds([block] + rest) == (if block.ToolUse? then [block.id] else []) + UseIds(rest)
    ensures ResultIds([block] + rest) == (if block.ToolResult? then [block.useId] else []) + ResultIds(rest)
  {
    assert ([block] + rest)[1..] == rest;
  }

  lemma {:induction false} IdsConcat(a: seq<Block>, b: seq<Block>)
    ensures UseIds(a + b) == UseIds(a) + UseIds(b)
    ensures ResultIds(a + b) == ResultIds(a) + ResultIds(b)
    decreases |a|
  {
    if a == [] {
      NoIds();
      assert a + b == b;
    } else {
      IdsConcat(a[1..], b);
      hide UseIds, ResultIds;
      FirstIds(a[0], a[1..]);
      FirstIds(a[0], a[1..] + b);
      assert a == [a[0]] + a[1..] && a + b == [a[0]] + (a[1..] + b);
    }
  }

  predicate Plain(blocks: seq<Block>) {
    forall i | 0 <= i < |blocks| :: blocks[i].TextBlock? || blocks[i].Raw?
  }

  lemma {:induction false} PlainHasNoIds(blocks: seq<Block>)
    requires Plain(blocks)
    ensures UseIds(blocks) == [] && ResultIds(blocks) == []
  {
    if blocks != [] {
      PlainHasNoIds(blocks[1..]);
    }
  }

  predicate ResultsLead(blocks: seq<Block>) {
    forall i, j | 0 <= i < j < |blocks| :: blocks[j].ToolResult? ==> blocks[i].ToolResult?
  }

  /** Calls are made by the assistant and results given by the user, ahead of anything else. */
  predicate TurnSound(t: Turn) {
    && ResultsLead(t.content)
    && (UseIds(t.content) != [] ==> t.role.Assistant?) && (ResultIds(t.content) != [] ==> t.role.User?)
  }

  /** The results of a turn answer exactly the calls of the turn before it. */
  predicate Answers(turns: seq<Turn>, i: nat)
    requires i < |turns|
  {
    multiset(ResultIds(turns[i].content)) == multiset(if i == 0 then [] else UseIds(turns[i - 1].content))
  }

  predicate Matched(turns: seq<Turn>) {
    forall i | 0 <= i < |turns| :: TurnSound(turns[i]) && Answers(turns, i)
  }

  function OpenCalls(turns: seq<Turn>): seq<Option<string>> {
    if turns == [] then [] else UseIds(turns[|turns| - 1].content)
  }

  /** Every call is answered in the next turn, and there are no other results. */
  predicate Paired(turns: seq<Turn>) {
    Matched(turns) && OpenCalls(turns) == []
  }

  /** Text and calls leave what came before untouched; calls are then open. */
  lemma AppendKeepsMatched(turns: seq<Turn>, role: Role, plain: seq<Block>, uses: seq<Block>)
    requires Paired(turns) && Plain(plain) && (forall i | 0 <= i < |uses| :: uses[i].ToolUse?)
    requires uses != [] ==> role.Assistant?
    ensures var out := Append(turns, role, plain + uses);
      Matched(out) && OpenCalls(out) == UseIds(uses) && out[|out| - 1].role == role
  {
    hide UseIds, ResultIds, TurnSound, Matched, Plain;
    NoIds();
    if turns != [] && turns[|turns| - 1].role == role {
      var n := |turns| - 1;
      LastIsSound(turns);
      AppendedTurn(turns[n], plain, uses, true);
      ReplaceLast(turns, Turn(role, turns[n].content + (plain + uses)));
    } else {
      AppendedTurn(Turn(role, []), plain, uses, false);
      assert [] + (plain + uses) == plain + uses;
      AddLast(turns, Turn(role, plain + uses));
    }
  }

  lemma LastIsSound(turns: seq<Turn>)
    requires turns != [] && Matched(turns)
    ensures TurnSound(turns[|turns| - 1])
  {
  }

  lemma NoIds()
    ensures UseIds([]) == [] && ResultIds([]) == []
  {
  }

  lemma ReplaceLast(turns: seq<Turn>, t: Turn)
    requires turns != [] && Matched(turns) && TurnSound(t)
    requires ResultIds(t.content) == ResultIds(turns[|turns| - 1].content)
    ensures Matched(turns[..|turns| - 1] + [t])
  {
    hide UseIds, ResultIds, TurnSound, Answers;
    var out := turns[..|turns| - 1] + [t];
    forall i | 0 <= i < |out|
      ensures TurnSound(out[i]) && Answers(out, i)
    {
      assert TurnSound(turns[i]) && Answers(turns, i);
      SameAnswers(turns, out, i);
    }
  }

  lemma SameAnswers(turns: seq<Turn>, out: seq<Turn>, i: nat)
    requires i < |turns| && i < |out| && Answers(turns, i) && (i > 0 ==> out[i - 1] == turns[i - 1])
    requires ResultIds(out[i].content) == ResultIds(turns[i].content)
    ensures Answers(out, i)
  {
    hide UseIds, ResultIds;
  }

  lemma AddLast(turns: seq<Turn>, t: Turn)
    requires Matched(turns) && TurnSound(t) && multiset(ResultIds(t.content)) == multiset(OpenCalls(turns))
    ensures Matched(turns + [t])
  {
    hide UseIds, ResultIds, TurnSound, Answers;
    var out := turns + [t];
    forall i | 0 <= i < |out|
      ensures TurnSound(out[i]) && Answers(out, i)
    {
      if i < |turns| {
        assert TurnSound(turns[i]) && Answers(turns, i);
        SameAnswers(turns, out, i);
      } else {
        LastAnswers(turns, t);
      }
    }
  }

  lemma LastAnswers(turns: seq<Turn>, t: Turn)
    requires multiset(ResultIds(t.content)) == multiset(OpenCalls(turns))
    ensures Answers(turns + [t], |turns|)
  {
    hide UseIds, ResultIds;
  }

  lemma AppendedTurn(t: Turn, plain: seq<Block>, uses: seq<Block>, merged: bool)
    requires Plain(plain) && (forall i | 0 <= i < |uses| :: uses[i].ToolUse?)
    requires uses != [] ==> t.role.Assistant?
    requires if merged then TurnSound(t) && UseIds(t.content) == [] else t.content == []
    ensures TurnSound(Turn(t.role, t.content + (plain + uses)))
    ensures ResultIds(t.content + (plain + uses)) == ResultIds(t.content)
    ensures UseIds(t.content + (plain + uses)) == UseIds(uses)
  {
    hide UseIds, ResultIds, Plain, ResultsLead;
    NoIds();
    IdsConcat(t.content, plain + uses);
    IdsConcat(plain, uses);
    PlainHasNoIds(plain);
    NoResultsInUses(uses);
    ResultsStillLead(t.content, plain, uses, merged);
  }

  lemma ResultsStillLead(content: seq<Block>, plain: seq<Block>, uses: seq<Block>, merged: bool)
    requires Plain(plain) && (forall i | 0 <= i < |uses| :: uses[i].ToolUse?)
    requires if merged then ResultsLead(content) else content == []
    ensures ResultsLead(content + (plain + uses))
  {
    var all := content + (plain + uses);
    assert forall j | |content| <= j < |all| :: !all[j].ToolResult?;
  }

  lemma {:induction false} NoResultsInUses(uses: seq<Block>)
    requires forall i | 0 <= i < |uses| :: uses[i].ToolUse?
    ensures ResultIds(uses) == []
  {
    if uses != [] {
      NoResultsInUses(uses[1..]);
    }
  }

  // ---------------------------------------------------------------- whole exchanges

  lemma {:induction false} TurnsConcat(turns: seq<Turn>, a: seq<Message>, b: seq<Message>, parse: Parser)
    ensures Turns(turns, a + b, parse) == Turns(Turns(turns, a, parse), b, parse)
    decreases |b|
  {
    if b == [] {
      assert a + b == a;
    } else {
      assert (a + b)[..|a + b| - 1] == a + b[..|b| - 1];
      TurnsConcat(turns, a, b[..|b| - 1], parse);
    }
  }

  function Results(ms: seq<Message>): (r: seq<Block>)
    ensures |r| == |ms|
    ensures forall i | 0 <= i < |r| :: r[i] == ToolResult(ms[i].toolCallId, ResultContent(ms[i].content))
  {
    seq(|ms|, i requires 0 <= i < |ms| => ToolResult(ms[i].toolCallId, ResultContent(ms[i].content)))
  }

  /** The results of an exchange are gathered in one user turn. */
  lemma {:induction false} ResultsShareATurn(turns: seq<Turn>, ms: seq<Message>, parse: Parser)
    requires turns != [] && !turns[|turns| - 1].role.User? && ms != []
    requires forall i | 0 <= i < |ms| :: ms[i].role.Tool?
    ensures Turns(turns, ms, parse) == turns + [Turn(User, Results(ms))]
    decreases |ms|
  {
    hide Append, Results;
    var n := |ms| - 1;
    var last := ToolResult(ms[n].toolCallId, ResultContent(ms[n].content));
    assert Results(ms) == Results(ms[..n]) + [last];
    if n == 0 {
      assert Turns(turns, ms[..0], parse) == turns && Results(ms) == [last];
      FirstResult(turns, last);
    } else {
      ResultsShareATurn(turns, ms[..n], parse);
      NextResult(turns, Results(ms[..n]), last);
    }
  }

  lemma FirstResult(turns: seq<Turn>, block: Block)
    requires turns != [] && !turns[|turns| - 1].role.User?
    ensures Append(turns, User, [block]) == turns + [Turn(User, [block])]
  {
  }

  lemma NextResult(turns: seq<Turn>, blocks: seq<Block>, block: Block)
    ensures Append(turns + [Turn(User, blocks)], User, [block]) == turns + [Turn(User, blocks + [block])]
  {
    var before := turns + [Turn(User, blocks)];
    assert before[..|before| - 1] == turns;
  }

  function ResultIdsOf(ms: seq<Message>): (r: seq<Option<string>>)
    ensures |r| == |ms| && forall i | 0 <= i < |r| :: r[i] == ms[i].toolCallId
  {
    seq(|ms|, i requires 0 <= i < |ms| => ms[i].toolCallId)
  }

  lemma {:induction false} IdsOfResults(ms: seq<Message>)
    ensures ResultIds(Results(ms)) == ResultIdsOf(ms) && UseIds(Results(ms)) == []
  {
    if ms != [] {
      IdsOfResults(ms[1..]);
      assert Results(ms)[1..] == Results(ms[1..]);
      assert ResultIdsOf(ms) == [ms[0].toolCallId] + ResultIdsOf(ms[1..]);
    }
  }

  lemma {:induction false} IdsOfUses(calls: seq<Call>, parse: Parser)
    ensures UseIds(Uses(calls, parse)) == CallIds(calls)
  {
    if calls != [] {
      IdsOfUses(calls[1..], parse);
      assert Uses(calls, parse)[1..] == Uses(calls[1..], parse);
      assert CallIds(calls) == [calls[0].id] + CallIds(calls[1..]);
    }
  }

  lemma {:induction false} CountInDistinct(s: seq<Option<string>>, x: Option<string>)
    requires Distinct(s)
    ensures multiset(s)[x] == if x in s then 1 else 0
  {
    if s != [] {
      CountInDistinct(s[1..], x);
      assert s == [s[0]] + s[1..];
    }
  }

  /** Two duplicate-free lists of one length, one inside the other, hold the same ids. */
  lemma SameIds(a: seq<Option<string>>, b: seq<Option<string>>)
    requires |a| == |b| && Distinct(a) && Distinct(b) && forall i | 0 <= i < |a| :: a[i] in b
    ensures multiset(a) == multiset(b)
  {
    SizesAgree(a);
    SizesAgree(b);
    var left, right := IdSet(a), IdSet(b);
    assert left <= right && right == left + (right - left);
    assert |right - left| == 0;
    forall x: Option<string>
      ensures multiset(a)[x] == multiset(b)[x]
    {
      CountInDistinct(a, x);
      CountInDistinct(b, x);
      assert x in left <==> x in right;
    }
  }

  lemma ExchangeIds(c: seq<Message>)
    requires Exchange(c)
    ensures |c| >= 2 && c[0].role.Assistant? && c[0].calls != []
    ensures forall i | 0 <= i < |c[1..]| :: c[1..][i].role.Tool?
    ensures multiset(ResultIdsOf(c[1..])) == multiset(CallIds(c[0].calls))
  {
    var rest, ids := c[1..], ResultIdsOf(c[1..]);
    assert forall i | 0 <= i < |rest| :: rest[i] == c[i + 1];
    assert forall i | 0 <= i < |ids| :: ids[i] == c[i + 1].toolCallId;
    SameIds(ids, CallIds(c[0].calls));
  }

  lemma CallsAreOpen(turns: seq<Turn>, m: Message, parse: Parser)
    requires Paired(turns) && m.role.Assistant?
    ensures var out := Turns(turns, [m], parse);
      out != [] && Matched(out) && OpenCalls(out) == CallIds(m.calls) && out[|out| - 1].role == Assistant
  {
    hide UseIds, ResultIds, Paired, Matched, Uses, ContentBlocks, Wrap;
    var plain, uses := Wrap(m.reasoning) + ContentBlocks(m.content), Uses(m.calls, parse);
    PlainContent(m);
    AppendKeepsMatched(turns, Assistant, plain, uses);
    OneTurn(turns, m, parse);
    IdsOfUses(m.calls, parse);
  }

  lemma ExchangeIsPaired(turns: seq<Turn>, c: seq<Message>, parse: Parser)
    requires Paired(turns) && Exchange(c)
    ensures Paired(Turns(turns, c, parse))
  {
    hide UseIds, ResultIds, Matched, Turns, Exchange, Results, ResultIdsOf, CallIds, Answers;
    ExchangeIds(c);
    var rest := c[1..];
    assert c == [c[0]] + rest;
    TurnsConcat(turns, [c[0]], rest, parse);
    CallsAreOpen(turns, c[0], parse);
    var asked := Turns(turns, [c[0]], parse);
    ResultsShareATurn(asked, rest, parse);
    IdsOfResults(rest);
    AddLast(asked, Turn(User, Results(rest)));
  }

  lemma PlainContent(m: Message)
    ensures Plain(Wrap(m.reasoning) + ContentBlocks(m.content)) && Plain(ContentBlocks(m.content))
  {
  }

  lemma OneTurn(turns: seq<Turn>, m: Message, parse: Parser)
    ensures Turns(turns, [m], parse) == Add(turns, m, parse)
  {
    assert [m][..0] == [] && Turns(turns, [], parse) == turns;
  }

  lemma LoneIsPaired(turns: seq<Turn>, m: Message, parse: Parser)
    requires Paired(turns) && Lone([m])
    ensures Paired(Turns(turns, [m], parse))
  {
    hide ResultIds, Matched, Append, Wrap, ContentBlocks;
    OneTurn(turns, m, parse);
    PlainContent(m);
    var plain := if m.role.Assistant? then Wrap(m.reasoning) + ContentBlocks(m.content) else ContentBlocks(m.content);
    assert [m][0] == m && plain + [] == plain;
    if !IsInstruction(m) {
      AppendKeepsMatched(turns, m.role, plain, []);
      assert Uses(m.calls, parse) == [];
      assert TurnBlocks(m, parse) == plain;
    }
  }

  /** For every list the scanner accepts, each assistant turn with calls is followed by a user turn that
      begins with exactly the results of those calls, and no other turn holds results. */
  lemma {:induction false} ToolCallsArePaired(turns: seq<Turn>, ms: seq<Message>, parse: Parser)
    requires Paired(turns) && Accepted(ms)
    ensures Paired(Turns(turns, ms, parse))
    decreases |ms|
  {
    hide Paired, Exchange, Accepted;
    if ms != [] {
      AcceptedUnfolds(ms, 0);
      var n := Head(ms);
      var c, rest := ms[..n], ms[n..];
      assert ms == c + rest;
      TurnsConcat(turns, c, rest, parse);
      if Exchange(c) {
        ExchangeIsPaired(turns, c, parse);
      } else {
        assert c == [c[0]];
        LoneIsPaired(turns, c[0], parse);
      }
      ToolCallsArePaired(Turns(turns, c, parse), rest, parse);
    }
  }

  /** The whole translation of an accepted request. */
  lemma TranslationIsSound(ms: seq<Message>, parse: Parser)
    requires Accepted(ms)
    ensures Alternates(Turns([], ms, parse)) && Paired(Turns([], ms, parse))
    ensures Sent(Turns([], ms, parse)) == Given(ms, parse)
  {
    TurnsAlternate([], ms, parse);
    ToolCallsArePaired([], ms, parse);
    BlocksAreConserved(ms, parse);
  }
}
