/** The message list sent to a model, and the tool exchanges it must be made of. */
module Transcript {
  import opened Wrappers

  datatype Role = System | Developer | User | Assistant | Tool | OtherRole(name: string)

  /** Content is text or a list of blocks, none of them a tool call or result. */
  datatype Content = Absent | Text(text: string) | Blocks(raw: seq<string>, encoded: nat)

  datatype Call = Call(id: Option<string>, name: string, arguments: string)

  /** `reasoning` are the reasoning blocks an assistant message carries; `envelope` is the encoded
      length of the message without its content. */
  datatype Message = Message(
    role: Role, content: Content, calls: seq<Call>, toolCallId: Option<string>,
    reasoning: seq<string>, envelope: nat)

  predicate IsInstruction(m: Message) {
    m.role.System? || m.role.Developer?
  }

  datatype Span = Span(lo: nat, hi: nat)

  function CallIds(calls: seq<Call>): (r: seq<Option<string>>)
    ensures |r| == |calls| && forall i | 0 <= i < |r| :: r[i] == calls[i].id
  {
    seq(|calls|, i requires 0 <= i < |calls| => calls[i].id)
  }

  predicate Distinct(ids: seq<Option<string>>) {
    forall i, j | 0 <= i < j < |ids| :: ids[i] != ids[j]
  }

  // ---------------------------------------------------------------- whole exchanges

  predicate Lone(c: seq<Message>) {
    |c| == 1 && !c[0].role.Tool? && c[0].calls == []
  }

  /** An assistant message with calls, followed by exactly one result for each of them. */
  predicate Exchange(c: seq<Message>) {
    && |c| >= 2 && c[0].role.Assistant? && |c| == |c[0].calls| + 1
    && None !in CallIds(c[0].calls) && Distinct(CallIds(c[0].calls))
    && (forall k | 1 <= k < |c| :: c[k].role.Tool? && c[k].toolCallId in CallIds(c[0].calls))
    && (forall j, k | 1 <= j < k < |c| :: c[j].toolCallId != c[k].toolCallId)
  }

  function Head(ms: seq<Message>): nat
    requires ms != []
  {
    |ms[0].calls| + 1
  }

  /** The list is a succession of lone messages and complete exchanges. */
  predicate Accepted(ms: seq<Message>)
    decreases |ms|
  {
    ms == []
    || (Head(ms) <= |ms| && (Lone(ms[..Head(ms)]) || Exchange(ms[..Head(ms)])) && Accepted(ms[Head(ms)..]))
  }

  function Spans(ms: seq<Message>, off: nat := 0): (gs: seq<Span>)
    requires Accepted(ms)
    ensures forall g | g in gs :: off <= g.lo < g.hi <= off + |ms|
    decreases |ms|
  {
    if ms == [] then []
    else [Span(off, off + Head(ms))] + Spans(ms[Head(ms)..], off + Head(ms))
  }

  lemma AcceptedUnfolds(ms: seq<Message>, off: nat)
    requires ms != []
    ensures Accepted(ms) <==>
      && Head(ms) <= |ms| && (Lone(ms[..Head(ms)]) || Exchange(ms[..Head(ms)])) && Accepted(ms[Head(ms)..])
    ensures Accepted(ms) ==>
      Spans(ms, off) == [Span(off, off + Head(ms))] + Spans(ms[Head(ms)..], off + Head(ms))
  {
  }

  /** Two lists join into an accepted one exactly when each is accepted, if the second does not begin with
      a stray result. */
  lemma {:induction false} AcceptedConcat(a: seq<Message>, b: seq<Message>)
    requires b == [] || !b[0].role.Tool?
    ensures Accepted(a + b) <==> Accepted(a) && Accepted(b)
    decreases |a|
  {
    hide Accepted, Spans, Lone, Exchange;
    var ms := a + b;
    if a == [] {
      assert ms == b;
      AcceptedEmpty();
    } else {
      var n := Head(a);
      AcceptedUnfolds(a, 0);
      AcceptedUnfolds(ms, 0);
      if n <= |a| {
        assert ms[..n] == a[..n] && ms[n..] == a[n..] + b;
        AcceptedConcat(a[n..], b);
      } else if n <= |ms| {
        NotAChunk(ms[..n], |a|);
      }
    }
  }

  lemma NotAChunk(c: seq<Message>, k: nat)
    requires 0 < k < |c| && !c[k].role.Tool?
    ensures !Lone(c) && !Exchange(c)
  {
  }

  lemma PrependChunk(c: seq<Message>, rest: seq<Message>)
    requires Lone(c) || Exchange(c)
    ensures Accepted(c + rest) <==> Accepted(rest)
  {
    var ms := c + rest;
    assert Head(ms) == |c| && ms[..|c|] == c && ms[|c|..] == rest;
  }

  lemma AcceptedEmpty()
    ensures Accepted([])
  {
  }

  /** The group at span `g` of a list that starts at position `off`. */
  function Slice(ms: seq<Message>, off: nat, g: Span): seq<Message>
    requires off <= g.lo <= g.hi <= off + |ms|
  {
    ms[g.lo - off..g.hi - off]
  }

  lemma {:induction false} SpanIsChunk(ms: seq<Message>, off: nat, g: Span)
    requires Accepted(ms) && g in Spans(ms, off)
    ensures Lone(Slice(ms, off, g)) || Exchange(Slice(ms, off, g))
    decreases |ms|
  {
    hide Lone, Exchange, Accepted, Spans;
    FirstSpan(ms, off, g);
    var n := Head(ms);
    if g == Span(off, off + n) {
      AcceptedUnfolds(ms, off);
      assert Slice(ms, off, g) == ms[..n];
    } else {
      SpanIsChunk(ms[n..], off + n, g);
      assert Slice(ms[n..], off + n, g) == Slice(ms, off, g);
    }
  }

  lemma {:induction false} SpansDisjoint(ms: seq<Message>, off: nat, g: Span, h: Span, i: nat)
    requires Accepted(ms) && g in Spans(ms, off) && h in Spans(ms, off)
    requires g.lo <= i < g.hi && h.lo <= i < h.hi
    ensures g == h
    decreases |ms|
  {
    hide Accepted, Spans;
    FirstSpan(ms, off, g);
    FirstSpan(ms, off, h);
    if off + Head(ms) <= i {
      SpansDisjoint(ms[Head(ms)..], off + Head(ms), g, h, i);
    }
  }

  lemma FirstSpan(ms: seq<Message>, off: nat, g: Span)
    requires Accepted(ms) && g in Spans(ms, off)
    ensures 0 < Head(ms) <= |ms| && Accepted(ms[Head(ms)..])
    ensures g == Span(off, off + Head(ms)) || (g in Spans(ms[Head(ms)..], off + Head(ms)) && off + Head(ms) <= g.lo)
  {
    hide Lone, Exchange;
    var n := Head(ms);
    assert Spans(ms, off) == [Span(off, off + n)] + Spans(ms[n..], off + n);
  }

  // ---------------------------------------------------------------- the scanner

  /** The results read so far answer distinct calls of the message at `lo`; `pending` are the others. */
  ghost predicate Answered(ms: seq<Message>, lo: nat, index: nat, pending: set<Option<string>>) {
    && lo < index <= |ms| && None !in CallIds(ms[lo].calls) && Distinct(CallIds(ms[lo].calls))
    && (forall k | lo < k < index :: ms[k].role.Tool? && ms[k].toolCallId in CallIds(ms[lo].calls))
    && (forall j, k | lo < j < k < index :: ms[j].toolCallId != ms[k].toolCallId)
    && (forall id :: id in pending <==> Unanswered(ms, lo, index, id))
    && |pending| + (index - lo - 1) == |ms[lo].calls|
  }

  /** A call of the message at `lo` without a result so far. */
  predicate Unanswered(ms: seq<Message>, lo: nat, index: nat, id: Option<string>)
    requires lo < index <= |ms|
  {
    id in CallIds(ms[lo].calls) && forall k | lo < k < index :: ms[k].toolCallId != id
  }

  function IdSet(ids: seq<Option<string>>): (r: set<Option<string>>)
    ensures forall id :: id in r <==> id in ids
  {
    set id | id in ids
  }

  /** Comparing the sizes of the list and of its set detects a repeated id. */
  lemma {:induction false} SizesAgree(ids: seq<Option<string>>)
    ensures |IdSet(ids)| <= |ids|
    ensures |IdSet(ids)| == |ids| <==> Distinct(ids)
  {
    if ids != [] {
      var n := |ids| - 1;
      var rest := ids[..n];
      SizesAgree(rest);
      assert ids == rest + [ids[n]];
      assert IdSet(ids) == IdSet(rest) + {ids[n]};
      if ids[n] in rest {
        assert IdSet(ids) == IdSet(rest);
        var k :| 0 <= k < n && rest[k] == ids[n];
        assert ids[k] == ids[n];
      }
    }
  }

  /** A tool message never begins a group. */
  lemma ToolIsRefused(ms: seq<Message>)
    requires ms != [] && ms[0].role.Tool?
    ensures !Accepted(ms)
  {
  }

  lemma BadCallsRefused(ms: seq<Message>)
    requires ms != [] && ms[0].calls != []
    requires !ms[0].role.Assistant? || None in CallIds(ms[0].calls) || !Distinct(CallIds(ms[0].calls))
    ensures !Accepted(ms)
  {
  }

  /** A result that answers no pending call is refused. */
  lemma StrayResultRefused(ms: seq<Message>, lo: nat, index: nat, pending: set<Option<string>>)
    requires Answered(ms, lo, index, pending) && ms[lo].calls != [] && index < |ms|
    requires ms[index].role.Tool? && ms[index].toolCallId !in pending
    ensures !Accepted(ms[lo..])
  {
    var rest := ms[lo..];
    var n := Head(rest);
    if index - lo < n {
      if n <= |rest| {
        var c := rest[..n];
        assert c[index - lo] == ms[index] && forall k | lo < k < index :: c[k - lo] == ms[k];
        assert !Exchange(c);
      }
    } else {
      assert index - lo == n && rest[n..] == ms[index..];
      ToolIsRefused(ms[index..]);
    }
  }

  /** An exchange with a call left unanswered is refused. */
  lemma UnansweredRefused(ms: seq<Message>, lo: nat, index: nat, pending: set<Option<string>>)
    requires Answered(ms, lo, index, pending) && ms[lo].calls != [] && pending != {}
    requires index == |ms| || !ms[index].role.Tool?
    ensures !Accepted(ms[lo..])
  {
    var rest := ms[lo..];
    var n := Head(rest);
    assert |pending| > 0;
    if n <= |rest| {
      assert rest[..n][index - lo] == ms[index];
      assert !Exchange(rest[..n]);
    }
  }

  lemma AnsweredIsExchange(ms: seq<Message>, lo: nat, index: nat)
    requires Answered(ms, lo, index, {}) && ms[lo].calls != [] && ms[lo].role.Assistant?
    ensures index - lo == |ms[lo].calls| + 1 && Exchange(ms[lo..index])
  {
    var c := ms[lo..index];
    assert forall k | 0 <= k < |c| :: c[k] == ms[lo + k];
  }

  lemma CompleteIsExchange(ms: seq<Message>, lo: nat, index: nat)
    requires lo < index <= |ms| && Answered(ms, lo, index, {}) && ms[lo].calls != [] && ms[lo].role.Assistant?
    ensures Accepted(ms[lo..]) <==> Accepted(ms[index..])
    ensures Accepted(ms[lo..]) ==> Spans(ms[lo..], lo) == [Span(lo, index)] + Spans(ms[index..], index)
  {
    hide Answered, Exchange, Lone, Accepted, Spans;
    AnsweredIsExchange(ms, lo, index);
    assert ms[lo..][..index - lo] == ms[lo..index] && ms[lo..][index - lo..] == ms[index..];
    AcceptedUnfolds(ms[lo..], lo);
  }

  lemma LoneIsGroup(ms: seq<Message>, lo: nat)
    requires lo < |ms| && !ms[lo].role.Tool? && ms[lo].calls == []
    ensures Accepted(ms[lo..]) <==> Accepted(ms[lo + 1..])
    ensures Accepted(ms[lo..]) ==> Spans(ms[lo..], lo) == [Span(lo, lo + 1)] + Spans(ms[lo + 1..], lo + 1)
  {
    assert Lone(ms[lo..][..1]) && ms[lo..][1..] == ms[lo + 1..];
  }

  /** Reading one more result of a pending call. */
  lemma AnswerOne(ms: seq<Message>, lo: nat, index: nat, pending: set<Option<string>>)
    requires Answered(ms, lo, index, pending) && index < |ms|
    requires ms[index].role.Tool? && ms[index].toolCallId in pending
    ensures Answered(ms, lo, index + 1, pending - {ms[index].toolCallId})
  {
    hide Distinct;
    var rest := pending - {ms[index].toolCallId};
    assert Unanswered(ms, lo, index, ms[index].toolCallId) && |rest| == |pending| - 1;
    forall id: Option<string>
      ensures id in rest <==> Unanswered(ms, lo, index + 1, id)
    {
      assert Unanswered(ms, lo, index + 1, id) <==> Unanswered(ms, lo, index, id) && id != ms[index].toolCallId;
    }
  }

  lemma NothingAnswered(ms: seq<Message>, lo: nat)
    requires lo < |ms|
    ensures var ids := CallIds(ms[lo].calls);
      None !in ids && Distinct(ids) && |IdSet(ids)| == |ids| ==> Answered(ms, lo, lo + 1, IdSet(ids))
  {
  }

  lemma Finished(ms: seq<Message>)
    ensures Accepted(ms[|ms|..]) && Spans(ms[|ms|..], |ms|) == []
  {
  }

  /** Group each assistant call with all of its results, or refuse the list. */
  method Groups(ms: seq<Message>) returns (r: Option<seq<Span>>)
    ensures r == if Accepted(ms) then Some(Spans(ms)) else None
  {
    hide Accepted, Answered, Distinct, Exchange, Lone, Spans;
    var groups: seq<Span> := [];
    var index := 0;
    assert ms[0..] == ms;
    while index < |ms|
      invariant index <= |ms| && (Accepted(ms) <==> Accepted(ms[index..]))
      invariant Accepted(ms) ==> Spans(ms) == groups + Spans(ms[index..], index)
    {
      var lo, message := index, ms[index];
      if message.role.Tool? {
        ToolIsRefused(ms[lo..]);
        return None;
      }
      index := index + 1;
      if message.calls != [] {
        var pending := IdSet(CallIds(message.calls));
        SizesAgree(CallIds(message.calls));
        NothingAnswered(ms, lo);
        if !message.role.Assistant? || None in pending || |pending| != |message.calls| {
          BadCallsRefused(ms[lo..]);
          return None;
        }
        while index < |ms| && ms[index].role.Tool?
          invariant lo < index <= |ms| && Answered(ms, lo, index, pending)
        {
          if ms[index].toolCallId !in pending {
            StrayResultRefused(ms, lo, index, pending);
            return None;
          }
          AnswerOne(ms, lo, index, pending);
          pending := pending - {ms[index].toolCallId};
          index := index + 1;
        }
        if pending != {} {
          UnansweredRefused(ms, lo, index, pending);
          return None;
        }
        assert pending == {};
        CompleteIsExchange(ms, lo, index);
      } else {
        LoneIsGroup(ms, lo);
      }
      groups := groups + [Span(lo, index)];
    }
    Finished(ms);
    assert index == |ms| && groups + [] == groups;
    return Some(groups);
  }
}
