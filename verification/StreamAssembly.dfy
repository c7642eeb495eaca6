/** Assembling the tool calls and the reasoning of a streamed response from its chunks. */
module StreamAssembly {
  import opened Wrappers

  /** A fragment of the call at `index`; a missing id, name or argument text is empty. */
  datatype Piece = Piece(index: nat, id: string, name: string, arguments: string)

  datatype Chunk = Chunk(reasoning: string, content: string, pieces: seq<Piece>)

  datatype Event = Reasoning(content: string) | Token(content: string)

  datatype Entry = Entry(id: string, name: string, arguments: string)

  /** A finished call; `input` is the decoded argument object. */
  datatype ToolCall = ToolCall(id: string, name: string, input: string)

  const BLANK := Entry("", "", "")
  const NO_ARGUMENTS := "{}"

  function Merge(e: Entry, p: Piece): Entry {
    Entry(if p.id != "" then p.id else e.id, if p.name != "" then p.name else e.name, e.arguments + p.arguments)
  }

  function Absorb(calls: map<nat, Entry>, pieces: seq<Piece>): map<nat, Entry> {
    if pieces == [] then calls
    else
      AbsorbPiece(Absorb(calls, pieces[..|pieces| - 1]), pieces[|pieces| - 1])
  }

  function AbsorbPiece(calls: map<nat, Entry>, p: Piece): map<nat, Entry> {
    calls[p.index := Merge(if p.index in calls then calls[p.index] else BLANK, p)]
  }

  // ---------------------------------------------------------------- one call at a time

  /** The fragments of one call, in the order they arrived. */
  function Project(pieces: seq<Piece>, index: nat): seq<Piece> {
    if pieces == [] then []
    else Project(pieces[..|pieces| - 1], index)
         + (if pieces[|pieces| - 1].index == index then [pieces[|pieces| - 1]] else [])
  }

  function Assemble(pieces: seq<Piece>): Entry {
    if pieces == [] then BLANK else Merge(Assemble(pieces[..|pieces| - 1]), pieces[|pieces| - 1])
  }

  /** Each call is assembled from its own fragments, whatever was interleaved with them. */
  lemma {:induction false} CallsAreProjections(pieces: seq<Piece>, index: nat)
    ensures index in Absorb(map[], pieces) <==> Project(pieces, index) != []
    ensures index in Absorb(map[], pieces) ==> Absorb(map[], pieces)[index] == Assemble(Project(pieces, index))
  {
    if pieces != [] {
      var n := |pieces| - 1;
      CallsAreProjections(pieces[..n], index);
      var own := Project(pieces[..n], index);
      assert (own + [pieces[n]])[..|own|] == own;
      assert own + [] == own && Assemble([]) == BLANK;
    }
  }

  ghost predicate SameFragments(a: seq<Piece>, b: seq<Piece>) {
    forall index: nat :: && (Project(a, index) == [] <==> Project(b, index) == [])
                    && Assemble(Project(a, index)) == Assemble(Project(b, index))
  }

  /** Streams that agree call by call give the same calls. */
  lemma InterleavingIsIrrelevant(a: seq<Piece>, b: seq<Piece>)
    requires SameFragments(a, b)
    ensures Absorb(map[], a) == Absorb(map[], b)
  {
    var x, y := Absorb(map[], a), Absorb(map[], b);
    forall index: nat
      ensures index in x <==> index in y
      ensures index in x ==> x[index] == y[index]
    {
      CallsAreProjections(a, index);
      CallsAreProjections(b, index);
    }
  }

  lemma {:induction false} ProjectConcat(a: seq<Piece>, b: seq<Piece>, index: nat)
    ensures Project(a + b, index) == Project(a, index) + Project(b, index)
    decreases |b|
  {
    if b == [] {
      assert a + b == a;
    } else {
      var n := |b| - 1;
      assert (a + b)[..|a| + n] == a + b[..n];
      ProjectConcat(a, b[..n], index);
    }
  }

  /** Fragments of different calls may arrive in either order. */
  lemma SwapIsIrrelevant(a: seq<Piece>, p: Piece, q: Piece, b: seq<Piece>)
    requires p.index != q.index
    ensures Absorb(map[], a + [p, q] + b) == Absorb(map[], a + [q, p] + b)
  {
    hide Project, Absorb;
    forall index: nat
      ensures Project(a + [p, q] + b, index) == Project(a + [q, p] + b, index)
    {
      SwapKeepsProjection(a, p, q, b, index);
    }
    InterleavingIsIrrelevant(a + [p, q] + b, a + [q, p] + b);
  }

  lemma SwapKeepsProjection(a: seq<Piece>, p: Piece, q: Piece, b: seq<Piece>, index: nat)
    requires p.index != q.index
    ensures Project(a + [p, q] + b, index) == Project(a + [q, p] + b, index)
  {
    hide Project;
    ProjectConcat(a + [p, q], b, index);
    ProjectConcat(a + [q, p], b, index);
    ProjectConcat(a, [p, q], index);
    ProjectConcat(a, [q, p], index);
    ProjectPair(p, q, index);
    ProjectPair(q, p, index);
  }

  lemma ProjectPair(p: Piece, q: Piece, index: nat)
    ensures Project([p, q], index) ==
      (if p.index == index then [p] else []) + (if q.index == index then [q] else [])
  {
    assert [p, q][..1] == [p] && [p][..0] == [];
    assert Project([p], index) == if p.index == index then [p] else [];
  }

  /** `q` continues `p`: the rest of its argument text, repeating neither id nor name. */
  predicate Continues(p: Piece, q: Piece) {
    q.index == p.index && q.id == "" && q.name == ""
  }

  /** Cutting the argument text of a fragment anywhere changes nothing, even when fragments of other
      calls arrive in between. */
  lemma SplittingIsIrrelevant(a: seq<Piece>, p: Piece, between: seq<Piece>, q: Piece, b: seq<Piece>)
    requires Continues(p, q) && Project(between, p.index) == []
    ensures Absorb(map[], a + [p] + between + [q] + b)
         == Absorb(map[], a + [p.(arguments := p.arguments + q.arguments)] + between + b)
  {
    var whole := p.(arguments := p.arguments + q.arguments);
    var left, right := a + [p] + between + [q] + b, a + [whole] + between + b;
    forall index: nat
      ensures Project(left, index) == [] <==> Project(right, index) == []
      ensures Assemble(Project(left, index)) == Assemble(Project(right, index))
    {
      SplitAt(a, p, between, q, b, index);
    }
    InterleavingIsIrrelevant(left, right);
  }

  lemma SplitAt(a: seq<Piece>, p: Piece, between: seq<Piece>, q: Piece, b: seq<Piece>, index: nat)
    requires Continues(p, q) && Project(between, p.index) == []
    ensures var left := a + [p] + between + [q] + b;
      var right := a + [p.(arguments := p.arguments + q.arguments)] + between + b;
      && (Project(left, index) == [] <==> Project(right, index) == [])
      && Assemble(Project(left, index)) == Assemble(Project(right, index))
  {
    hide Project, Assemble;
    var whole := p.(arguments := p.arguments + q.arguments);
    var front, middle, back := Project(a, index), Project(between, index), Project(b, index);
    ProjectParts(a, [p], between, [q], b, index);
    ProjectParts(a, [whole], between, [], b, index);
    assert a + [whole] + between + [] + b == a + [whole] + between + b;
    ProjectOne(p, index);
    ProjectOne(q, index);
    ProjectOne(whole, index);
    if index == p.index {
      assert front + [p] + [] + [q] + back == front + [p, q] + back;
      assert front + [whole] + [] + [] + back == front + [whole] + back;
      AssembleSplit(front, p, q, back);
    } else {
      assert front + [] + middle + [] + back == front + middle + back;
    }
  }

  lemma ProjectOne(p: Piece, index: nat)
    ensures Project([p], index) == if p.index == index then [p] else []
    ensures Project([], index) == []
  {
    assert [p][..0] == [];
  }

  lemma ProjectParts(a: seq<Piece>, b: seq<Piece>, c: seq<Piece>, d: seq<Piece>, e: seq<Piece>, index: nat)
    ensures Project(a + b + c + d + e, index)
         == Project(a, index) + Project(b, index) + Project(c, index) + Project(d, index) + Project(e, index)
  {
    ProjectConcat(a + b + c + d, e, index);
    ProjectConcat(a + b + c, d, index);
    ProjectConcat(a + b, c, index);
    ProjectConcat(a, b, index);
  }

  lemma {:induction false} AssembleSplit(front: seq<Piece>, p: Piece, q: Piece, back: seq<Piece>)
    requires Continues(p, q)
    ensures Assemble(front + [p, q] + back) == Assemble(front + [p.(arguments := p.arguments + q.arguments)] + back)
    decreases |back|
  {
    var whole := p.(arguments := p.arguments + q.arguments);
    if back == [] {
      assert front + [p, q] + back == front + [p] + [q] && front + [whole] + back == front + [whole];
      assert (front + [p] + [q])[..|front| + 1] == front + [p] && (front + [p])[..|front|] == front;
      assert (front + [whole])[..|front|] == front;
      var e := Assemble(front);
      assert e.arguments + (p.arguments + q.arguments) == (e.arguments + p.arguments) + q.arguments;
    } else {
      var n := |back| - 1;
      AssembleSplit(front, p, q, back[..n]);
      assert (front + [p, q] + back)[..|front| + 2 + n] == front + [p, q] + back[..n];
      assert (front + [whole] + back)[..|front| + 1 + n] == front + [whole] + back[..n];
    }
  }

  // ---------------------------------------------------------------- finishing

  /** `k` is in `order`, at position `n` or later. */
  predicate Placed(order: seq<nat>, n: nat, k: nat) {
    exists i | n <= i < |order| :: order[i] == k
  }

  /** `order` lists the keys by increasing value. */
  predicate Lists(order: seq<nat>, keys: set<nat>) {
    && (forall i, j | 0 <= i < j < |order| :: order[i] < order[j])
    && Remaining(order, 0, keys)
  }

  /** `left` are the keys from position `n` on. */
  predicate Remaining(order: seq<nat>, n: nat, left: set<nat>) {
    n <= |order| && (forall i | n <= i < |order| :: order[i] in left) && (forall k | k in left :: Placed(order, n, k))
  }

  ghost function Ordered(keys: set<nat>): (r: seq<nat>)
    ensures Lists(r, keys)
  {
    if keys == {} then []
    else
      MinExists(keys);
      var m :| m in keys && forall k | k in keys :: m <= k;
      var rest := Ordered(keys - {m});
      ListsFirst(keys, m, rest);
      [m] + rest
  }

  lemma ListsFirst(keys: set<nat>, m: nat, rest: seq<nat>)
    requires m in keys && (forall k | k in keys :: m <= k) && Lists(rest, keys - {m})
    ensures Lists([m] + rest, keys)
  {
    var order := [m] + rest;
    forall k | k in keys
      ensures Placed(order, 0, k)
    {
      if k == m {
        assert order[0] == k;
      } else {
        assert Placed(rest, 0, k);
        var i :| 0 <= i < |rest| && rest[i] == k;
        assert order[i + 1] == k;
      }
    }
    forall i | 0 <= i < |rest|
      ensures m < rest[i]
    {
      assert rest[i] in keys - {m};
    }
  }

  lemma MinExists(keys: set<nat>)
    requires keys != {}
    ensures exists m: nat :: m in keys && forall k | k in keys :: m <= k
  {
    var x :| x in keys;
    MinBelow(keys, x);
  }

  lemma {:induction false} MinBelow(keys: set<nat>, x: nat)
    requires x in keys
    ensures exists m: nat :: m in keys && forall k | k in keys :: m <= k
    decreases x
  {
    if k :| k in keys && k < x {
      MinBelow(keys, k);
    }
  }

  /** The call an entry stands for; without arguments, an empty object. */
  function Completed(e: Entry, parse: string -> Option<string>): (r: Option<ToolCall>)
    ensures r.Some? ==> r.value.id == e.id && r.value.name == e.name && e.name != ""
  {
    var input := if e.arguments != "" then parse(e.arguments) else Some(NO_ARGUMENTS);
    if input.None? || e.name == "" then None else Some(ToolCall(e.id, e.name, input.value))
  }

  /** `calls` are the first completed entries in that order. */
  ghost predicate Begun(
    order: seq<nat>, entries: map<nat, Entry>, parse: string -> Option<string>, calls: seq<ToolCall>)
  {
    |calls| <= |order| && forall i | 0 <= i < |calls| :: CompletedAt(entries, order[i], parse) == Some(calls[i])
  }

  function CompletedAt(entries: map<nat, Entry>, index: nat, parse: string -> Option<string>): Option<ToolCall> {
    if index in entries then Completed(entries[index], parse) else None
  }

  /** `calls` are all of them, by increasing index. */
  ghost predicate Finished(entries: map<nat, Entry>, parse: string -> Option<string>, calls: seq<ToolCall>) {
    Begun(Ordered(entries.Keys), entries, parse, calls) && |calls| == |Ordered(entries.Keys)|
  }

  ghost predicate Finishable(entries: map<nat, Entry>, parse: string -> Option<string>) {
    forall index | index in entries :: CompletedAt(entries, index, parse).Some?
  }

  /** What finishing gives: the calls by increasing index, or nothing when one of them is incomplete. */
  ghost function FinishedCalls(entries: map<nat, Entry>, parse: string -> Option<string>): Option<seq<ToolCall>> {
    var order := Ordered(entries.Keys);
    if !Finishable(entries, parse) then None
    else Some(seq(|order|, i requires 0 <= i < |order| =>
      assert order[i] in entries; CompletedAt(entries, order[i], parse).value))
  }

  lemma FinishedIsUnique(entries: map<nat, Entry>, parse: string -> Option<string>, calls: seq<ToolCall>)
    requires Finished(entries, parse, calls) && Finishable(entries, parse)
    ensures FinishedCalls(entries, parse) == Some(calls)
  {
    hide Ordered, CompletedAt, Lists;
    var order, all := Ordered(entries.Keys), FinishedCalls(entries, parse).value;
    forall i | 0 <= i < |calls|
      ensures all[i] == calls[i]
    {
      assert CompletedAt(entries, order[i], parse) == Some(calls[i]);
    }
    assert all == calls;
  }

  lemma NotFinished(entries: map<nat, Entry>, parse: string -> Option<string>)
    requires !Finishable(entries, parse)
    ensures FinishedCalls(entries, parse) == None
  {
    hide Ordered, Finishable, Lists;
  }

  function Text(events: seq<Event>, reasoning: bool): string {
    if events == [] then ""
    else (if events[0].Reasoning? == reasoning then events[0].content else "") + Text(events[1..], reasoning)
  }

  lemma EmittedText(reasoning: string, content: string)
    ensures var events := (if reasoning != "" then [Reasoning(reasoning)] else [])
                          + (if content != "" then [Token(content)] else []);
      Text(events, true) == reasoning && Text(events, false) == content
  {
    assert [Reasoning(reasoning), Token(content)][1..] == [Token(content)];
    assert [Reasoning(reasoning)] + [Token(content)] == [Reasoning(reasoning), Token(content)];
    assert [Token(content)][1..] == [] && [Reasoning(reasoning)][1..] == [];
    assert Text([], true) == "" && Text([], false) == "";
    assert Text([Token(content)], true) == "" && Text([Token(content)], false) == content;
  }

  lemma AbsorbNone(calls: map<nat, Entry>, pieces: seq<Piece>)
    ensures Absorb(calls, pieces[..0]) == calls
  {
  }

  lemma AbsorbOne(calls: map<nat, Entry>, pieces: seq<Piece>, i: nat)
    requires i < |pieces|
    ensures var before, p := Absorb(calls, pieces[..i]), pieces[i];
      Absorb(calls, pieces[..i + 1])
      == before[p.index := Merge(if p.index in before then before[p.index] else BLANK, p)]
  {
    assert pieces[..i + 1][..i] == pieces[..i];
  }

  class StreamState {
    var calls: map<nat, Entry>
    var reasoning: string

    constructor ()
      ensures calls == map[] && reasoning == ""
    {
      calls, reasoning := map[], "";
    }

    /** What is emitted as reasoning is what is accumulated; content is passed on. */
    method ParseChunk(c: Chunk) returns (events: seq<Event>)
      modifies this
      ensures calls == Absorb(old(calls), c.pieces)
      ensures reasoning == old(reasoning) + Text(events, true)
      ensures Text(events, true) == c.reasoning && Text(events, false) == c.content
    {
      hide Text, Absorb;
      events := [];
      if c.reasoning != "" {
        reasoning := reasoning + c.reasoning;
        events := events + [Reasoning(c.reasoning)];
      }
      if c.content != "" {
        events := events + [Token(c.content)];
      }
      assert events == (if c.reasoning != "" then [Reasoning(c.reasoning)] else [])
                       + (if c.content != "" then [Token(c.content)] else []);
      EmittedText(c.reasoning, c.content);
      AbsorbNone(calls, c.pieces);
      for i := 0 to |c.pieces|
        invariant calls == Absorb(old(calls), c.pieces[..i])
        invariant reasoning == old(reasoning) + c.reasoning
      {
        var p := c.pieces[i];
        AbsorbOne(old(calls), c.pieces, i);
        var entry := if p.index in calls then calls[p.index] else BLANK;
        if p.id != "" {
          entry := entry.(id := p.id);
        }
        if p.name != "" {
          entry := entry.(name := p.name);
        }
        entry := entry.(arguments := entry.arguments + p.arguments);
        calls := calls[p.index := entry];
      }
      assert c.pieces[..|c.pieces|] == c.pieces;
    }

    method Finish(parse: string -> Option<string>) returns (r: Option<seq<ToolCall>>)
      ensures r.Some? <==> Finishable(calls, parse)
      ensures r.Some? ==> Finished(calls, parse, r.value)
      ensures r == FinishedCalls(calls, parse)
    {
      hide Ordered, Lists, Completed, Remaining, Begun, Finishable, FinishedCalls;
      var left, done := calls.Keys, [];
      ghost var order := Ordered(calls.Keys);
      AllRemain(order, calls, parse);
      while left != {}
        invariant Remaining(order, |done|, left) && left <= calls.Keys && Begun(order, calls, parse, done)
        decreases |left|
      {
        var index := LeastOf(left);
        NextInOrder(order, calls.Keys, |done|, left, index);
        var call := Completed(calls[index], parse);
        if call.None? {
          Unfinishable(calls, parse, index);
          NotFinished(calls, parse);
          return None;
        }
        CompleteOne(order, calls, parse, done, call.value);
        done := done + [call.value];
        left := left - {index};
      }
      NextIsLeft(order, |done|, left);
      AllCompleted(order, calls, parse, done);
      FinishedIsUnique(calls, parse, done);
      return Some(done);
    }
  }

  /** The least of some numbers. */
  method LeastOf(keys: set<nat>) returns (m: nat)
    requires keys != {}
    ensures m in keys && forall k | k in keys :: m <= k
  {
    MinExists(keys);
    m :| m in keys && forall k | k in keys :: m <= k;
  }

  lemma CompleteOne(
    order: seq<nat>, entries: map<nat, Entry>, parse: string -> Option<string>, done: seq<ToolCall>, call: ToolCall)
    requires Begun(order, entries, parse, done) && |done| < |order|
    requires CompletedAt(entries, order[|done|], parse) == Some(call)
    ensures Begun(order, entries, parse, done + [call])
  {
    hide CompletedAt;
  }

  lemma Unfinishable(entries: map<nat, Entry>, parse: string -> Option<string>, index: nat)
    requires index in entries && Completed(entries[index], parse).None?
    ensures !Finishable(entries, parse)
  {
    assert CompletedAt(entries, index, parse).None?;
  }

  lemma AllRemain(order: seq<nat>, entries: map<nat, Entry>, parse: string -> Option<string>)
    requires Lists(order, entries.Keys)
    ensures Remaining(order, 0, entries.Keys) && Begun(order, entries, parse, [])
  {
  }

  lemma NextIsLeft(order: seq<nat>, n: nat, left: set<nat>)
    requires Remaining(order, n, left)
    ensures n <= |order| && (n < |order| ==> order[n] in left)
  {
  }

  lemma NextInOrder(order: seq<nat>, keys: set<nat>, n: nat, left: set<nat>, index: nat)
    requires Lists(order, keys) && Remaining(order, n, left) && index in left && forall k | k in left :: index <= k
    ensures n < |order| && order[n] == index && Remaining(order, n + 1, left - {index})
  {
    assert Placed(order, n, index);
    var i :| n <= i < |order| && order[i] == index;
    assert order[n] in left;
    assert i == n;
    forall k | k in left - {index}
      ensures Placed(order, n + 1, k)
    {
      assert Placed(order, n, k);
      var j :| n <= j < |order| && order[j] == k;
      assert j != n;
    }
  }

  lemma AllCompleted(
    order: seq<nat>, entries: map<nat, Entry>, parse: string -> Option<string>, calls: seq<ToolCall>)
    requires Lists(order, entries.Keys) && Begun(order, entries, parse, calls) && |calls| == |order|
    ensures Finishable(entries, parse)
  {
    hide CompletedAt;
    forall index | index in entries
      ensures CompletedAt(entries, index, parse).Some?
    {
      assert Placed(order, 0, index);
      var i :| 0 <= i < |order| && order[i] == index;
    }
  }

  // ---------------------------------------------------------------- whole streams

  lemma {:induction false} AbsorbConcat(calls: map<nat, Entry>, a: seq<Piece>, b: seq<Piece>)
    ensures Absorb(Absorb(calls, a), b) == Absorb(calls, a + b)
    decreases |b|
  {
    hide AbsorbPiece;
    if b == [] {
      assert a + b == a;
    } else {
      var n := |b| - 1;
      assert (a + b)[..|a| + n] == a + b[..n];
      AbsorbConcat(calls, a, b[..n]);
    }
  }

  lemma {:induction false} TextConcat(a: seq<Event>, b: seq<Event>, reasoning: bool)
    ensures Text(a + b, reasoning) == Text(a, reasoning) + Text(b, reasoning)
    decreases |a|
  {
    if a == [] {
      assert a + b == b;
    } else {
      assert (a + b)[1..] == a[1..] + b;
      TextConcat(a[1..], b, reasoning);
      var first := if a[0].Reasoning? == reasoning then a[0].content else "";
      assert first + (Text(a[1..], reasoning) + Text(b, reasoning))
          == first + Text(a[1..], reasoning) + Text(b, reasoning);
    }
  }

  /** All fragments of a stream, in the order they arrived. */
  function Pieces(chunks: seq<Chunk>): seq<Piece> {
    if chunks == [] then [] else Pieces(chunks[..|chunks| - 1]) + chunks[|chunks| - 1].pieces
  }

  function AllReasoning(chunks: seq<Chunk>): string {
    if chunks == [] then "" else AllReasoning(chunks[..|chunks| - 1]) + chunks[|chunks| - 1].reasoning
  }

  function AllContent(chunks: seq<Chunk>): string {
    if chunks == [] then "" else AllContent(chunks[..|chunks| - 1]) + chunks[|chunks| - 1].content
  }

  /** Reading a whole stream: the calls are those of all its fragments, the reasoning kept is the reasoning
      emitted, and nothing of the stream's text is lost. */
  method ReadStream(chunks: seq<Chunk>, parse: string -> Option<string>)
    returns (r: Option<seq<ToolCall>>, reasoning: string, events: seq<Event>)
    ensures r == FinishedCalls(Absorb(map[], Pieces(chunks)), parse)
    ensures reasoning == Text(events, true) == AllReasoning(chunks) && Text(events, false) == AllContent(chunks)
  {
    hide Absorb, FinishedCalls, Text;
    var state := new StreamState();
    events := [];
    NothingRead();
    for i := 0 to |chunks|
      invariant state.calls == Absorb(map[], Pieces(chunks[..i]))
      invariant state.reasoning == Text(events, true) == AllReasoning(chunks[..i])
      invariant Text(events, false) == AllContent(chunks[..i])
    {
      assert chunks[..i + 1][..i] == chunks[..i];
      AbsorbConcat(map[], Pieces(chunks[..i]), chunks[i].pieces);
      var more := state.ParseChunk(chunks[i]);
      TextConcat(events, more, true);
      TextConcat(events, more, false);
      events := events + more;
    }
    assert chunks[..|chunks|] == chunks;
    reasoning := state.reasoning;
    r := state.Finish(parse);
  }

  lemma NothingRead()
    ensures Absorb(map[], []) == map[] && Text([], true) == "" && Text([], false) == ""
  {
  }

  /** The calls of a stream depend only on the fragments of each call taken by itself: not on how they are
      spread over chunks, nor on what arrives between them. */
  lemma StreamsFinishAlike(a: seq<Chunk>, b: seq<Chunk>, parse: string -> Option<string>)
    requires SameFragments(Pieces(a), Pieces(b))
    ensures FinishedCalls(Absorb(map[], Pieces(a)), parse) == FinishedCalls(Absorb(map[], Pieces(b)), parse)
  {
    InterleavingIsIrrelevant(Pieces(a), Pieces(b));
  }

  lemma {:induction false} PiecesConcat(a: seq<Chunk>, b: seq<Chunk>)
    ensures Pieces(a + b) == Pieces(a) + Pieces(b)
    decreases |b|
  {
    if b == [] {
      assert a + b == a;
    } else {
      var n := |b| - 1;
      assert (a + b)[..|a| + n] == a + b[..n];
      PiecesConcat(a, b[..n]);
    }
  }

  function Only(p: Piece): Chunk {
    Chunk("", "", [p])
  }

  /** Sending the argument text of a fragment in two chunks, with any chunks in between that do not touch its
      call, finishes with the same calls as sending it in one. */
  lemma SplitAcrossChunks(
    a: seq<Chunk>, p: Piece, between: seq<Chunk>, q: Piece, b: seq<Chunk>, parse: string -> Option<string>)
    requires Continues(p, q) && Project(Pieces(between), p.index) == []
    ensures var whole := p.(arguments := p.arguments + q.arguments);
      FinishedCalls(Absorb(map[], Pieces(a + [Only(p)] + between + [Only(q)] + b)), parse)
      == FinishedCalls(Absorb(map[], Pieces(a + [Only(whole)] + between + b)), parse)
  {
    hide Absorb, FinishedCalls, Project;
    var whole := p.(arguments := p.arguments + q.arguments);
    PiecesOnly(p);
    PiecesOnly(q);
    PiecesOnly(whole);
    PiecesConcat(a, [Only(p)]);
    PiecesConcat(a + [Only(p)], between);
    PiecesConcat(a + [Only(p)] + between, [Only(q)]);
    PiecesConcat(a + [Only(p)] + between + [Only(q)], b);
    PiecesConcat(a, [Only(whole)]);
    PiecesConcat(a + [Only(whole)], between);
    PiecesConcat(a + [Only(whole)] + between, b);
    SplittingIsIrrelevant(Pieces(a), p, Pieces(between), q, Pieces(b));
  }

  lemma PiecesOnly(p: Piece)
    ensures Pieces([Only(p)]) == [p]
  {
    assert [Only(p)][..0] == [];
  }

  /** Fragments of different calls in neighbouring chunks may arrive in either order. */
  lemma SwapAcrossChunks(a: seq<Chunk>, p: Piece, q: Piece, b: seq<Chunk>, parse: string -> Option<string>)
    requires p.index != q.index
    ensures FinishedCalls(Absorb(map[], Pieces(a + [Only(p)] + [Only(q)] + b)), parse)
         == FinishedCalls(Absorb(map[], Pieces(a + [Only(q)] + [Only(p)] + b)), parse)
  {
    hide Absorb, FinishedCalls, Pieces;
    PiecesOfPair(a, p, q, b);
    PiecesOfPair(a, q, p, b);
    SwapIsIrrelevant(Pieces(a), p, q, Pieces(b));
  }

  lemma PiecesOfPair(a: seq<Chunk>, p: Piece, q: Piece, b: seq<Chunk>)
    ensures Pieces(a + [Only(p)] + [Only(q)] + b) == Pieces(a) + [p, q] + Pieces(b)
  {
    hide Pieces;
    PiecesOnly(p);
    PiecesOnly(q);
    PiecesConcat(a, [Only(p)]);
    PiecesConcat(a + [Only(p)], [Only(q)]);
    PiecesConcat(a + [Only(p)] + [Only(q)], b);
    assert Pieces(a) + [p] + [q] == Pieces(a) + [p, q];
  }
}
