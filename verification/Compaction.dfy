/** Preparing a model request within a token budget: long tool results are cut, and when the request is
    still too large its oldest exchanges are replaced by a summary. */
module Compaction {
  import opened Wrappers
  import opened Transcript

  const SUMMARY_PREFIX := "Earlier context summary:\n"

  // ---------------------------------------------------------------- the estimate

  /** The length of one character in ASCII JSON. */
  function CharLength(c: char): (n: nat)
    ensures n >= 1
  {
    if c == '\"' || c == '\\' || c == '\n' || c == '\r' || c == '\t' || c as int == 8 || c as int == 12 then 2
    else if c < ' ' then 6
    else if c <= '~' then 1
    else if c as int <= 0xFFFF then 6
    else 12
  }

  function TextLength(s: string): nat {
    if s == [] then 0 else TextLength(s[..|s| - 1]) + CharLength(s[|s| - 1])
  }

  function Encoded(m: Message): nat {
    m.envelope + match m.content
                 case Absent => 0
                 case Text(s) => 2 + TextLength(s)
                 case Blocks(_, n) => n
  }

  /** The encoded messages, each with a comma. */
  function Weight(ms: seq<Message>): nat {
    if ms == [] then 0 else Encoded(ms[0]) + 1 + Weight(ms[1..])
  }

  function Payload(ms: seq<Message>): nat {
    if ms == [] then 2 else Weight(ms) + 1
  }

  /** `tools` is the encoded length of the tool schemas, if there are any. */
  function Estimate(ms: seq<Message>, tools: Option<nat>): nat {
    (Payload(ms) + 3) / 4 + 8 * |ms| + 3 + (if tools.Some? then (tools.value + 3) / 4 + 16 else 0)
  }

  // ---------------------------------------------------------------- the compactor

  type Digest = s: string | |s| == 64 witness seq(64, i => '0')

  /** `store` writes a tool result and names it by its digest, or fails; `summarize` stands for the
      summary made of the removed messages, whether by a model or by the local fallback. */
  datatype Compactor = Compactor(
    window: int, responseReserve: int, store: Option<string -> Option<Digest>>,
    summarize: seq<Message> -> string)
  {
    predicate Valid() {
      window > 0 && 0 <= responseReserve < window
    }

    function Budget(): (b: nat)
      requires Valid()
    {
      window - responseReserve
    }
  }

  datatype Outcome = Prepared(messages: seq<Message>) | BadExchange | OverBudget

  function Min(a: int, b: int): int {
    if a < b then a else b
  }

  function Max(a: int, b: int): int {
    if a < b then b else a
  }

  // ---------------------------------------------------------------- long tool results

  function Threshold(budget: nat): nat {
    Max(1024, Min(8192, budget * 2))
  }

  function Preview(budget: nat): nat {
    Min(2048, Max(128, budget / 3))
  }

  function Marker(artifact: Option<Digest>): string {
    if artifact.Some?
    then "Full tool result: .multiclaw/tool-results/" + artifact.value + ".txt (use read_file)."
    else "Full tool result artifact unavailable."
  }

  function Truncated(content: string, marker: string, preview: nat): string
    requires preview <= |content|
  {
    content[..preview / 2] + "\n\n[Tool result truncated; " + marker + "]\n\n"
    + content[|content| - (preview + 1) / 2..]
  }

  lemma PreviewFits(budget: nat)
    ensures Preview(budget) + 156 <= Threshold(budget)
  {
  }

  predicate TooLong(m: Message, budget: nat) {
    m.role.Tool? && m.content.Text? && |m.content.text| > Threshold(budget)
  }

  function Bounded(c: Compactor, m: Message): Message
    requires c.Valid()
  {
    if c.store.Some? && TooLong(m, c.Budget())
    then m.(content := Text(Truncated(m.content.text, Marker(c.store.value(m.content.text)), Preview(c.Budget()))))
    else m
  }

  function BoundAll(c: Compactor, ms: seq<Message>): (r: seq<Message>)
    requires c.Valid()
    ensures |r| == |ms| && forall i | 0 <= i < |r| :: r[i] == Bounded(c, ms[i])
  {
    seq(|ms|, i requires 0 <= i < |ms| => Bounded(c, ms[i]))
  }

  /** A truncated result, marker included, is never long enough to be truncated again. */
  lemma TruncatedIsShort(c: Compactor, m: Message)
    requires c.Valid()
    ensures c.store.Some? ==> !TooLong(Bounded(c, m), c.Budget())
  {
    if c.store.Some? && TooLong(m, c.Budget()) {
      var marker := Marker(c.store.value(m.content.text));
      assert |marker| <= 127;
      assert |Bounded(c, m).content.text| == Preview(c.Budget()) + 29 + |marker|;
    }
  }

  /** Cutting long tool results twice is cutting them once. */
  lemma BoundTwice(c: Compactor, ms: seq<Message>)
    requires c.Valid()
    ensures BoundAll(c, BoundAll(c, ms)) == BoundAll(c, ms)
  {
    forall i | 0 <= i < |ms|
      ensures Bounded(c, Bounded(c, ms[i])) == Bounded(c, ms[i])
    {
      TruncatedIsShort(c, ms[i]);
    }
  }

  method BoundToolResults(c: Compactor, messages: array<Message>)
    requires c.Valid()
    modifies messages
    ensures messages[..] == BoundAll(c, old(messages[..]))
  {
    hide Truncated, Marker, Threshold, Preview;
    if c.store.None? {
      return;
    }
    ghost var before := messages[..];
    var budget := c.Budget();
    for i := 0 to messages.Length
      invariant forall k | 0 <= k < i :: messages[k] == Bounded(c, before[k])
      invariant forall k | i <= k < messages.Length :: messages[k] == before[k]
    {
      var m := messages[i];
      if m.role.Tool? && m.content.Text? && |m.content.text| > Threshold(budget) {
        PreviewFits(budget);
        var marker := Marker(c.store.value(m.content.text));
        messages[i] := m.(content := Text(Truncated(m.content.text, marker, Preview(budget))));
      }
    }
  }

  predicate SameShape(a: Message, b: Message) {
    a.role == b.role && a.calls == b.calls && a.toolCallId == b.toolCallId
  }

  predicate SameShapes(a: seq<Message>, b: seq<Message>) {
    |a| == |b| && forall i | 0 <= i < |a| :: SameShape(a[i], b[i])
  }

  lemma SameLength(a: seq<Message>, b: seq<Message>)
    requires SameShapes(a, b)
    ensures |a| == |b|
  {
  }

  lemma SameChunk(a: seq<Message>, b: seq<Message>, n: nat)
    requires SameShapes(a, b) && 0 < n <= |a|
    ensures |a| == |b| && Head(a) == Head(b)
    ensures Lone(a[..n]) <==> Lone(b[..n])
    ensures Exchange(a[..n]) <==> Exchange(b[..n])
    ensures SameShapes(a[n..], b[n..])
  {
    assert SameShape(a[0], b[0]);
  }

  /** Grouping looks only at roles and call ids. */
  lemma {:induction false} ShapeDecides(a: seq<Message>, b: seq<Message>, off: nat)
    requires SameShapes(a, b)
    ensures Accepted(a) <==> Accepted(b)
    ensures Accepted(a) ==> Spans(a, off) == Spans(b, off)
    decreases |a|
  {
    hide Lone, Exchange, SameShape, SameShapes, Accepted, Spans;
    if a == [] {
      assert a == b by {
        SameLength(a, b);
      }
    } else {
      SameChunk(a, b, 1);
      AcceptedUnfolds(a, off);
      AcceptedUnfolds(b, off);
      var n := Head(a);
      if n <= |a| {
        SameChunk(a, b, n);
        ShapeDecides(a[n..], b[n..], off + n);
      }
    }
  }

  // ---------------------------------------------------------------- selecting messages

  function Select(ms: seq<Message>, kept: set<nat>, off: nat := 0): (r: seq<Message>)
    ensures |r| <= |ms|
  {
    if ms == [] then []
    else (if off in kept then [ms[0]] else []) + Select(ms[1..], kept, off + 1)
  }

  lemma SelectStep(ms: seq<Message>, kept: set<nat>, off: nat)
    requires ms != []
    ensures var rest := Select(ms[1..], kept, off + 1);
      var all := Select(ms, kept, off);
      if off in kept then all == [ms[0]] + rest && all[0] == ms[0] && all[1..] == rest else all == rest
  {
    var rest := Select(ms[1..], kept, off + 1);
    assert [] + rest == rest && ([ms[0]] + rest)[1..] == rest;
  }

  lemma {:induction false} WeightGrows(ms: seq<Message>, a: set<nat>, b: set<nat>, off: nat)
    requires a <= b
    ensures |Select(ms, a, off)| <= |Select(ms, b, off)|
    ensures Weight(Select(ms, a, off)) <= Weight(Select(ms, b, off))
  {
    if ms != [] {
      WeightGrows(ms[1..], a, b, off + 1);
      SelectStep(ms, a, off);
      SelectStep(ms, b, off);
    }
  }

  /** Keeping more messages never costs less. */
  lemma EstimateGrows(ms: seq<Message>, a: set<nat>, b: set<nat>, tools: Option<nat>)
    requires a <= b
    ensures Estimate(Select(ms, a), tools) <= Estimate(Select(ms, b), tools)
  {
    WeightGrows(ms, a, b, 0);
  }

  lemma {:induction false} SelectAll(ms: seq<Message>, kept: set<nat>, off: nat)
    requires forall i | off <= i < off + |ms| :: i in kept
    ensures Select(ms, kept, off) == ms
  {
    if ms != [] {
      SelectAll(ms[1..], kept, off + 1);
    }
  }

  lemma {:induction false} SelectNone(ms: seq<Message>, kept: set<nat>, off: nat)
    requires forall i | off <= i < off + |ms| :: i !in kept
    ensures Select(ms, kept, off) == []
  {
    if ms != [] {
      SelectNone(ms[1..], kept, off + 1);
    }
  }

  lemma {:induction false} SelectConcat(a: seq<Message>, b: seq<Message>, kept: set<nat>, off: nat)
    ensures Select(a + b, kept, off) == Select(a, kept, off) + Select(b, kept, off + |a|)
    decreases |a|
  {
    hide Select;
    if a == [] {
      assert a + b == b;
      SelectEmpty(kept, off);
    } else {
      SelectConcat(a[1..], b, kept, off + 1);
      assert (a + b)[0] == a[0] && (a + b)[1..] == a[1..] + b;
      SelectStep(a + b, kept, off);
      SelectStep(a, kept, off);
    }
  }

  lemma SelectEmpty(kept: set<nat>, off: nat)
    ensures Select([], kept, off) == []
  {
  }

  /** A group is kept as a whole or removed as a whole. */
  predicate Whole(kept: set<nat>, g: Span) {
    (forall i | g.lo <= i < g.hi :: i in kept) || (forall i | g.lo <= i < g.hi :: i !in kept)
  }

  /** Removing whole groups leaves a list the scanner accepts. */
  lemma {:induction false} SelectionIsAccepted(ms: seq<Message>, kept: set<nat>, off: nat)
    requires Accepted(ms) && forall g | g in Spans(ms, off) :: Whole(kept, g)
    ensures Accepted(Select(ms, kept, off))
    decreases |ms|
  {
    hide Lone, Exchange, Accepted, Spans;
    if ms == [] {
      AcceptedEmpty();
    } else {
      AcceptedUnfolds(ms, off);
      var n := Head(ms);
      var c, rest := ms[..n], ms[n..];
      assert ms == c + rest;
      assert Spans(ms, off)[0] in Spans(ms, off) && Whole(kept, Span(off, off + n));
      assert forall g | g in Spans(rest, off + n) :: g in Spans(ms, off);
      SelectionIsAccepted(rest, kept, off + n);
      SelectConcat(c, rest, kept, off);
      if off in kept {
        SelectAll(c, kept, off);
        PrependChunk(c, Select(rest, kept, off + n));
      } else {
        SelectNone(c, kept, off);
        assert [] + Select(rest, kept, off + n) == Select(rest, kept, off + n);
      }
    }
  }

  // ---------------------------------------------------------------- what must be kept

  predicate NoUser(ms: seq<Message>) {
    forall i | 0 <= i < |ms| :: !ms[i].role.User?
  }

  /** Instructions, and the first and the last user message. */
  predicate IsPinned(ms: seq<Message>, i: nat)
    requires i < |ms|
  {
    IsInstruction(ms[i]) || (ms[i].role.User? && (NoUser(ms[..i]) || NoUser(ms[i + 1..])))
  }

  function Pinned(ms: seq<Message>): set<nat> {
    set i | 0 <= i < |ms| && IsPinned(ms, i)
  }

  /** The pinned messages in order; `seen` says that a user message came before. */
  function Essential(ms: seq<Message>, seen: bool := false): seq<Message> {
    if ms == [] then []
    else if IsInstruction(ms[0]) then [ms[0]] + Essential(ms[1..], seen)
    else if ms[0].role.User? then
      (if !seen || NoUser(ms[1..]) then [ms[0]] else []) + Essential(ms[1..], true)
    else Essential(ms[1..], seen)
  }

  predicate KeepsPinned(ms: seq<Message>, kept: set<nat>, off: nat, seen: bool) {
    forall i | 0 <= i < |ms| &&
      (IsInstruction(ms[i]) || (ms[i].role.User? && ((!seen && NoUser(ms[..i])) || NoUser(ms[i + 1..])))) ::
      off + i in kept
  }

  lemma {:induction false} SelectionKeepsUsers(ms: seq<Message>, kept: set<nat>, off: nat, seen: bool)
    requires KeepsPinned(ms, kept, off, seen)
    ensures NoUser(Select(ms, kept, off)) <==> NoUser(ms)
  {
    if ms != [] {
      KeepsPinnedTail(ms, kept, off, seen);
      SelectionKeepsUsers(ms[1..], kept, off + 1, seen || ms[0].role.User?);
      SelectStep(ms, kept, off);
      NoUserStep(ms);
      if off in kept {
        NoUserStep(Select(ms, kept, off));
      }
      assert off !in kept ==> off + 0 !in kept;
    }
  }

  lemma NoUserStep(ms: seq<Message>)
    requires ms != []
    ensures NoUser(ms) <==> !ms[0].role.User? && NoUser(ms[1..])
  {
    assert ms == [ms[0]] + ms[1..];
  }

  lemma KeepsPinnedTail(ms: seq<Message>, kept: set<nat>, off: nat, seen: bool)
    requires ms != [] && KeepsPinned(ms, kept, off, seen)
    ensures KeepsPinned(ms[1..], kept, off + 1, seen || ms[0].role.User?)
  {
    var rest := ms[1..];
    forall i | 0 <= i < |rest| &&
      (IsInstruction(rest[i]) || (rest[i].role.User?
         && ((!(seen || ms[0].role.User?) && NoUser(rest[..i])) || NoUser(rest[i + 1..]))))
      ensures off + 1 + i in kept
    {
      assert rest[i] == ms[i + 1] && rest[i + 1..] == ms[i + 2..];
      assert ms[..i + 1] == [ms[0]] + rest[..i];
      assert off + (i + 1) in kept;
    }
  }

  /** Dropping messages that are not pinned leaves the pinned ones, in order. */
  lemma {:induction false} SelectionKeepsEssential(ms: seq<Message>, kept: set<nat>, off: nat, seen: bool)
    requires KeepsPinned(ms, kept, off, seen)
    ensures Essential(Select(ms, kept, off), seen) == Essential(ms, seen)
  {
    if ms != [] {
      KeepsPinnedTail(ms, kept, off, seen);
      var seen' := seen || ms[0].role.User?;
      SelectionKeepsEssential(ms[1..], kept, off + 1, seen');
      SelectionKeepsUsers(ms[1..], kept, off + 1, seen');
      SelectStep(ms, kept, off);
      assert NoUser(ms[..0]);
      assert off !in kept ==> off + 0 !in kept;
    }
  }

  lemma PinnedIsKept(ms: seq<Message>, kept: set<nat>)
    requires Pinned(ms) <= kept
    ensures KeepsPinned(ms, kept, 0, false)
  {
    assert forall i | i in Pinned(ms) :: i in kept;
  }

  // ---------------------------------------------------------------- the newest whole exchanges

  predicate IsSummary(m: Message) {
    m.role.Assistant? && m.content.Text? && SUMMARY_PREFIX <= m.content.text
  }

  predicate HasPinned(ms: seq<Message>, g: Span) {
    exists i | g.lo <= i < g.hi :: i in Pinned(ms)
  }

  predicate HasSummary(ms: seq<Message>, g: Span)
    requires g.hi <= |ms|
  {
    exists i | g.lo <= i < g.hi :: IsSummary(ms[i])
  }

  predicate Ordinary(ms: seq<Message>, g: Span)
    requires g.hi <= |ms|
  {
    !HasPinned(ms, g) && !HasSummary(ms, g)
  }

  function Range(g: Span): (r: set<nat>)
    ensures forall i :: i in r <==> g.lo <= i < g.hi
    decreases g.hi - g.lo
  {
    if g.lo < g.hi then {g.lo} + Range(Span(g.lo + 1, g.hi)) else {}
  }

  predicate InRange(ms: seq<Message>, gs: seq<Span>) {
    forall g | g in gs :: g.lo < g.hi <= |ms|
  }

  /** The positions of the ordinary groups in `gs`. */
  function Members(ms: seq<Message>, gs: seq<Span>): set<nat>
    requires InRange(ms, gs)
  {
    if gs == [] then {}
    else Members(ms, gs[1..]) + (if Ordinary(ms, gs[0]) then Range(gs[0]) else {})
  }

  /** What is kept when every ordinary group from the `k`th on is. */
  function Kept(ms: seq<Message>, gs: seq<Span>, k: nat): set<nat>
    requires InRange(ms, gs) && k <= |gs|
  {
    Pinned(ms) + Members(ms, gs[k..])
  }

  lemma {:induction false} MembersExact(ms: seq<Message>, gs: seq<Span>, i: nat)
    requires InRange(ms, gs)
    ensures i in Members(ms, gs) <==> exists g :: g in gs && Ordinary(ms, g) && g.lo <= i < g.hi
  {
    hide Ordinary;
    if gs != [] {
      MembersExact(ms, gs[1..], i);
      assert gs == [gs[0]] + gs[1..];
    }
  }

  lemma KeptGrows(ms: seq<Message>, gs: seq<Span>, k: nat, l: nat)
    requires InRange(ms, gs) && k <= l <= |gs|
    ensures Kept(ms, gs, l) <= Kept(ms, gs, k)
  {
    hide Ordinary, Pinned;
    forall i | i in Members(ms, gs[l..])
      ensures i in Members(ms, gs[k..])
    {
      MembersExact(ms, gs[l..], i);
      MembersExact(ms, gs[k..], i);
      assert forall g | g in gs[l..] :: g in gs[k..];
    }
  }

  lemma KeptStep(ms: seq<Message>, gs: seq<Span>, k: nat)
    requires InRange(ms, gs) && k < |gs|
    ensures Kept(ms, gs, k) == Kept(ms, gs, k + 1) + (if Ordinary(ms, gs[k]) then Range(gs[k]) else {})
  {
    assert gs[k..][1..] == gs[k + 1..];
  }

  lemma SpansInRange(ms: seq<Message>)
    requires Accepted(ms)
    ensures InRange(ms, Spans(ms))
  {
  }

  /** Pinned messages stand alone, so keeping one never keeps part of an exchange. */
  lemma PinnedStandsAlone(ms: seq<Message>, g: Span)
    requires Accepted(ms) && g in Spans(ms) && HasPinned(ms, g)
    ensures Range(g) <= Pinned(ms)
  {
    hide Accepted, Spans, Range;
    SpanIsChunk(ms, 0, g);
    var c := Slice(ms, 0, g);
    var i :| g.lo <= i < g.hi && i in Pinned(ms);
    assert c[i - g.lo] == ms[i] && !Exchange(c);
    assert i == g.lo && g.hi == g.lo + 1;
  }

  lemma KeptIsWhole(ms: seq<Message>, k: nat, g: Span)
    requires Accepted(ms) && g in Spans(ms) && k <= |Spans(ms)|
    ensures InRange(ms, Spans(ms)) && Whole(Kept(ms, Spans(ms), k), g)
  {
    hide Accepted, Spans, HasSummary, Pinned;
    SpansInRange(ms);
    var gs := Spans(ms);
    var kept := Kept(ms, gs, k);
    if HasPinned(ms, g) {
      PinnedStandsAlone(ms, g);
      assert forall i | g.lo <= i < g.hi :: i in Range(g) && i in kept;
    } else if g in gs[k..] && Ordinary(ms, g) {
      forall i | g.lo <= i < g.hi
        ensures i in kept
      {
        MembersExact(ms, gs[k..], i);
      }
    } else {
      forall i | g.lo <= i < g.hi
        ensures i !in kept
      {
        MembersExact(ms, gs[k..], i);
        forall h | h in gs[k..] && h.lo <= i < h.hi
          ensures h == g
        {
          SpansDisjoint(ms, 0, g, h, i);
        }
      }
    }
  }

  lemma KeptHasNoSummary(ms: seq<Message>, gs: seq<Span>, k: nat, i: nat)
    requires InRange(ms, gs) && k <= |gs| && i in Kept(ms, gs, k)
    ensures i < |ms| && !IsSummary(ms[i])
  {
    MembersExact(ms, gs[k..], i);
  }

  /** Suffixes of the ordinary groups that may be retained: those within the limit, and the empty one. */
  predicate Fits(ms: seq<Message>, gs: seq<Span>, k: nat, tools: Option<nat>, limit: int)
    requires InRange(ms, gs) && k <= |gs|
  {
    Estimate(Select(ms, Kept(ms, gs, k)), tools) <= limit || Kept(ms, gs, k) == Pinned(ms)
  }

  /** `k` retains the largest such suffix. */
  ghost predicate Largest(ms: seq<Message>, gs: seq<Span>, k: nat, tools: Option<nat>, limit: int)
    requires InRange(ms, gs) && k <= |gs|
  {
    && Fits(ms, gs, k, tools, limit)
    && (forall l | 0 <= l <= |gs| && Fits(ms, gs, l, tools, limit) :: Kept(ms, gs, l) <= Kept(ms, gs, k))
  }

  ghost predicate LargestSelection(ms: seq<Message>, gs: seq<Span>, tools: Option<nat>, limit: int, kept: set<nat>)
    requires InRange(ms, gs)
  {
    exists k | 0 <= k <= |gs| :: kept == Kept(ms, gs, k) && Largest(ms, gs, k, tools, limit)
  }

  /** A group that does not fit ends the search: no longer suffix fits either. */
  lemma MisfitIsLast(ms: seq<Message>, gs: seq<Span>, k: nat, tools: Option<nat>, limit: int)
    requires InRange(ms, gs) && k < |gs| && Fits(ms, gs, k + 1, tools, limit)
    requires Ordinary(ms, gs[k]) && Estimate(Select(ms, Kept(ms, gs, k)), tools) > limit
    ensures Largest(ms, gs, k + 1, tools, limit)
  {
    hide Estimate, Select, HasSummary;
    KeptStep(ms, gs, k);
    var lo := gs[k].lo;
    assert lo in Range(gs[k]) && lo in Kept(ms, gs, k) && lo !in Pinned(ms);
    forall l | 0 <= l <= |gs| && Fits(ms, gs, l, tools, limit)
      ensures Kept(ms, gs, l) <= Kept(ms, gs, k + 1)
    {
      if l <= k {
        KeptGrows(ms, gs, l, k);
        EstimateGrows(ms, Kept(ms, gs, k), Kept(ms, gs, l), tools);
        assert false;
      } else {
        KeptGrows(ms, gs, k + 1, l);
      }
    }
  }

  lemma WholeListIsLargest(ms: seq<Message>, gs: seq<Span>, tools: Option<nat>, limit: int)
    requires InRange(ms, gs) && Fits(ms, gs, 0, tools, limit)
    ensures Largest(ms, gs, 0, tools, limit)
  {
    hide Estimate, Select, Kept;
    forall l | 0 <= l <= |gs|
      ensures Kept(ms, gs, l) <= Kept(ms, gs, 0)
    {
      KeptGrows(ms, gs, 0, l);
    }
  }

  /** Walk the groups from the newest: skip summaries, keep what fits, stop at the first that does not. */
  method Retain(ms: seq<Message>, gs: seq<Span>, tools: Option<nat>, limit: int) returns (kept: set<nat>)
    requires Accepted(ms) && gs == Spans(ms)
    ensures InRange(ms, gs) && LargestSelection(ms, gs, tools, limit, kept)
  {
    hide Estimate, Select, Accepted, Spans, Largest, HasSummary;
    SpansInRange(ms);
    kept := Pinned(ms);
    var k: nat := |gs|;
    while k > 0
      invariant k <= |gs| && kept == Kept(ms, gs, k) && Fits(ms, gs, k, tools, limit)
    {
      var g := gs[k - 1];
      KeptStep(ms, gs, k - 1);
      if HasPinned(ms, g) {
        PinnedStandsAlone(ms, g);
        assert kept + Range(g) == kept;
        kept := kept + Range(g);
      } else if !HasSummary(ms, g) {
        var candidate := kept + Range(g);
        if Estimate(Select(ms, candidate), tools) <= limit {
          kept := candidate;
        } else {
          MisfitIsLast(ms, gs, k - 1, tools, limit);
          return;
        }
      }
      k := k - 1;
    }
    WholeListIsLargest(ms, gs, tools, limit);
  }

  // ---------------------------------------------------------------- the summary

  function UserAt(ms: seq<Message>): (i: nat)
    requires !NoUser(ms)
    ensures i < |ms| && ms[i].role.User? && NoUser(ms[..i])
  {
    NoUserStep(ms);
    if ms[0].role.User? then 0
    else
      var i := UserAt(ms[1..]);
      assert ms[..i + 1] == [ms[0]] + ms[1..][..i];
      i + 1
  }

  /** After the first user message, or at the front when there is none. */
  function Insertion(ms: seq<Message>): (i: nat)
    ensures i <= |ms|
  {
    if NoUser(ms) then 0 else UserAt(ms) + 1
  }

  function Inserted(ms: seq<Message>, m: Message): seq<Message> {
    ms[..Insertion(ms)] + [m] + ms[Insertion(ms)..]
  }

  function Summary(text: string): Message {
    Message(Assistant, Text(SUMMARY_PREFIX + text), [], None, [], 31)
  }

  /** A message inserted after the first user message splits no exchange. */
  lemma {:induction false} InsertedIsAccepted(ms: seq<Message>, m: Message)
    requires Accepted(ms) && Lone([m])
    ensures Accepted(Inserted(ms, m))
    decreases |ms|
  {
    hide Accepted;
    if NoUser(ms) {
      assert Inserted(ms, m) == [m] + ms;
      PrependChunk([m], ms);
    } else {
      AcceptedUnfolds(ms, 0);
      var n := Head(ms);
      var c, rest := ms[..n], ms[n..];
      if ms[0].role.User? {
        assert Inserted(ms, m) == c + ([m] + rest);
        PrependChunk([m], rest);
        PrependChunk(c, [m] + rest);
      } else {
        InsertLater(ms, n, m);
        InsertedIsAccepted(rest, m);
        PrependChunk(c, Inserted(rest, m));
      }
    }
  }

  lemma InsertLater(ms: seq<Message>, n: nat, m: Message)
    requires !NoUser(ms) && 0 < n <= |ms| && NoUser(ms[..n])
    ensures !NoUser(ms[n..]) && Inserted(ms, m) == ms[..n] + Inserted(ms[n..], m)
  {
    hide NoUser, UserAt;
    UserAtLater(ms, n);
    var i := UserAt(ms[n..]);
    assert ms[..n + i + 1] == ms[..n] + ms[n..][..i + 1];
    assert ms[n + i + 1..] == ms[n..][i + 1..];
  }

  lemma {:induction false} UserAtLater(ms: seq<Message>, n: nat)
    requires !NoUser(ms) && n <= |ms| && NoUser(ms[..n])
    ensures !NoUser(ms[n..]) && UserAt(ms) == n + UserAt(ms[n..])
  {
    if n == 0 {
      assert ms[0..] == ms;
    } else {
      NoUserStep(ms);
      assert !ms[..n][0].role.User? && ms[1..][..n - 1] == ms[..n][1..] && ms[1..][n - 1..] == ms[n..];
      UserAtLater(ms[1..], n - 1);
    }
  }

  lemma {:induction false} EssentialIgnores(a: seq<Message>, m: Message, b: seq<Message>, seen: bool)
    requires !IsInstruction(m) && !m.role.User?
    ensures Essential(a + [m] + b, seen) == Essential(a + b, seen)
  {
    if a == [] {
      assert a + [m] + b == [m] + b && a + b == b && ([m] + b)[1..] == b;
    } else {
      var rest := a[1..];
      assert (a + [m] + b)[1..] == rest + [m] + b && (a + b)[1..] == rest + b;
      EssentialIgnores(rest, m, b, seen);
      EssentialIgnores(rest, m, b, true);
      NoUserSplit(rest, m, b);
    }
  }

  lemma NoUserConcat(a: seq<Message>, b: seq<Message>)
    ensures NoUser(a + b) <==> NoUser(a) && NoUser(b)
  {
    if NoUser(a + b) {
      assert forall i | 0 <= i < |a| :: a[i] == (a + b)[i];
      assert forall i | 0 <= i < |b| :: b[i] == (a + b)[|a| + i];
    }
  }

  lemma NoUserSplit(a: seq<Message>, m: Message, b: seq<Message>)
    requires !m.role.User?
    ensures NoUser(a + [m] + b) <==> NoUser(a + b)
  {
    NoUserConcat(a, b);
    NoUserConcat(a + [m], b);
    NoUserConcat(a, [m]);
  }

  lemma {:induction false} WeightConcat(a: seq<Message>, b: seq<Message>)
    ensures Weight(a + b) == Weight(a) + Weight(b)
  {
    if a == [] {
      assert a + b == b;
    } else {
      assert (a + b)[1..] == a[1..] + b;
      WeightConcat(a[1..], b);
    }
  }

  lemma {:induction false} LongerTextIsLonger(s: string, a: nat, b: nat)
    requires a <= b <= |s|
    ensures TextLength(s[..a]) <= TextLength(s[..b])
    decreases b
  {
    if a < b {
      LongerTextIsLonger(s, a, b - 1);
      assert s[..b][..b - 1] == s[..b - 1];
    }
  }

  predicate SummaryFits(ms: seq<Message>, text: string, n: nat, tools: Option<nat>, budget: nat)
    requires n <= |text|
  {
    Estimate(Inserted(ms, Summary(text[..n])), tools) <= budget
  }

  /** The estimate of a request with a summary grows with the summary. */
  lemma ShorterSummaryFits(ms: seq<Message>, text: string, a: nat, b: nat, tools: Option<nat>, budget: nat)
    requires a <= b <= |text| && SummaryFits(ms, text, b, tools, budget)
    ensures SummaryFits(ms, text, a, tools, budget)
  {
    hide Inserted, TextLength, Weight, Summary;
    InsertedWeight(ms, Summary(text[..a]));
    InsertedWeight(ms, Summary(text[..b]));
    ShorterIsLighter(text, a, b);
  }

  lemma ShorterIsLighter(text: string, a: nat, b: nat)
    requires a <= b <= |text|
    ensures Encoded(Summary(text[..a])) <= Encoded(Summary(text[..b]))
  {
    hide TextLength;
    var s, p := SUMMARY_PREFIX + text, |SUMMARY_PREFIX|;
    assert s[..p + a] == SUMMARY_PREFIX + text[..a] && s[..p + b] == SUMMARY_PREFIX + text[..b];
    LongerTextIsLonger(s, p + a, p + b);
  }

  lemma InsertedWeight(ms: seq<Message>, m: Message)
    ensures |Inserted(ms, m)| == |ms| + 1 && Weight(Inserted(ms, m)) == Weight(ms) + Encoded(m) + 1
  {
    var a, b := ms[..Insertion(ms)], ms[Insertion(ms)..];
    assert ms == a + b;
    WeightConcat(a, b);
    WeightConcat(a + [m], b);
    WeightConcat(a, [m]);
    assert Weight([m]) == Encoded(m) + 1;
  }

  /** The longest prefix of the summary that fits, or no summary when not even the empty one does. */
  ghost predicate BestSummary(ms: seq<Message>, text: string, tools: Option<nat>, budget: nat, out: seq<Message>) {
    || (out == ms && forall n | 0 <= n <= |text| :: !SummaryFits(ms, text, n, tools, budget))
    || (exists n | 0 <= n <= |text| && SummaryFits(ms, text, n, tools, budget) ::
          && out == Inserted(ms, Summary(text[..n]))
          && forall l | n < l <= |text| :: !SummaryFits(ms, text, l, tools, budget))
  }

  /** `summary.replace(prefix, "")` */
  function Without(s: string, part: string): string
    requires part != []
  {
    if |s| < |part| then s
    else if s[..|part|] == part then Without(s[|part|..], part)
    else [s[0]] + Without(s[1..], part)
  }

  function Clipped(summary: string): string {
    var text := Without(summary, SUMMARY_PREFIX);
    text[..Min(4096, |text|)]
  }

  method InsertBoundedSummary(retained: seq<Message>, summary: string, tools: Option<nat>, budget: nat)
    returns (result: seq<Message>)
    ensures BestSummary(retained, Clipped(summary), tools, budget, result)
  {
    hide Inserted, Estimate, Clipped;
    var text := Clipped(summary);
    var low, high := 0, |text| as int;
    result := retained;
    while low <= high
      invariant 0 <= low <= high + 1 <= |text| + 1
      invariant low == 0 ==> result == retained
      invariant low > 0 ==> SummaryFits(retained, text, low - 1, tools, budget)
      invariant low > 0 ==> result == Inserted(retained, Summary(text[..low - 1]))
      invariant forall n | high < n <= |text| :: !SummaryFits(retained, text, n, tools, budget)
    {
      var length := (low + high) / 2;
      var candidate := Inserted(retained, Summary(text[..length]));
      if Estimate(candidate, tools) <= budget {
        result, low := candidate, length + 1;
      } else {
        forall n | length <= n <= |text|
          ensures !SummaryFits(retained, text, n, tools, budget)
        {
          if SummaryFits(retained, text, n, tools, budget) {
            ShorterSummaryFits(retained, text, length, n, tools, budget);
          }
        }
        high := length - 1;
      }
    }
  }

  // ---------------------------------------------------------------- the prepared request

  function SummaryReserve(free: nat): nat {
    if free >= 32 then Min(256, Max(32, free / 3)) else free
  }

  function Limit(b: seq<Message>, tools: Option<nat>, budget: nat): int {
    var minimum := Estimate(Select(b, Pinned(b)), tools);
    if minimum <= budget then budget - SummaryReserve(budget - minimum) else 0
  }

  function Removed(b: seq<Message>, kept: set<nat>): seq<Message> {
    Select(b, Range(Span(0, |b|)) - kept)
  }

  function Retained(b: seq<Message>, cut: nat): seq<Message>
    requires Accepted(b) && cut <= |Spans(b)|
  {
    Select(b, Kept(b, Spans(b), cut))
  }

  /** `out` keeps the newest exchanges from `cut` on and summarises the others. */
  ghost predicate CompactedFrom(c: Compactor, b: seq<Message>, tools: Option<nat>, cut: nat, out: seq<Message>)
    requires c.Valid() && Accepted(b)
  {
    && Estimate(Select(b, Pinned(b)), tools) <= c.Budget() && cut <= |Spans(b)|
    && Largest(b, Spans(b), cut, tools, Limit(b, tools, c.Budget()))
    && BestSummary(Retained(b, cut), Clipped(c.summarize(Removed(b, Kept(b, Spans(b), cut)))), tools,
         c.Budget(), out)
  }

  predicate OverBudgetRequest(c: Compactor, ms: seq<Message>, tools: Option<nat>)
    requires c.Valid()
  {
    Estimate(BoundAll(c, ms), tools) > c.Budget()
  }

  ghost predicate IsPrepared(c: Compactor, ms: seq<Message>, tools: Option<nat>, out: seq<Message>)
    requires c.Valid()
  {
    && Accepted(ms) && Accepted(BoundAll(c, ms))
    && if OverBudgetRequest(c, ms, tools)
       then exists cut :: CompactedFrom(c, BoundAll(c, ms), tools, cut, out)
       else out == BoundAll(c, ms)
  }

  lemma BoundKeepsGroups(c: Compactor, ms: seq<Message>)
    requires c.Valid()
    ensures Accepted(BoundAll(c, ms)) <==> Accepted(ms)
    ensures Accepted(ms) ==> Spans(BoundAll(c, ms)) == Spans(ms)
  {
    ShapeDecides(ms, BoundAll(c, ms), 0);
  }

  method Prepare(c: Compactor, ms: seq<Message>, tools: Option<nat>) returns (r: Outcome)
    requires c.Valid()
    ensures r.BadExchange? <==> !Accepted(ms)
    ensures r.OverBudget? <==>
      && Accepted(ms) && OverBudgetRequest(c, ms, tools)
      && Estimate(Select(BoundAll(c, ms), Pinned(BoundAll(c, ms))), tools) > c.Budget()
    ensures r.Prepared? ==> IsPrepared(c, ms, tools, r.messages)
  {
    hide Accepted, Spans, Estimate, Select, Pinned, Kept, Bounded, Largest, BestSummary;
    var prepared := new Message[|ms|](i requires 0 <= i < |ms| => ms[i]);
    var groups := Groups(ms);
    if groups.None? {
      return BadExchange;
    }
    var budget := c.Budget();
    assert prepared[..] == ms;
    BoundToolResults(c, prepared);
    var b := prepared[..];
    BoundKeepsGroups(c, ms);
    if Estimate(b, tools) <= budget {
      return Prepared(b);
    }
    var minimum := Select(b, Pinned(b));
    if Estimate(minimum, tools) > budget {
      return OverBudget;
    }
    var free := budget - Estimate(minimum, tools);
    var kept := Retain(b, groups.value, tools, budget - SummaryReserve(free));
    ghost var cut: nat :| cut <= |Spans(b)| && kept == Kept(b, Spans(b), cut)
      && Largest(b, Spans(b), cut, tools, budget - SummaryReserve(free));
    var result := InsertBoundedSummary(Select(b, kept), c.summarize(Removed(b, kept)), tools, budget);
    assert CompactedFrom(c, b, tools, cut, result);
    return Prepared(result);
  }

  // ---------------------------------------------------------------- soundness

  /** What is retained fits, even without the summary. */
  lemma RetainedFits(c: Compactor, b: seq<Message>, tools: Option<nat>, cut: nat, out: seq<Message>)
    requires c.Valid() && Accepted(b) && CompactedFrom(c, b, tools, cut, out)
    ensures Estimate(Retained(b, cut), tools) <= c.Budget()
    ensures Estimate(out, tools) <= c.Budget()
  {
    hide Accepted, Spans, Estimate, Select, Pinned, Kept, Inserted, Clipped;
  }

  /** A compacted request really removes something. */
  lemma SomethingIsRemoved(c: Compactor, b: seq<Message>, tools: Option<nat>, cut: nat, out: seq<Message>)
    requires c.Valid() && Accepted(b) && CompactedFrom(c, b, tools, cut, out)
    requires Estimate(b, tools) > c.Budget()
    ensures |Retained(b, cut)| < |b|
  {
    hide Accepted, Spans, Estimate, Pinned, BestSummary, Largest, Kept;
    RetainedFits(c, b, tools, cut, out);
    FullSelection(b, Kept(b, Spans(b), cut), 0);
  }

  lemma {:induction false} FullSelection(ms: seq<Message>, kept: set<nat>, off: nat)
    ensures |Select(ms, kept, off)| == |ms| ==> Select(ms, kept, off) == ms
  {
    if ms != [] {
      SelectStep(ms, kept, off);
      FullSelection(ms[1..], kept, off + 1);
    }
  }

  /** Each message is either retained or handed to the summary, never both. */
  lemma {:induction false} NothingIsLost(ms: seq<Message>, kept: set<nat>, all: set<nat>, off: nat)
    requires forall i | off <= i < off + |ms| :: i in all
    ensures multiset(Select(ms, kept, off)) + multiset(Select(ms, all - kept, off)) == multiset(ms)
    decreases |ms|
  {
    if ms != [] {
      NothingIsLost(ms[1..], kept, all, off + 1);
      SelectStep(ms, kept, off);
      SelectStep(ms, all - kept, off);
      hide Select;
      OneSide(ms, Select(ms[1..], kept, off + 1), Select(ms[1..], all - kept, off + 1));
    }
  }

  lemma OneSide(ms: seq<Message>, a: seq<Message>, b: seq<Message>)
    requires ms != [] && multiset(a) + multiset(b) == multiset(ms[1..])
    ensures multiset([ms[0]] + a) + multiset(b) == multiset(ms) == multiset(a) + multiset([ms[0]] + b)
  {
    assert ms == [ms[0]] + ms[1..];
    assert multiset([ms[0]] + a) == multiset{ms[0]} + multiset(a);
    assert multiset([ms[0]] + b) == multiset{ms[0]} + multiset(b);
  }

  lemma RetainedIsAccepted(b: seq<Message>, cut: nat)
    requires Accepted(b) && cut <= |Spans(b)|
    ensures Accepted(Retained(b, cut))
    ensures Essential(Retained(b, cut)) == Essential(b)
  {
    hide Accepted, Spans, Select, Whole;
    forall g | g in Spans(b)
      ensures Whole(Kept(b, Spans(b), cut), g)
    {
      KeptIsWhole(b, cut, g);
    }
    SelectionIsAccepted(b, Kept(b, Spans(b), cut), 0);
    PinnedIsKept(b, Kept(b, Spans(b), cut));
    SelectionKeepsEssential(b, Kept(b, Spans(b), cut), 0, false);
  }

  lemma SummarisedIsAccepted(ms: seq<Message>, text: string)
    requires Accepted(ms)
    ensures Accepted(Inserted(ms, Summary(text)))
    ensures Essential(Inserted(ms, Summary(text))) == Essential(ms)
  {
    hide Accepted, Insertion;
    InsertedIsAccepted(ms, Summary(text));
    EssentialIgnores(ms[..Insertion(ms)], Summary(text), ms[Insertion(ms)..], false);
    assert ms == ms[..Insertion(ms)] + ms[Insertion(ms)..];
  }

  lemma CompactedIsAccepted(c: Compactor, b: seq<Message>, tools: Option<nat>, cut: nat, out: seq<Message>)
    requires c.Valid() && Accepted(b) && CompactedFrom(c, b, tools, cut, out)
    ensures Accepted(out) && Essential(out) == Essential(b)
  {
    hide Accepted, Spans, Estimate, Select, Pinned, Kept, Largest, Clipped, Inserted, Retained, Essential;
    RetainedIsAccepted(b, cut);
    var text := Clipped(c.summarize(Removed(b, Kept(b, Spans(b), cut))));
    forall n | 0 <= n <= |text|
      ensures Accepted(Inserted(Retained(b, cut), Summary(text[..n])))
      ensures Essential(Inserted(Retained(b, cut), Summary(text[..n]))) == Essential(b)
    {
      SummarisedIsAccepted(Retained(b, cut), text[..n]);
    }
  }

  lemma {:induction false} BoundKeepsEssential(c: Compactor, ms: seq<Message>, seen: bool)
    requires c.Valid()
    ensures Essential(BoundAll(c, ms), seen) == Essential(ms, seen)
    decreases |ms|
  {
    if ms != [] {
      var b := BoundAll(c, ms);
      assert b[1..] == BoundAll(c, ms[1..]) && SameShape(b[0], ms[0]);
      BoundKeepsEssential(c, ms[1..], seen);
      BoundKeepsEssential(c, ms[1..], true);
      assert NoUser(b[1..]) <==> NoUser(ms[1..]) by {
        assert forall i | 0 <= i < |ms[1..]| :: SameShape(b[1..][i], ms[1..][i]);
      }
    }
  }

  /** Every message of a compacted request is one of the bounded messages or the summary. */
  lemma {:induction false} SelectedFrom(ms: seq<Message>, kept: set<nat>, off: nat, k: nat) returns (i: nat)
    requires k < |Select(ms, kept, off)|
    ensures off <= i < off + |ms| && i in kept && Select(ms, kept, off)[k] == ms[i - off]
  {
    SelectStep(ms, kept, off);
    if off in kept && k == 0 {
      i := off;
    } else {
      i := SelectedFrom(ms[1..], kept, off + 1, if off in kept then k - 1 else k);
    }
  }

  predicate Settled(c: Compactor, ms: seq<Message>)
    requires c.Valid()
  {
    forall i | 0 <= i < |ms| :: Bounded(c, ms[i]) == ms[i]
  }

  lemma SelectionIsSettled(c: Compactor, ms: seq<Message>, kept: set<nat>)
    requires c.Valid() && Settled(c, ms)
    ensures Settled(c, Select(ms, kept))
  {
    hide Bounded, Select;
    forall k | 0 <= k < |Select(ms, kept)|
      ensures Bounded(c, Select(ms, kept)[k]) == Select(ms, kept)[k]
    {
      var i := SelectedFrom(ms, kept, 0, k);
    }
  }

  lemma SummarisedIsSettled(c: Compactor, ms: seq<Message>, text: string)
    requires c.Valid() && Settled(c, ms)
    ensures Settled(c, Inserted(ms, Summary(text)))
  {
    hide Insertion;
    assert Bounded(c, Summary(text)) == Summary(text);
  }

  lemma CompactedIsSettled(c: Compactor, b: seq<Message>, tools: Option<nat>, cut: nat, out: seq<Message>)
    requires c.Valid() && Accepted(b) && CompactedFrom(c, b, tools, cut, out) && Settled(c, b)
    ensures Settled(c, out)
  {
    hide Accepted, Spans, Estimate, Select, Pinned, Kept, Largest, Clipped, Inserted, Settled;
    SelectionIsSettled(c, b, Kept(b, Spans(b), cut));
    var text := Clipped(c.summarize(Removed(b, Kept(b, Spans(b), cut))));
    forall n | 0 <= n <= |text|
      ensures Settled(c, Inserted(Retained(b, cut), Summary(text[..n])))
    {
      SummarisedIsSettled(c, Retained(b, cut), text[..n]);
    }
  }

  lemma BoundIsSettled(c: Compactor, ms: seq<Message>)
    requires c.Valid()
    ensures Settled(c, BoundAll(c, ms))
  {
    hide Bounded;
    BoundTwice(c, ms);
    var b := BoundAll(c, ms);
    assert forall i | 0 <= i < |b| :: BoundAll(c, b)[i] == Bounded(c, b[i]);
  }

  /** Whatever is returned is within the budget, splits no exchange, and carries every instruction and
      the first and last user message in their order. */
  lemma PreparedIsSafe(c: Compactor, ms: seq<Message>, tools: Option<nat>, out: seq<Message>)
    requires c.Valid() && IsPrepared(c, ms, tools, out)
    ensures Estimate(out, tools) <= c.Budget()
    ensures Accepted(out) && Settled(c, out)
    ensures Essential(out) == Essential(ms)
  {
    hide Accepted, Estimate, Essential, CompactedFrom, Settled;
    var b := BoundAll(c, ms);
    BoundKeepsEssential(c, ms, false);
    BoundIsSettled(c, ms);
    if OverBudgetRequest(c, ms, tools) {
      var cut :| CompactedFrom(c, b, tools, cut, out);
      RetainedFits(c, b, tools, cut, out);
      CompactedIsAccepted(c, b, tools, cut, out);
      CompactedIsSettled(c, b, tools, cut, out);
    }
  }

  /** A prepared request can always be prepared again, and that changes nothing. */
  lemma PreparingTwiceIsPreparingOnce(c: Compactor, ms: seq<Message>, tools: Option<nat>, once: seq<Message>)
    requires c.Valid() && IsPrepared(c, ms, tools, once)
    ensures IsPrepared(c, once, tools, once)
    ensures forall twice | IsPrepared(c, once, tools, twice) :: twice == once
  {
    hide Accepted, Estimate, Essential, CompactedFrom, Bounded;
    PreparedIsSafe(c, ms, tools, once);
    assert BoundAll(c, once) == once;
  }

  function Summaries(ms: seq<Message>): nat {
    if ms == [] then 0 else (if IsSummary(ms[0]) then 1 else 0) + Summaries(ms[1..])
  }

  lemma {:induction false} NoSummaries(ms: seq<Message>)
    requires forall i | 0 <= i < |ms| :: !IsSummary(ms[i])
    ensures Summaries(ms) == 0
  {
    if ms != [] {
      NoSummaries(ms[1..]);
    }
  }

  lemma {:induction false} SummariesConcat(a: seq<Message>, b: seq<Message>)
    ensures Summaries(a + b) == Summaries(a) + Summaries(b)
  {
    if a == [] {
      assert a + b == b;
    } else {
      assert (a + b)[1..] == a[1..] + b;
      SummariesConcat(a[1..], b);
    }
  }

  lemma InsertedSummaries(ms: seq<Message>, m: Message)
    ensures Summaries(Inserted(ms, m)) <= Summaries(ms) + 1
  {
    var a, b := ms[..Insertion(ms)], ms[Insertion(ms)..];
    assert ms == a + b;
    SummariesConcat(a, b);
    SummariesConcat(a + [m], b);
    SummariesConcat(a, [m]);
    assert Summaries([m]) <= 1;
  }

  /** Old summaries are folded into the new one: a compacted request holds at most one. */
  lemma AtMostOneSummary(c: Compactor, b: seq<Message>, tools: Option<nat>, cut: nat, out: seq<Message>)
    requires c.Valid() && Accepted(b) && CompactedFrom(c, b, tools, cut, out)
    ensures Summaries(out) <= 1
  {
    hide Accepted, Spans, Estimate, Select, Pinned, Kept, Largest, Clipped, Inserted, IsSummary;
    var kept := Kept(b, Spans(b), cut);
    var retained := Retained(b, cut);
    forall k | 0 <= k < |retained|
      ensures !IsSummary(retained[k])
    {
      var i := SelectedFrom(b, kept, 0, k);
      KeptHasNoSummary(b, Spans(b), cut, i);
    }
    NoSummaries(retained);
    var text := Clipped(c.summarize(Removed(b, kept)));
    forall n | 0 <= n <= |text|
      ensures Summaries(Inserted(retained, Summary(text[..n]))) <= 1
    {
      InsertedSummaries(retained, Summary(text[..n]));
    }
  }
}
