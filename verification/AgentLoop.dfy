/** The tool loop of an agent: how often the model is called, when repeated tool batches are stopped, and
    that the conversation it builds stays one the request scanner accepts. */
module AgentLoop {
  import opened Wrappers
  import opened Transcript
  import Compaction

  // ---------------------------------------------------------------- repeats

  /** How many of the last entries equal the very last one. */
  function Trailing(history: seq<string>): nat {
    if history == [] then 0
    else if |history| >= 2 && history[|history| - 2] == history[|history| - 1]
    then Trailing(history[..|history| - 1]) + 1
    else 1
  }

  datatype Action = Continue | Reflect | Terminate

  function Decision(repeats: nat, repeatLimit: nat, used: nat, maxReflections: nat): Action {
    if repeats < repeatLimit then Continue else if used < maxReflections then Reflect else Terminate
  }

  class ResilienceController {
    const repeatLimit: nat
    const maxReflections: nat
    var reflectionsUsed: nat
    var lastCalls: Option<string>
    var lastResults: Option<string>
    var callRepeats: nat
    var resultRepeats: nat
    ghost var callHistory: seq<string>
    ghost var resultHistory: seq<string>

    /** The counters are the lengths of the trailing runs of equal fingerprints. */
    ghost predicate Valid()
      reads this
    {
      && repeatLimit >= 1 && reflectionsUsed <= maxReflections
      && callRepeats == Trailing(callHistory) && resultRepeats == Trailing(resultHistory)
      && lastCalls == Last(callHistory) && lastResults == Last(resultHistory)
    }

    constructor (repeatLimit: nat, maxReflections: nat)
      requires repeatLimit >= 1
      ensures Valid() && callHistory == [] && resultHistory == [] && reflectionsUsed == 0 && fresh(this)
      ensures this.repeatLimit == repeatLimit && this.maxReflections == maxReflections
    {
      this.repeatLimit, this.maxReflections := repeatLimit, maxReflections;
      reflectionsUsed, callRepeats, resultRepeats, lastCalls, lastResults := 0, 0, 0, None, None;
      callHistory, resultHistory := [], [];
    }

    method ObserveCalls(fingerprint: string) returns (action: Action)
      requires Valid()
      modifies this`callRepeats, this`lastCalls, this`callHistory
      ensures Valid() && callHistory == old(callHistory) + [fingerprint]
      ensures action == Decision(Trailing(callHistory), repeatLimit, reflectionsUsed, maxReflections)
    {
      TrailingStep(callHistory, fingerprint);
      callRepeats := if lastCalls == Some(fingerprint) then callRepeats + 1 else 1;
      lastCalls := Some(fingerprint);
      callHistory := callHistory + [fingerprint];
      return Decision(callRepeats, repeatLimit, reflectionsUsed, maxReflections);
    }

    method ObserveResults(fingerprint: string) returns (action: Action)
      requires Valid()
      modifies this`resultRepeats, this`lastResults, this`resultHistory
      ensures Valid() && resultHistory == old(resultHistory) + [fingerprint]
      ensures action == Decision(Trailing(resultHistory), repeatLimit, reflectionsUsed, maxReflections)
    {
      TrailingStep(resultHistory, fingerprint);
      resultRepeats := if lastResults == Some(fingerprint) then resultRepeats + 1 else 1;
      lastResults := Some(fingerprint);
      resultHistory := resultHistory + [fingerprint];
      return Decision(resultRepeats, repeatLimit, reflectionsUsed, maxReflections);
    }

    method MarkReflectionUsed()
      requires Valid()
      modifies this`reflectionsUsed
      ensures Valid()
      ensures reflectionsUsed
           == if old(reflectionsUsed) < maxReflections then old(reflectionsUsed) + 1 else maxReflections
    {
      reflectionsUsed := if reflectionsUsed + 1 < maxReflections then reflectionsUsed + 1 else maxReflections;
    }
  }

  function Last(history: seq<string>): Option<string> {
    if history == [] then None else Some(history[|history| - 1])
  }

  lemma TrailingStep(history: seq<string>, fingerprint: string)
    ensures Trailing(history + [fingerprint]) == if Last(history) == Some(fingerprint) then Trailing(history) + 1 else 1
  {
    assert (history + [fingerprint])[..|history|] == history;
  }

  /** Inside a stretch of equal fingerprints the counter grows by one each time. */
  lemma {:induction false} TrailingInStretch(history: seq<string>, lo: nat, hi: nat)
    requires lo <= hi < |history| && forall i | lo <= i <= hi :: history[i] == history[lo]
    ensures Trailing(history[..hi + 1]) >= hi - lo + 1
    decreases hi
  {
    if hi > lo {
      TrailingInStretch(history, lo, hi - 1);
      assert history[..hi + 1] == history[..hi] + [history[hi]];
      TrailingStep(history[..hi], history[hi]);
      assert history[..hi][hi - 1] == history[hi - 1];
    } else {
      assert history[..hi + 1] == history[..hi] + [history[hi]];
      TrailingStep(history[..hi], history[hi]);
    }
  }

  function CountTrue(flags: seq<bool>): nat {
    if flags == [] then 0 else (if flags[0] then 1 else 0) + CountTrue(flags[1..])
  }

  /** A batch runs exactly while its counter is below the limit. */
  predicate StoppedWhenRepeated(history: seq<string>, ran: seq<bool>, limit: nat) {
    |ran| == |history| && forall i | 0 <= i < |ran| :: ran[i] <==> Trailing(history[..i + 1]) < limit
  }

  /** So in any stretch of identical consecutive batches fewer than `limit` run. */
  lemma {:induction false} RepeatsAreStopped(history: seq<string>, ran: seq<bool>, limit: nat, lo: nat, hi: nat)
    requires StoppedWhenRepeated(history, ran, limit) && limit >= 1
    requires lo <= hi <= |history| && forall i | lo <= i < hi :: history[i] == history[lo]
    ensures CountTrue(ran[lo..hi]) <= limit - 1
    decreases hi - lo
  {
    if hi > lo {
      var shorter := ran[lo..hi - 1];
      CountLast(ran, lo, hi);
      RepeatsAreStopped(history, ran, limit, lo, hi - 1);
      CountAtMost(shorter);
      if ran[hi - 1] {
        TrailingInStretch(history, lo, hi - 1);
      }
    }
  }

  lemma {:induction false} CountAtMost(flags: seq<bool>)
    ensures CountTrue(flags) <= |flags|
  {
    if flags != [] {
      CountAtMost(flags[1..]);
    }
  }

  lemma {:induction false} CountLast(flags: seq<bool>, lo: nat, hi: nat)
    requires lo < hi <= |flags|
    ensures CountTrue(flags[lo..hi]) == CountTrue(flags[lo..hi - 1]) + (if flags[hi - 1] then 1 else 0)
    decreases hi - lo
  {
    assert flags[lo..hi][1..] == flags[lo + 1..hi];
    if hi > lo + 1 {
      assert flags[lo..hi - 1][1..] == flags[lo + 1..hi - 1];
      CountLast(flags, lo + 1, hi);
    }
  }

  // ---------------------------------------------------------------- the conversation

  function Digits(n: nat): string {
    if n < 10 then [('0' as int + n) as char] else Digits(n / 10) + [('0' as int + n % 10) as char]
  }

  /** A call without an id is given one from its position. */
  function Named(prefix: string, call: Call, i: nat): Call {
    if call.id.Some? && call.id.value != "" then call else call.(id := Some(prefix + Digits(i)))
  }

  function Normalized(prefix: string, calls: seq<Call>): (r: seq<Call>)
    ensures |r| == |calls| && forall i | 0 <= i < |r| :: r[i] == Named(prefix, calls[i], i)
  {
    seq(|calls|, i requires 0 <= i < |calls| => Named(prefix, calls[i], i))
  }

  // The numbers below are the lengths of the punctuation, keys and fixed values of a message in compact JSON.

  /** The encoded length of an id, or of `null`. */
  function IdLength(id: Option<string>): nat {
    match id
    case None => 4
    case Some(s) => 2 + Compaction.TextLength(s)
  }

  function CallLength(call: Call): nat {
    59 + IdLength(call.id)
    + 2 + Compaction.TextLength(call.name) + 2 + Compaction.TextLength(call.arguments)
  }

  /** The encoded calls, each with a comma or the closing bracket. */
  function CallsLength(calls: seq<Call>): nat {
    if calls == [] then 0 else CallLength(calls[0]) + 1 + CallsLength(calls[1..])
  }

  /** An assistant message without reasoning. */
  function CallMessage(calls: seq<Call>): Message {
    Message(Assistant, Absent, calls, None, [], 50 + CallsLength(calls))
  }

  function ResultMessage(call: Call, content: string): Message {
    Message(Tool, Text(content), [], call.id, [], 42 + IdLength(call.id))
  }

  /** A system message: the feedback of a reflection, or a prompt added to a request. */
  function Feedback(text: string): Message {
    Message(System, Text(text), [], None, [], 28)
  }

  /** What running one call gives. */
  datatype Outcome = Outcome(content: string, awaiting: bool)

  /** A batch stops after the first call that has to wait for approval. */
  function Executed(outcomes: seq<Outcome>): (n: nat)
    ensures n <= |outcomes|
  {
    if outcomes == [] then 0 else if outcomes[0].awaiting then 1 else 1 + Executed(outcomes[1..])
  }

  lemma {:induction false} AllExecuted(outcomes: seq<Outcome>)
    ensures Executed(outcomes) == |outcomes| <==> forall i | 0 <= i < |outcomes| - 1 :: !outcomes[i].awaiting
  {
    if outcomes != [] {
      AllExecuted(outcomes[1..]);
      if !outcomes[0].awaiting {
        assert forall i | 0 <= i < |outcomes[1..]| - 1 :: outcomes[1..][i] == outcomes[i + 1];
        assert forall i | 0 < i < |outcomes| - 1 :: outcomes[i] == outcomes[1..][i - 1];
      }
    }
  }

  method ExecuteBatch(outcomes: seq<Outcome>) returns (done: seq<Outcome>)
    ensures done == outcomes[..Executed(outcomes)]
  {
    done := [];
    var i := 0;
    while i < |outcomes|
      invariant i <= |outcomes| && done == outcomes[..i]
      invariant Executed(outcomes) == i + Executed(outcomes[i..])
    {
      done := done + [outcomes[i]];
      assert outcomes[i..][1..] == outcomes[i + 1..];
      if outcomes[i].awaiting {
        return;
      }
      i := i + 1;
    }
    assert outcomes[i..] == [];
  }

  function Results(calls: seq<Call>, outcomes: seq<Outcome>): (r: seq<Message>)
    requires |outcomes| <= |calls|
    ensures |r| == |outcomes| && forall i | 0 <= i < |r| :: r[i] == ResultMessage(calls[i], outcomes[i].content)
  {
    seq(|outcomes|, i requires 0 <= i < |outcomes| => ResultMessage(calls[i], outcomes[i].content))
  }

  /** The messages of one executed batch form an exchange exactly when its call ids differ and every call
      was run. */
  lemma BatchIsExchange(calls: seq<Call>, outcomes: seq<Outcome>)
    requires |outcomes| <= |calls| && calls != [] && forall i | 0 <= i < |calls| :: calls[i].id.Some?
    ensures var batch := [CallMessage(calls)] + Results(calls, outcomes);
      Accepted(batch) <==> Distinct(CallIds(calls)) && |outcomes| == |calls|
  {
    var batch := [CallMessage(calls)] + Results(calls, outcomes);
    var ids := CallIds(calls);
    assert Head(batch) == |calls| + 1;
    if |outcomes| == |calls| {
      assert batch[..|batch|] == batch && batch[|batch|..] == [];
      assert forall k | 1 <= k < |batch| :: batch[k].toolCallId == ids[k - 1];
      assert Distinct(ids) <==> Exchange(batch);
      AcceptedEmpty();
    }
  }

  // ---------------------------------------------------------------- the loop

  /** What one round brings: the model's calls and their fingerprint, what running them gives and the
      fingerprint of that, and whether a reflection succeeds when it is asked for. */
  datatype Round = Round(
    calls: seq<Call>, fingerprint: string, outcomes: seq<Outcome>, resultFingerprint: string,
    reflection: Option<string>)

  predicate WellFormedRound(r: Round) {
    |r.outcomes| == |r.calls|
  }

  /** Whether the batch of a round keeps the conversation acceptable. */
  predicate Clean(r: Round) {
    Distinct(CallIds(Normalized("call_", r.calls))) && Executed(r.outcomes) == |r.calls|
  }

  /** The call message of a round and the results of what was run of it. */
  function Batch(r: Round): seq<Message>
    requires WellFormedRound(r)
  {
    var calls := Normalized("call_", r.calls);
    [CallMessage(calls)] + Results(calls, r.outcomes[..Executed(r.outcomes)])
  }

  // ---------------------------------------------------------------- what is written

  /** What a round adds to the conversation: its batch, or the feedback of a reflection. */
  datatype Entry = Ran(round: nat) | Reflected(round: nat)

  predicate ValidEntry(rounds: seq<Round>, entry: Entry) {
    && entry.round < |rounds| && WellFormedRound(rounds[entry.round]) && rounds[entry.round].calls != []
    && (entry.Reflected? ==> rounds[entry.round].reflection.Some?)
  }

  predicate ValidLog(rounds: seq<Round>, log: seq<Entry>) {
    forall i | 0 <= i < |log| :: ValidEntry(rounds, log[i])
  }

  function Written(rounds: seq<Round>, log: seq<Entry>): seq<Message>
    requires ValidLog(rounds, log)
  {
    if log == [] then []
    else
      var n := |log| - 1;
      var r := rounds[log[n].round];
      Written(rounds, log[..n]) + (if log[n].Ran? then Batch(r) else [Feedback(r.reflection.value)])
  }

  predicate CleanLog(rounds: seq<Round>, log: seq<Entry>)
    requires ValidLog(rounds, log)
  {
    forall i | 0 <= i < |log| :: log[i].Ran? ==> Clean(rounds[log[i].round])
  }

  lemma BatchKeeps(messages: seq<Message>, r: Round)
    requires WellFormedRound(r) && r.calls != []
    ensures Accepted(messages + Batch(r)) <==> Accepted(messages) && Clean(r)
  {
    hide Accepted, Distinct, Executed;
    var calls := Normalized("call_", r.calls);
    BatchIsExchange(calls, r.outcomes[..Executed(r.outcomes)]);
    AcceptedConcat(messages, Batch(r));
  }

  lemma FeedbackKeeps(messages: seq<Message>, text: string)
    ensures Accepted(messages + [Feedback(text)]) <==> Accepted(messages)
  {
    AcceptedConcat(messages, [Feedback(text)]);
    assert [Feedback(text)][..1] == [Feedback(text)] && [Feedback(text)][1..] == [];
    AcceptedEmpty();
    assert Lone([Feedback(text)]);
  }

  /** The conversation stays one the scanner accepts exactly as long as every batch run had distinct call
      ids and left no call without a result. */
  lemma {:induction false} ConversationIsAccepted(initial: seq<Message>, rounds: seq<Round>, log: seq<Entry>)
    requires ValidLog(rounds, log)
    ensures Accepted(initial + Written(rounds, log)) <==> Accepted(initial) && CleanLog(rounds, log)
    decreases |log|
  {
    hide Accepted, Clean, Batch, Feedback;
    if log == [] {
      assert initial + [] == initial;
    } else {
      var n := |log| - 1;
      var before, r := initial + Written(rounds, log[..n]), rounds[log[n].round];
      ConversationIsAccepted(initial, rounds, log[..n]);
      assert log == log[..n] + [log[n]];
      if log[n].Ran? {
        BatchKeeps(before, r);
        assert initial + Written(rounds, log) == before + Batch(r);
      } else {
        FeedbackKeeps(before, r.reflection.value);
        assert initial + Written(rounds, log) == before + [Feedback(r.reflection.value)];
      }
    }
  }

  /** A request is the conversation as far as some part of the log; a reflection is asked for with a prompt
      after it, and a summary is retried with a prompt before it. */
  predicate SentAt(initial: seq<Message>, rounds: seq<Round>, log: seq<Entry>, request: seq<Message>, n: nat)
    requires ValidLog(rounds, log) && n <= |log|
  {
    var now := initial + Written(rounds, log[..n]);
    || request == now || Prompted(request, now) || Retried(request, now)
  }

  predicate Prompted(request: seq<Message>, now: seq<Message>) {
    |request| == |now| + 1 && request[|now|].content.Text? && request == now + [Feedback(request[|now|].content.text)]
  }

  predicate Retried(request: seq<Message>, now: seq<Message>) {
    |request| == |now| + 1 && request[0].content.Text? && request == [Feedback(request[0].content.text)] + now
  }

  ghost predicate IsRequest(initial: seq<Message>, rounds: seq<Round>, log: seq<Entry>, request: seq<Message>)
    requires ValidLog(rounds, log)
  {
    exists n | 0 <= n <= |log| :: SentAt(initial, rounds, log, request, n)
  }

  lemma PromptKeeps(request: seq<Message>, now: seq<Message>)
    requires request == now || Prompted(request, now) || Retried(request, now)
    ensures Accepted(request) <==> Accepted(now)
  {
    hide Accepted;
    if Prompted(request, now) {
      FeedbackKeeps(now, request[|now|].content.text);
    }
    if Retried(request, now) {
      PrependChunk([Feedback(request[0].content.text)], now);
    }
  }

  /** With clean rounds every request is accepted, those for reflections and retries included. */
  lemma RequestsAreAccepted(initial: seq<Message>, rounds: seq<Round>, log: seq<Entry>, request: seq<Message>)
    requires ValidLog(rounds, log) && CleanLog(rounds, log) && Accepted(initial)
    requires IsRequest(initial, rounds, log, request)
    ensures Accepted(request)
  {
    hide Accepted, Clean, Written, Prompted, Retried;
    var n :| 0 <= n <= |log| && SentAt(initial, rounds, log, request, n);
    ConversationIsAccepted(initial, rounds, log[..n]);
    PromptKeeps(request, initial + Written(rounds, log[..n]));
  }

  ghost predicate AllRequests(initial: seq<Message>, rounds: seq<Round>, log: seq<Entry>, sent: seq<seq<Message>>)
    requires ValidLog(rounds, log)
  {
    forall k | 0 <= k < |sent| :: IsRequest(initial, rounds, log, sent[k])
  }

  lemma SendNow(
    initial: seq<Message>, rounds: seq<Round>, log: seq<Entry>, sent: seq<seq<Message>>, request: seq<Message>)
    requires ValidLog(rounds, log) && AllRequests(initial, rounds, log, sent)
    requires var now := initial + Written(rounds, log);
      request == now || Prompted(request, now) || Retried(request, now)
    ensures AllRequests(initial, rounds, log, sent + [request])
  {
    hide Written, ValidLog, Prompted, Retried;
    assert log[..|log|] == log;
    assert SentAt(initial, rounds, log, request, |log|);
    var more := sent + [request];
    forall k | 0 <= k < |more|
      ensures IsRequest(initial, rounds, log, more[k])
    {
      assert k < |sent| ==> more[k] == sent[k];
    }
  }

  lemma PromptsAreShaped(now: seq<Message>, text: string)
    ensures Prompted(now + [Feedback(text)], now) && Retried([Feedback(text)] + now, now)
  {
  }

  lemma WriteOne(initial: seq<Message>, rounds: seq<Round>, log: seq<Entry>, sent: seq<seq<Message>>, entry: Entry)
    requires ValidLog(rounds, log) && ValidEntry(rounds, entry) && AllRequests(initial, rounds, log, sent)
    ensures ValidLog(rounds, log + [entry]) && AllRequests(initial, rounds, log + [entry], sent)
    ensures var r := rounds[entry.round];
      initial + Written(rounds, log + [entry])
      == initial + Written(rounds, log) + (if entry.Ran? then Batch(r) else [Feedback(r.reflection.value)])
  {
    hide Batch, Feedback, Prompted, Retried;
    var more := log + [entry];
    assert more[..|log|] == log;
    forall k | 0 <= k < |sent|
      ensures IsRequest(initial, rounds, more, sent[k])
    {
      assert IsRequest(initial, rounds, log, sent[k]);
      var n :| 0 <= n <= |log| && SentAt(initial, rounds, log, sent[k], n);
      assert more[..n] == log[..n];
      assert SentAt(initial, rounds, more, sent[k], n);
    }
  }

  // ---------------------------------------------------------------- which batches ran

  /** Entries are in the order of their rounds, a batch before the reflection on its results. */
  predicate InOrder(log: seq<Entry>) {
    forall i, j | 0 <= i < j < |log| ::
      log[i].round < log[j].round || (log[i].Ran? && log[j] == Reflected(log[i].round))
  }

  /** `ran` says, for each round that asked for tools, whether its batch is in the log. */
  predicate RanAsLogged(log: seq<Entry>, ran: seq<bool>) {
    && InOrder(log) && (forall i | 0 <= i < |log| :: log[i].round < |ran|)
    && (forall k | 0 <= k < |ran| :: ran[k] <==> Ran(k) in log)
  }

  function Fingerprints(rounds: seq<Round>, n: nat): (r: seq<string>)
    requires n <= |rounds|
    ensures |r| == n && forall k | 0 <= k < n :: r[k] == rounds[k].fingerprint
  {
    seq(n, k requires 0 <= k < n => rounds[k].fingerprint)
  }

  /** How many batches of the rounds from `lo` to before `hi` were run. */
  function RanBetween(log: seq<Entry>, lo: nat, hi: nat): nat {
    if log == [] then 0
    else (if log[0].Ran? && lo <= log[0].round < hi then 1 else 0) + RanBetween(log[1..], lo, hi)
  }

  lemma {:induction false} RanSplits(log: seq<Entry>, lo: nat, mid: nat, hi: nat)
    requires lo <= mid <= hi
    ensures RanBetween(log, lo, hi) == RanBetween(log, lo, mid) + RanBetween(log, mid, hi)
    decreases |log|
  {
    if log != [] {
      RanSplits(log[1..], lo, mid, hi);
    }
  }

  lemma {:induction false} RanOnce(log: seq<Entry>, k: nat)
    requires InOrder(log)
    ensures RanBetween(log, k, k + 1) == if Ran(k) in log then 1 else 0
    decreases |log|
  {
    if log != [] {
      RanOnce(log[1..], k);
      assert log == [log[0]] + log[1..];
      assert log[0] == Ran(k) ==> Ran(k) !in log[1..];
    }
  }

  lemma {:induction false} RanIsCounted(log: seq<Entry>, ran: seq<bool>, lo: nat, hi: nat)
    requires RanAsLogged(log, ran) && lo <= hi <= |ran|
    ensures RanBetween(log, lo, hi) == CountTrue(ran[lo..hi])
    decreases hi - lo
  {
    if hi == lo {
      NothingBetween(log, lo, hi, hi);
    } else {
      RanIsCounted(log, ran, lo, hi - 1);
      RanSplits(log, lo, hi - 1, hi);
      RanOnce(log, hi - 1);
      CountLast(ran, lo, hi);
    }
  }

  /** Rounds from `bound` on that no entry mentions ran nothing. */
  lemma {:induction false} NothingBetween(log: seq<Entry>, lo: nat, hi: nat, bound: nat)
    requires lo >= hi || (lo >= bound && forall i | 0 <= i < |log| :: log[i].round < bound)
    ensures RanBetween(log, lo, hi) == 0
    decreases |log|
  {
    if log != [] {
      NothingBetween(log[1..], lo, hi, bound);
    }
  }

  /** Of identical consecutive batches fewer than the limit are run: in any stretch of rounds with equal
      fingerprints the log holds at most `limit - 1` executed batches. */
  lemma RepeatedBatchesAreBounded(rounds: seq<Round>, log: seq<Entry>, ran: seq<bool>, limit: nat, lo: nat, hi: nat)
    requires RanAsLogged(log, ran) && |ran| <= |rounds| && limit >= 1
    requires StoppedWhenRepeated(Fingerprints(rounds, |ran|), ran, limit)
    requires lo <= hi <= |rounds| && forall k | lo <= k < hi :: rounds[k].fingerprint == rounds[lo].fingerprint
    ensures RanBetween(log, lo, hi) <= limit - 1
  {
    var last := if hi <= |ran| then hi else if lo <= |ran| then |ran| else lo;
    RanSplits(log, lo, last, hi);
    NothingBetween(log, last, hi, |ran|);
    if lo <= |ran| {
      RanIsCounted(log, ran, lo, last);
      RepeatsAreStopped(Fingerprints(rounds, |ran|), ran, limit, lo, last);
    } else {
      NothingBetween(log, lo, last, |ran|);
    }
  }

  // ---------------------------------------------------------------- running it

  lemma StoppedStep(history: seq<string>, ran: seq<bool>, limit: nat, fingerprint: string, runs: bool)
    requires StoppedWhenRepeated(history, ran, limit)
    requires runs <==> Trailing(history + [fingerprint]) < limit
    ensures StoppedWhenRepeated(history + [fingerprint], ran + [runs], limit)
  {
    var h, f := history + [fingerprint], ran + [runs];
    forall i | 0 <= i < |f|
      ensures f[i] <==> Trailing(h[..i + 1]) < limit
    {
      assert i < |ran| ==> h[..i + 1] == history[..i + 1];
      assert i == |ran| ==> h[..i + 1] == h;
    }
  }

  /** What the loop leaves behind: the conversation, every request made of the model, and for each round
      that asked for tools whether its batch ran. */
  datatype Effects = Effects(messages: seq<Message>, sent: seq<seq<Message>>, ran: seq<bool>)

  method RunBatch(messages: seq<Message>, round: Round) returns (out: seq<Message>)
    requires WellFormedRound(round)
    ensures out == messages + Batch(round)
  {
    var calls := Normalized("call_", round.calls);
    var done := ExecuteBatch(round.outcomes);
    out := messages + [CallMessage(calls)];
    for i := 0 to |done|
      invariant out == messages + ([CallMessage(calls)] + Results(calls, done[..i]))
    {
      out := out + [ResultMessage(calls[i], done[i].content)];
      assert Results(calls, done[..i + 1]) == Results(calls, done[..i]) + [ResultMessage(calls[i], done[i].content)];
    }
    assert done[..|done|] == done;
  }

  lemma Begin(initial: seq<Message>, rounds: seq<Round>, limit: nat)
    ensures Accounts(initial, rounds, [], Effects(initial, [], [])) && StoppedWhenRepeated([], [], limit)
    ensures Fingerprints(rounds, 0) == []
  {
  }

  /** A round that asked for tools is noted, with its batch if it ran. */
  lemma NoteRound(log: seq<Entry>, ran: seq<bool>, runs: bool)
    requires RanAsLogged(log, ran)
    ensures RanAsLogged(if runs then log + [Ran(|ran|)] else log, ran + [runs])
  {
    var more := if runs then log + [Ran(|ran|)] else log;
    forall k | 0 <= k < |ran| + 1
      ensures (ran + [runs])[k] <==> Ran(k) in more
    {
      assert k < |ran| ==> (ran[k] <==> Ran(k) in log);
      assert !runs && k == |ran| ==> Ran(k) !in log;
      assert runs ==> more[|log|] == Ran(|ran|);
    }
  }

  lemma NoteReflection(log: seq<Entry>, ran: seq<bool>)
    requires RanAsLogged(log, ran) && |ran| > 0 && Reflected(|ran| - 1) !in log
    ensures RanAsLogged(log + [Reflected(|ran| - 1)], ran)
  {
    var more := log + [Reflected(|ran| - 1)];
    forall k | 0 <= k < |ran|
      ensures ran[k] <==> Ran(k) in more
    {
      assert Ran(k) in more <==> Ran(k) in log;
    }
  }

  lemma NotReflectedYet(log: seq<Entry>, ran: seq<bool>, runs: bool)
    requires RanAsLogged(log, ran)
    ensures Reflected(|ran|) !in (if runs then log + [Ran(|ran|)] else log)
  {
  }

  lemma NextFingerprint(rounds: seq<Round>, n: nat)
    requires n < |rounds|
    ensures Fingerprints(rounds, n + 1) == Fingerprints(rounds, n) + [rounds[n].fingerprint]
  {
  }

  /** The log is a true account of the effects so far. */
  ghost predicate Accounts(initial: seq<Message>, rounds: seq<Round>, log: seq<Entry>, e: Effects) {
    && ValidLog(rounds, log) && e.messages == initial + Written(rounds, log)
    && AllRequests(initial, rounds, log, e.sent) && RanAsLogged(log, e.ran)
  }

  /** Ask for a reflection on the latest round; it costs a model call, and only a successful one is charged. */
  method AttemptReflection(
    controller: ResilienceController, e: Effects, prompt: string, ghost initial: seq<Message>, rounds: seq<Round>,
    ghost log: seq<Entry>)
    returns (out: Effects, ghost log': seq<Entry>)
    requires controller.Valid() && controller.reflectionsUsed < controller.maxReflections
    requires 0 < |e.ran| <= |rounds| && WellFormedRound(rounds[|e.ran| - 1]) && rounds[|e.ran| - 1].calls != []
    requires Accounts(initial, rounds, log, e) && Reflected(|e.ran| - 1) !in log
    modifies controller`reflectionsUsed
    ensures controller.Valid() && Accounts(initial, rounds, log', out)
    ensures var reflection := rounds[|e.ran| - 1].reflection;
      && controller.reflectionsUsed == old(controller.reflectionsUsed) + (if reflection.Some? then 1 else 0)
      && out == Effects(if reflection.Some? then e.messages + [Feedback(reflection.value)] else e.messages,
                        e.sent + [e.messages + [Feedback(prompt)]], e.ran)
  {
    hide ValidLog, AllRequests, RanAsLogged, Written, Feedback, Prompted, Retried;
    var reflection := rounds[|e.ran| - 1].reflection;
    PromptsAreShaped(e.messages, prompt);
    SendNow(initial, rounds, log, e.sent, e.messages + [Feedback(prompt)]);
    out, log' := e.(sent := e.sent + [e.messages + [Feedback(prompt)]]), log;
    if reflection.Some? {
      controller.MarkReflectionUsed();
      WriteOne(initial, rounds, log, out.sent, Reflected(|e.ran| - 1));
      NoteReflection(log, e.ran);
      out, log' := out.(messages := e.messages + [Feedback(reflection.value)]), log + [Reflected(|e.ran| - 1)];
    }
  }

  lemma SendConversation(initial: seq<Message>, rounds: seq<Round>, log: seq<Entry>, e: Effects)
    requires Accounts(initial, rounds, log, e)
    ensures Accounts(initial, rounds, log, e.(sent := e.sent + [e.messages]))
  {
    hide ValidLog, AllRequests, RanAsLogged, Written;
    SendNow(initial, rounds, log, e.sent, e.messages);
  }

  lemma SkipBatch(initial: seq<Message>, rounds: seq<Round>, log: seq<Entry>, e: Effects)
    requires Accounts(initial, rounds, log, e)
    ensures Accounts(initial, rounds, log, e.(ran := e.ran + [false])) && Reflected(|e.ran|) !in log
  {
    hide ValidLog, AllRequests, Written;
    NoteRound(log, e.ran, false);
    NotReflectedYet(log, e.ran, false);
  }

  lemma WriteBatch(initial: seq<Message>, rounds: seq<Round>, log: seq<Entry>, e: Effects)
    requires Accounts(initial, rounds, log, e) && ValidEntry(rounds, Ran(|e.ran|))
    ensures Accounts(initial, rounds, log + [Ran(|e.ran|)],
      e.(messages := e.messages + Batch(rounds[|e.ran|]), ran := e.ran + [true]))
    ensures Reflected(|e.ran|) !in log + [Ran(|e.ran|)]
  {
    hide ValidLog, AllRequests, RanAsLogged, Written, Batch;
    WriteOne(initial, rounds, log, e.sent, Ran(|e.ran|));
    NoteRound(log, e.ran, true);
    NotReflectedYet(log, e.ran, true);
  }

  /** What to do with a round that asks for tools. */
  datatype Verdict = RunIt | NextRound | Stop

  /** The controller sees the calls of the next round; if they repeat too often the batch is skipped, and the
      loop stops unless a reflection succeeds. */
  method CheckCalls(
    controller: ResilienceController, e: Effects, prompt: string, ghost initial: seq<Message>, rounds: seq<Round>,
    ghost log: seq<Entry>)
    returns (out: Effects, ghost log': seq<Entry>, verdict: Verdict)
    requires controller.Valid() && |e.ran| < |rounds| && controller.callHistory == Fingerprints(rounds, |e.ran|)
    requires WellFormedRound(rounds[|e.ran|]) && rounds[|e.ran|].calls != [] && Accounts(initial, rounds, log, e)
    requires StoppedWhenRepeated(controller.callHistory, e.ran, controller.repeatLimit)
    requires |e.sent| <= |e.ran| + 1 + controller.reflectionsUsed
    modifies controller
    ensures controller.Valid() && controller.callHistory == Fingerprints(rounds, |e.ran| + 1)
    ensures StoppedWhenRepeated(controller.callHistory, e.ran + [verdict.RunIt?], controller.repeatLimit)
    ensures verdict.RunIt? ==> out == e && log' == log && controller.reflectionsUsed == old(controller.reflectionsUsed)
    ensures !verdict.RunIt? ==> out.ran == e.ran + [false] && Accounts(initial, rounds, log', out)
    ensures verdict.NextRound? ==> |out.sent| <= |e.ran| + 1 + controller.reflectionsUsed
    ensures verdict.Stop? ==> |out.sent| <= |e.ran| + 1 + controller.maxReflections
  {
    hide Trailing, StoppedWhenRepeated, Accounts, Feedback, Fingerprints;
    var round := rounds[|e.ran|];
    NextFingerprint(rounds, |e.ran|);
    ghost var history := controller.callHistory;
    var action := controller.ObserveCalls(round.fingerprint);
    StoppedStep(history, e.ran, controller.repeatLimit, round.fingerprint, action.Continue?);
    if action.Continue? {
      return e, log, RunIt;
    }
    SkipBatch(initial, rounds, log, e);
    out, log' := e.(ran := e.ran + [false]), log;
    if action.Terminate? {
      return out, log', Stop;
    }
    out, log' := AttemptReflection(controller, out, prompt, initial, rounds, log);
    verdict := if round.reflection.None? then Stop else NextRound;
  }

  /** The controller sees the results of the batch just run. */
  method CheckResults(
    controller: ResilienceController, e: Effects, prompt: string, ghost initial: seq<Message>, rounds: seq<Round>,
    ghost log: seq<Entry>)
    returns (out: Effects, ghost log': seq<Entry>, stop: bool)
    requires controller.Valid() && 0 < |e.ran| <= |rounds| && Reflected(|e.ran| - 1) !in log
    requires WellFormedRound(rounds[|e.ran| - 1]) && rounds[|e.ran| - 1].calls != []
    requires Accounts(initial, rounds, log, e)
    requires |e.sent| <= |e.ran| + controller.reflectionsUsed
    modifies controller
    ensures controller.Valid() && controller.callHistory == old(controller.callHistory)
    ensures out.ran == e.ran && Accounts(initial, rounds, log', out)
    ensures |out.sent| <= |e.ran| + (if stop then controller.maxReflections else controller.reflectionsUsed)
  {
    hide Trailing, Accounts, Feedback;
    var round := rounds[|e.ran| - 1];
    var action := controller.ObserveResults(round.resultFingerprint);
    out, log', stop := e, log, action.Terminate?;
    if action.Reflect? {
      out, log' := AttemptReflection(controller, out, prompt, initial, rounds, log);
      stop := round.reflection.None?;
    }
  }

  /** The conversation is exactly what `log` says was written; every model call is a request made of part of
      it; which batches ran is what the log holds; with a controller repeated batches are stopped; and the
      number of model calls is bounded. */
  method HandleMessage(
    initial: seq<Message>, maxRounds: nat, controller: ResilienceController?, rounds: seq<Round>, prompt: string,
    markup: bool)
    returns (e: Effects, ghost log: seq<Entry>)
    requires |rounds| >= maxRounds && forall k | 0 <= k < |rounds| :: WellFormedRound(rounds[k])
    requires controller != null ==>
      controller.Valid() && controller.callHistory == [] && controller.reflectionsUsed == 0
    modifies controller
    ensures |e.sent| <= maxRounds + (if controller == null then 0 else controller.maxReflections) + 2
    ensures Accounts(initial, rounds, log, e) && |e.ran| <= maxRounds
    ensures controller != null ==>
      && controller.callHistory == Fingerprints(rounds, |e.ran|)
      && StoppedWhenRepeated(controller.callHistory, e.ran, controller.repeatLimit)
  {
    hide Trailing, StoppedWhenRepeated, Accounts, Batch, Feedback, Fingerprints, WellFormedRound, Decision;
    e, log := Effects(initial, [], []), [];
    Begin(initial, rounds, if controller == null then 1 else controller.repeatLimit);
    var r, stop := 0, false;
    while r < maxRounds && !stop
      invariant r <= maxRounds && |e.ran| == r && Accounts(initial, rounds, log, e)
      invariant controller == null ==> |e.sent| <= r
      invariant controller != null ==>
        && controller.Valid() && controller.callHistory == Fingerprints(rounds, r)
        && |e.sent| <= r + (if stop then controller.maxReflections else controller.reflectionsUsed)
        && StoppedWhenRepeated(controller.callHistory, e.ran, controller.repeatLimit)
      decreases maxRounds - r
    {
      var round := rounds[r];
      SendConversation(initial, rounds, log, e);
      e := e.(sent := e.sent + [e.messages]);
      if round.calls == [] {
        return;
      }
      var verdict := RunIt;
      if controller != null {
        e, log, verdict := CheckCalls(controller, e, prompt, initial, rounds, log);
      }
      if verdict.RunIt? {
        WriteBatch(initial, rounds, log, e);
        log := log + [Ran(r)];
        var messages := RunBatch(e.messages, round);
        e := e.(messages := messages, ran := e.ran + [true]);
        if controller != null {
          e, log, stop := CheckResults(controller, e, prompt, initial, rounds, log);
        }
      } else {
        stop := verdict.Stop?;
      }
      r := r + 1;
    }
    SendConversation(initial, rounds, log, e);
    e := e.(sent := e.sent + [e.messages]);
    if markup {
      SendRetry(initial, rounds, log, e, prompt);
      e := e.(sent := e.sent + [[Feedback(prompt)] + e.messages]);
    }
  }

  lemma SendRetry(initial: seq<Message>, rounds: seq<Round>, log: seq<Entry>, e: Effects, prompt: string)
    requires Accounts(initial, rounds, log, e)
    ensures Accounts(initial, rounds, log, e.(sent := e.sent + [[Feedback(prompt)] + e.messages]))
  {
    hide ValidLog, AllRequests, RanAsLogged, Written, Prompted, Retried;
    PromptsAreShaped(e.messages, prompt);
    SendNow(initial, rounds, log, e.sent, [Feedback(prompt)] + e.messages);
  }

  // ---------------------------------------------------------------- an approval in the middle of a batch

  /** Two calls, the first of which has to wait for approval. */
  const PAUSED := Round(
    [Call(Some("a"), "read", "{}"), Call(Some("b"), "read", "{}")], "f",
    [Outcome("", true), Outcome("", false)], "g", None)

  /** After such a batch the second call has no result, and no later round makes the conversation acceptable
      again. */
  lemma PausedBatchIsRefused(initial: seq<Message>, rounds: seq<Round>, log: seq<Entry>)
    requires ValidLog(rounds, log) && rounds != [] && rounds[0] == PAUSED && Ran(0) in log
    ensures !Accepted(initial + Written(rounds, log))
  {
    hide Accepted;
    ConversationIsAccepted(initial, rounds, log);
    var i :| 0 <= i < |log| && log[i] == Ran(0);
    assert Executed(PAUSED.outcomes) == 1;
    assert !Clean(rounds[log[i].round]);
  }
}
