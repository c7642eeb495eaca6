/** A delegated child agent: a bounded investigation with read-only tools. */
module Delegation {
  import opened Wrappers
  import opened Transcript
  import AgentLoop
  import Compaction

  const MAX_CALLS_PER_ROUND := 4
  const MAX_TOOL_RESULT_CHARS := 4000

  /** What the child may use: the read-only native tools on the allow list. */
  datatype Toolbox = Toolbox(builders: set<string>, readOnly: set<string>, allowed: set<string>)
  {
    predicate Permits(name: string) {
      name in builders && name in readOnly && name in allowed
    }
  }

  /** The model's answer in one round: its calls, the estimated length of its output, the usage it reports
      and the total of the shared quota, and for each call whether running it succeeds. */
  datatype Answer = Answer(calls: seq<Call>, output: nat, usage: nat, quota: nat, results: seq<Option<string>>)

  datatype Status = Completed | Failed

  datatype Result = Result(status: Status, modelCalls: nat, toolCalls: nat, tokens: int)

  /** A call without an id is named after its position. */
  function Normalized(calls: seq<Call>): (r: seq<Call>)
    ensures |r| == |calls|
  {
    AgentLoop.Normalized("child_", calls)
  }

  predicate DistinctCalls(answers: seq<Answer>) {
    forall k | 0 <= k < |answers| :: Distinct(CallIds(Normalized(answers[k].calls)))
  }

  predicate WellFormedAnswer(a: Answer) {
    |a.results| == |a.calls|
  }

  /** What happened during the investigation. */
  datatype Log = Log(sent: seq<seq<Message>>, used: seq<string>)

  predicate AllPermitted(box: Toolbox, used: seq<string>) {
    forall k | 0 <= k < |used| :: box.Permits(used[k])
  }

  /** What the child is told: the instructions for every child and its own objective. */
  datatype Task = Task(instructions: string, objective: string)

  function Objective(task: Task): seq<Message> {
    [AgentLoop.Feedback(task.instructions),
     Message(User, Text(task.objective), [], None, [], 26)]
  }

  lemma ObjectiveIsAccepted(task: Task)
    ensures Accepted(Objective(task))
  {
    var ms := Objective(task);
    assert Lone(ms[..1]) && ms[1..] == [ms[1]] && Lone(ms[1..][..1]) && ms[1..][1..] == [];
    AcceptedEmpty();
    assert Accepted(ms[1..]);
  }

  predicate PermittedCalls(box: Toolbox, calls: seq<Call>) {
    forall i | 0 <= i < |calls| :: box.Permits(calls[i].name)
  }

  function Names(calls: seq<Call>): (r: seq<string>)
    ensures |r| == |calls| && forall i | 0 <= i < |r| :: r[i] == calls[i].name
  {
    seq(|calls|, i requires 0 <= i < |calls| => calls[i].name)
  }

  /** A result is cut before it enters the conversation. */
  function Cut(content: string): string {
    if |content| <= MAX_TOOL_RESULT_CHARS then content else content[..MAX_TOOL_RESULT_CHARS]
  }

  function Outcomes(results: seq<Option<string>>): (r: seq<AgentLoop.Outcome>)
    requires forall i | 0 <= i < |results| :: results[i].Some?
    ensures |r| == |results| && forall i | 0 <= i < |r| :: r[i] == AgentLoop.Outcome(Cut(results[i].value), false)
  {
    seq(|results|, i requires 0 <= i < |results| => AgentLoop.Outcome(Cut(results[i].value), false))
  }

  /** Run the calls of a round in order, stopping at the first that fails. */
  method RunTools(messages: seq<Message>, calls: seq<Call>, results: seq<Option<string>>)
    returns (out: seq<Message>, ran: nat, ok: bool)
    requires |results| == |calls| && calls != [] && forall i | 0 <= i < |calls| :: calls[i].id.Some?
    ensures ran <= |calls| && (ok ==> ran == |calls|)
    ensures ok <==> forall i | 0 <= i < |results| :: results[i].Some?
    ensures ok ==> out == messages + ([AgentLoop.CallMessage(calls)] + AgentLoop.Results(calls, Outcomes(results)))
  {
    out := messages + [AgentLoop.CallMessage(calls)];
    ran := 0;
    while ran < |calls|
      invariant ran <= |calls| && forall i | 0 <= i < ran :: results[i].Some?
      invariant out == messages + ([AgentLoop.CallMessage(calls)]
                                   + AgentLoop.Results(calls[..ran], Outcomes(results[..ran])))
    {
      var result := results[ran];
      ran := ran + 1;
      if result.None? {
        return out, ran, false;
      }
      out := out + [AgentLoop.ResultMessage(calls[ran - 1], Cut(result.value))];
      assert AgentLoop.Results(calls[..ran], Outcomes(results[..ran]))
          == AgentLoop.Results(calls[..ran - 1], Outcomes(results[..ran - 1]))
             + [AgentLoop.ResultMessage(calls[ran - 1], Cut(result.value))];
    }
    assert calls[..ran] == calls && results[..ran] == results;
    ok := true;
  }

  /** The first `k` rounds asked for tools and all of them succeeded. */
  predicate Succeeded(answers: seq<Answer>, k: nat) {
    && k <= |answers|
    && (forall j | 0 <= j < k ::
          && WellFormedAnswer(answers[j]) && answers[j].calls != []
          && forall i | 0 <= i < |answers[j].results| :: answers[j].results[i].Some?)
  }

  /** The conversation after `k` rounds. */
  function Conversation(task: Task, answers: seq<Answer>, k: nat): seq<Message>
    requires Succeeded(answers, k)
  {
    if k == 0 then Objective(task)
    else
      var a := answers[k - 1];
      var calls := Normalized(a.calls);
      Conversation(task, answers, k - 1)
      + ([AgentLoop.CallMessage(calls)] + AgentLoop.Results(calls, Outcomes(a.results)))
  }

  function Offered(schemas: Option<nat>, maxRounds: nat, k: nat): Option<nat> {
    if k < maxRounds then schemas else None
  }

  /** A model call is charged the larger of estimate and report, and the total is never less than the quota. */
  function Charged(tokens: int, estimate: nat, a: Answer): int {
    Compaction.Max(tokens + Compaction.Max(estimate + a.output, a.usage), a.quota)
  }

  /** What `k` model calls are charged. */
  function Tokens(task: Task, answers: seq<Answer>, schemas: Option<nat>, maxRounds: nat, k: nat): int
    requires k > 0 ==> k <= |answers| && Succeeded(answers, k - 1)
  {
    if k == 0 then 0
    else
      var a := answers[k - 1];
      var estimate := Compaction.Estimate(Conversation(task, answers, k - 1), Offered(schemas, maxRounds, k - 1));
      Charged(Tokens(task, answers, schemas, maxRounds, k - 1), estimate, a)
  }

  /** With distinct call ids in each round, the scanner accepts the conversation at every point. */
  lemma {:induction false} ConversationIsAccepted(task: Task, answers: seq<Answer>, k: nat)
    requires Succeeded(answers, k) && DistinctCalls(answers)
    ensures Accepted(Conversation(task, answers, k))
  {
    hide Accepted, Distinct;
    if k == 0 {
      ObjectiveIsAccepted(task);
    } else {
      var a := answers[k - 1];
      var calls := Normalized(a.calls);
      ConversationIsAccepted(task, answers, k - 1);
      NamedHaveIds(a);
      AgentLoop.BatchIsExchange(calls, Outcomes(a.results));
      AcceptedConcat(Conversation(task, answers, k - 1),
        [AgentLoop.CallMessage(calls)] + AgentLoop.Results(calls, Outcomes(a.results)));
    }
  }

  lemma NamedHaveIds(a: Answer)
    ensures var calls := Normalized(a.calls); forall i | 0 <= i < |calls| :: calls[i].id.Some?
  {
  }

  lemma UseSome(box: Toolbox, used: seq<string>, calls: seq<Call>, n: nat)
    requires AllPermitted(box, used) && PermittedCalls(box, calls) && n <= |calls|
    ensures AllPermitted(box, used + Names(calls[..n]))
  {
    var more := used + Names(calls[..n]);
    assert forall k | |used| <= k < |more| :: more[k] == calls[k - |used|].name;
  }

  /** The requests are the conversation after each round. */
  predicate Requests(task: Task, answers: seq<Answer>, sent: seq<seq<Message>>) {
    forall k | 0 <= k < |sent| :: Succeeded(answers, k) && sent[k] == Conversation(task, answers, k)
  }

  lemma SendOne(task: Task, answers: seq<Answer>, sent: seq<seq<Message>>)
    requires Requests(task, answers, sent) && Succeeded(answers, |sent|)
    ensures Requests(task, answers, sent + [Conversation(task, answers, |sent|)])
  {
    hide Succeeded, Conversation;
  }

  lemma Begin(box: Toolbox, task: Task, answers: seq<Answer>)
    ensures Requests(task, answers, []) && AllPermitted(box, []) && Succeeded(answers, 0)
    ensures Conversation(task, answers, 0) == Objective(task)
    ensures forall schemas, maxRounds :: Tokens(task, answers, schemas, maxRounds, 0) == 0
  {
  }

  lemma TokensStep(task: Task, answers: seq<Answer>, schemas: Option<nat>, maxRounds: nat, k: nat)
    requires k < |answers| && Succeeded(answers, k) && (k > 0 ==> Succeeded(answers, k - 1))
    ensures var estimate := Compaction.Estimate(Conversation(task, answers, k), Offered(schemas, maxRounds, k));
      Tokens(task, answers, schemas, maxRounds, k + 1)
      == Charged(Tokens(task, answers, schemas, maxRounds, k), estimate, answers[k])
  {
    hide Conversation, Compaction.Estimate, Charged;
  }

  lemma SucceedOnce(task: Task, answers: seq<Answer>, k: nat)
    requires k < |answers| && Succeeded(answers, k) && WellFormedAnswer(answers[k]) && answers[k].calls != []
    requires forall i | 0 <= i < |answers[k].results| :: answers[k].results[i].Some?
    ensures Succeeded(answers, k + 1)
    ensures var calls := Normalized(answers[k].calls);
      Conversation(task, answers, k + 1) == Conversation(task, answers, k)
        + ([AgentLoop.CallMessage(calls)] + AgentLoop.Results(calls, Outcomes(answers[k].results)))
  {
  }

  /** The child's loop, for every behaviour of the model.  It is left only by a result: the exit after the
      last round, where no tools are offered any more, is never reached. */
  method Investigate(
    box: Toolbox, task: Task, configured: bool, maxRounds: nat, maxTokens: int, schemas: Option<nat>,
    answers: seq<Answer>)
    returns (r: Result, log: Log)
    requires |answers| > maxRounds && forall k | 0 <= k < |answers| :: WellFormedAnswer(answers[k])
    ensures r.modelCalls <= maxRounds + 1 && r.toolCalls <= MAX_CALLS_PER_ROUND * maxRounds
    ensures |log.sent| == r.modelCalls && Requests(task, answers, log.sent)
    ensures r.tokens == (if r.modelCalls == 0 then 0 else Tokens(task, answers, schemas, maxRounds, r.modelCalls))
    ensures |log.used| == r.toolCalls && AllPermitted(box, log.used)
    ensures r.status.Completed? ==> r.tokens <= maxTokens && r.modelCalls > 0 && answers[r.modelCalls - 1].calls == []
  {
    hide PermittedCalls, AllPermitted, Requests, Succeeded, Normalized, Conversation, Objective, Tokens, Charged,
      Compaction.Estimate, AgentLoop.CallMessage, AgentLoop.ResultMessage;
    log := Log([], []);
    Begin(box, task, answers);
    if !configured {
      return Result(Failed, 0, 0, 0), log;
    }
    var messages := Objective(task);
    var round, tokens := 0, 0;
    while true
      invariant round <= maxRounds && |log.sent| == round && |log.used| <= MAX_CALLS_PER_ROUND * round
      invariant Succeeded(answers, round) && messages == Conversation(task, answers, round)
      invariant Requests(task, answers, log.sent) && AllPermitted(box, log.used)
      invariant round > 0 ==> Succeeded(answers, round - 1)
      invariant tokens == Tokens(task, answers, schemas, maxRounds, round)
      decreases maxRounds - round
    {
      var estimate := Compaction.Estimate(messages, Offered(schemas, maxRounds, round));
      if maxTokens - tokens - estimate <= 0 {
        return Result(Failed, round, |log.used|, tokens), log;
      }
      var answer := answers[round];
      SendOne(task, answers, log.sent);
      log := log.(sent := log.sent + [messages]);
      tokens := Charged(tokens, estimate, answer);
      TokensStep(task, answers, schemas, maxRounds, round);
      if tokens > maxTokens {
        return Result(Failed, round + 1, |log.used|, tokens), log;
      }
      if answer.calls == [] {
        return Result(Completed, round + 1, |log.used|, tokens), log;
      }
      if |answer.calls| > MAX_CALLS_PER_ROUND || round == maxRounds || !PermittedCalls(box, answer.calls) {
        return Result(Failed, round + 1, |log.used|, tokens), log;
      }
      var calls := Normalized(answer.calls);
      NamedHaveIds(answer);
      var out, ran, ok := RunTools(messages, calls, answer.results);
      UseSome(box, log.used, answer.calls, ran);
      log := log.(used := log.used + Names(answer.calls[..ran]));
      if !ok {
        return Result(Failed, round + 1, |log.used|, tokens), log;
      }
      SucceedOnce(task, answers, round);
      messages, round := out, round + 1;
    }
  }
}
