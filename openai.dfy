/** The deterministic parts of the evaluation service: prompt assembly,
    the offline reply, and the success-failure vote over sampled replies. */
module OpenAI {
  import opened Wrappers
  import opened Strings

  const Preamble: string := "You are an objective evaluator.\nEvaluate the following agent output using the rules below.\n\n"
  const Instructions: string :=
    "Instructions: Provide your response in plain text. For method 'score', "
    + "return a single numeric score between 0 and 100 optionally followed by a brief rationale. "
    + "For method 'success-failure', return either 'success' or 'failure' and an optional brief rationale."

  /** `OpenAIService.build_prompt` for rules already given as text: the
      method line, the rules, and the agent output with surrounding
      whitespace removed (a missing output counts as empty). */
  function BuildPrompt(evalMethod: string, rules: string, agentOutput: Option<string>): (p: string)
    ensures Contains(p, "Method: " + evalMethod)
    ensures Contains(p, rules)
    ensures Contains(p, Strip(agentOutput.GetOr("")))
    ensures |Preamble| <= |p| && p[..|Preamble|] == Preamble
  {
    var parts := PromptParts(evalMethod, rules, Strip(agentOutput.GetOr("")));
    ConcatContainsPart(parts, 1);
    ConcatContainsPart(parts, 3);
    ConcatContainsPart(parts, 5);
    Concat(parts)
  }

  /** The pieces of the prompt, in order. */
  function PromptParts(evalMethod: string, rules: string, output: string): (parts: seq<string>)
    ensures |parts| == 8 && parts[0] == Preamble && parts[1] == "Method: " + evalMethod
    ensures parts[3] == rules && parts[5] == output
  {
    [Preamble, "Method: " + evalMethod, "\n\nRules:\n", rules, "\n\nAgent Output:\n", output, "\n\n", Instructions]
  }

  /** The reply `_call_openai` gives when it has neither an injected call
      nor a client: "50" for a score prompt, "failure" otherwise. */
  function OfflineReply(prompt: string): (r: string)
    ensures r == "50" <==> Contains(Lower(prompt), "method: score")
    ensures r != "50" ==> r == "failure"
  {
    if Contains(Lower(prompt), "method: score") then "50" else "failure"
  }

  /** A foreign reply call (an injected test function or the OpenAI
      client): `call(prompt, i)` is its reply to the i-th call with
      `prompt`, or `None` when that call raises. */
  type Call = (string, nat) -> Option<string>

  /** `_call_openai` for the i-th call: an injected call takes precedence,
      then the client, and only with neither comes the offline reply, which
      cannot fail. A raising call raises out of `_call_openai`. */
  function CallReply(callFn: Option<Call>, client: Option<Call>, prompt: string, i: nat): (r: Option<string>)
    ensures callFn.Some? ==> r == callFn.value(prompt, i)
    ensures callFn.None? && client.Some? ==> r == client.value(prompt, i)
    ensures callFn.None? && client.None? ==> r == Some(OfflineReply(prompt))
  {
    match callFn
    case Some(call) => call(prompt, i)
    case None =>
      match client
      case Some(call) => call(prompt, i)
      case None => Some(OfflineReply(prompt))
  }

  /** `asyncio.gather` of the first `n` calls without `return_exceptions`:
      all replies in call order, or `None` as soon as one call raises. */
  function Gather(callFn: Option<Call>, client: Option<Call>, prompt: string, n: nat): (r: Option<seq<string>>)
    ensures r.None? <==> exists i :: 0 <= i < n && CallReply(callFn, client, prompt, i).None?
    ensures r.Some? ==> |r.value| == n
    ensures r.Some? ==> forall i :: 0 <= i < n ==> CallReply(callFn, client, prompt, i) == Some(r.value[i])
  {
    if n == 0 then Some([])
    else match Gather(callFn, client, prompt, n - 1)
      case None => None
      case Some(replies) =>
        match CallReply(callFn, client, prompt, n - 1)
        case None => None
        case Some(reply) => Some(replies + [reply])
  }

  /** Offline, the calls never fail and every reply is the offline one. */
  lemma OfflineGather(prompt: string, n: nat)
    ensures Gather(None, None, prompt, n) == Some(seq(n, _ => OfflineReply(prompt)))
  {
    var g := Gather(None, None, prompt, n);
    assert g.Some?;
    assert g.value == seq(n, _ => OfflineReply(prompt));
  }

  /** Offline, a prompt built for the score method is always answered "50". */
  lemma OfflineScorePrompt(rules: string, agentOutput: Option<string>)
    ensures OfflineReply(BuildPrompt("score", rules, agentOutput)) == "50"
  {
    var p := BuildPrompt("score", rules, agentOutput);
    assert "Method: " + "score" == "Method: score";
    LowerKeepsContains(p, "Method: score");
    LowerMethodScore();
  }

  lemma LowerMethodScore()
    ensures Lower("Method: score") == "method: score"
  {
    assert "Method: score" == "M" + "ethod: score";
    LowerAppend("M", "ethod: score");
    LowerNoCapitals("ethod: score");
    assert Lower("M") == "m";
    assert "m" + "ethod: score" == "method: score";
  }

  datatype Verdict = Success | Failure

  /** How the success-failure method reads one reply: "success" only when
      the reply mentions success and not failure; everything else, ambiguous
      replies included, is a failure. */
  function ParseVerdict(raw: string): (v: Verdict)
    ensures v == Success <==> Contains(Lower(raw), "success") && !Contains(Lower(raw), "failure")
  {
    var low := Lower(raw);
    if Contains(low, "success") && !Contains(low, "failure") then Success
    else if Contains(low, "failure") && !Contains(low, "success") then Failure
    else Failure
  }

  /** One entry of `samples_out`. */
  datatype Sample = Sample(raw: string, parsed: Verdict)

  /** The aggregate the success-failure method returns. */
  datatype Aggregate = Aggregate(verdict: Verdict, successCount: nat, failureCount: nat)

  /** The number of `v` among `vs`, as `sum(1 for p in parsed_values if p == v)`. */
  function Count(vs: seq<Verdict>, v: Verdict): (n: nat)
    ensures n <= |vs|
  {
    if vs == [] then 0 else Count(vs[..|vs| - 1], v) + (if vs[|vs| - 1] == v then 1 else 0)
  }

  /** Every verdict is one or the other, so the two counts add up to all. */
  lemma {:induction false} CountsPartition(vs: seq<Verdict>)
    ensures Count(vs, Success) + Count(vs, Failure) == |vs|
  {
    if vs != [] {
      CountsPartition(vs[..|vs| - 1]);
    }
  }

  lemma {:induction false} CountAppend(vs: seq<Verdict>, x: Verdict, v: Verdict)
    ensures Count(vs + [x], v) == Count(vs, v) + (if x == v then 1 else 0)
  {
    assert (vs + [x])[..|vs|] == vs;
  }

  /** Majority vote; a tie is a failure. */
  function Majority(vs: seq<Verdict>): (v: Verdict)
    ensures v == Success <==> 2 * Count(vs, Success) > |vs|
  {
    CountsPartition(vs);
    if Count(vs, Success) > Count(vs, Failure) then Success else Failure
  }

  /** The verdicts of the replies, in reply order. */
  function Verdicts(responses: seq<string>): (vs: seq<Verdict>)
    ensures |vs| == |responses|
    ensures forall i :: 0 <= i < |responses| ==> vs[i] == ParseVerdict(responses[i])
  {
    seq(|responses|, i requires 0 <= i < |responses| => ParseVerdict(responses[i]))
  }

  /** The success-failure branch of `evaluate_criterion` after the replies
      are in: one sample per reply, in order, then the vote. */
  method AggregateVerdicts(responses: seq<string>) returns (samples: seq<Sample>, agg: Aggregate)
    ensures |samples| == |responses|
    ensures forall i :: 0 <= i < |responses| ==>
              samples[i].raw == responses[i] && samples[i].parsed == ParseVerdict(responses[i])
    ensures agg.successCount == Count(Verdicts(responses), Success)
    ensures agg.failureCount == Count(Verdicts(responses), Failure)
    ensures agg.successCount + agg.failureCount == |responses|
    ensures agg.verdict == Success <==> agg.successCount > agg.failureCount
  {
    samples := [];
    var parsed: seq<Verdict> := [];
    for i := 0 to |responses|
      invariant |samples| == i && parsed == Verdicts(responses[..i])
      invariant forall k :: 0 <= k < i ==>
                  samples[k].raw == responses[k] && samples[k].parsed == ParseVerdict(responses[k])
    {
      var raw := responses[i];
      var v := ParseVerdict(raw);
      samples := samples + [Sample(raw, v)];
      assert Verdicts(responses[..i + 1]) == Verdicts(responses[..i]) + [v];
      parsed := parsed + [v];
    }
    assert responses[..|responses|] == responses;
    var successCount := Count(parsed, Success);
    var failureCount := Count(parsed, Failure);
    CountsPartition(parsed);
    var verdict := if successCount > failureCount then Success else Failure;
    agg := Aggregate(verdict, successCount, failureCount);
  }

  /** What `evaluate_criterion` returns: the samples and the aggregate. */
  datatype Evaluation = Evaluation(samples: seq<Sample>, aggregate: Aggregate)

  /** `evaluate_criterion` for the success-failure method: build the prompt,
      make `samples` calls (none when `samples` is zero or negative, as
      `range(samples)` gives), parse each reply and vote. A call that raises
      makes the whole evaluation raise, here `None`. */
  method EvaluateCriterion(agentOutput: Option<string>, evalMethod: string, rules: string, samples: int,
                           callFn: Option<Call>, client: Option<Call>)
    returns (r: Option<Evaluation>)
    requires evalMethod != "score"
    ensures var prompt := BuildPrompt(evalMethod, rules, agentOutput);
            r.None? <==> exists i :: 0 <= i < samples && CallReply(callFn, client, prompt, i).None?
    ensures var prompt := BuildPrompt(evalMethod, rules, agentOutput);
            var replies := Gather(callFn, client, prompt, if samples < 0 then 0 else samples);
            r.Some? ==>
              && replies.Some?
              && |r.value.samples| == (if samples < 0 then 0 else samples)
              && (forall i :: 0 <= i < samples ==>
                    CallReply(callFn, client, prompt, i) == Some(r.value.samples[i].raw)
                    && r.value.samples[i].parsed == ParseVerdict(r.value.samples[i].raw))
              && r.value.aggregate.successCount == Count(Verdicts(replies.value), Success)
              && r.value.aggregate.successCount + r.value.aggregate.failureCount == |r.value.samples|
              && r.value.aggregate.verdict == Majority(Verdicts(replies.value))
  {
    var prompt := BuildPrompt(evalMethod, rules, agentOutput);
    var count: nat := if samples < 0 then 0 else samples;
    var replies := Gather(callFn, client, prompt, count);
    if replies.None? {
      return None;
    }
    var out, agg := AggregateVerdicts(replies.value);
    r := Some(Evaluation(out, agg));
  }

  /** The vote scenarios of the unit tests: three successes out of five win;
      two successes, two failures and an ambiguous reply lose. */
  lemma MajorityScenarios()
    ensures var vs := Verdicts(["success", "failure", "success", "success", "failure"]);
            Majority(vs) == Success && Count(vs, Success) == 3
    ensures Majority(Verdicts(["success", "failure", "success", "failure", "I am not sure"])) == Failure
  {
    ReadsSuccess();
    ReadsFailure();
    ReadsUnsure();
    var vs := Verdicts(["success", "failure", "success", "success", "failure"]);
    assert vs == [Success, Failure, Success, Success, Failure];
    CountFive(Success, Failure, Success, Success, Failure, Success);
    var ws := Verdicts(["success", "failure", "success", "failure", "I am not sure"]);
    assert ws == [Success, Failure, Success, Failure, Failure];
    CountFive(Success, Failure, Success, Failure, Failure, Success);
  }

  function Indicator(x: Verdict, v: Verdict): nat {
    if x == v then 1 else 0
  }

  lemma CountFive(a: Verdict, b: Verdict, c: Verdict, d: Verdict, e: Verdict, v: Verdict)
    ensures Count([a, b, c, d, e], v)
         == Indicator(a, v) + Indicator(b, v) + Indicator(c, v) + Indicator(d, v) + Indicator(e, v)
  {
    assert [a][..0] == [];
    assert Count([a], v) == Indicator(a, v);
    assert [a, b][..1] == [a];
    assert Count([a, b], v) == Count([a], v) + Indicator(b, v);
    assert [a, b, c][..2] == [a, b];
    assert Count([a, b, c], v) == Count([a, b], v) + Indicator(c, v);
    assert [a, b, c, d][..3] == [a, b, c];
    assert Count([a, b, c, d], v) == Count([a, b, c], v) + Indicator(d, v);
    assert [a, b, c, d, e][..4] == [a, b, c, d];
  }

  lemma ReadsSuccess()
    ensures ParseVerdict("success") == Success
  {
    LowerNoCapitals("success");
    assert OccursAt("success", "success", 0);
    MissingCharNotContained("success", "failure", 0);
  }

  lemma ReadsFailure()
    ensures ParseVerdict("failure") == Failure
  {
    LowerNoCapitals("failure");
    MissingCharNotContained("failure", "success", 0);
  }

  lemma ReadsUnsure()
    ensures ParseVerdict("I am not sure") == Failure
  {
    var low := Lower("I am not sure");
    assert low == "i am not sure";
    MissingCharNotContained(low, "success", 2);
  }

  /** Offline, a reply "failure" is read as a failure, so an offline
      success-failure evaluation whose prompt does not ask for a score votes
      failure unanimously. */
  lemma OfflineUnanimousFailure(prompt: string, n: nat)
    requires !Contains(Lower(prompt), "method: score")
    ensures var vs := Verdicts(seq(n, _ => OfflineReply(prompt)));
            Count(vs, Failure) == n && Majority(vs) == Failure
  {
    var vs := Verdicts(seq(n, _ => OfflineReply(prompt)));
    assert Lower("failure") == "failure";
    ContainsMiddle("", "failure", "");
    assert "" + "failure" + "" == "failure";
    assert forall i :: 0 <= i < n ==> vs[i] == Failure;
    CountAll(vs, Failure);
  }

  lemma {:induction false} CountAll(vs: seq<Verdict>, v: Verdict)
    requires forall i :: 0 <= i < |vs| ==> vs[i] == v
    ensures Count(vs, v) == |vs|
  {
    if vs != [] {
      CountAll(vs[..|vs| - 1], v);
    }
  }
}
