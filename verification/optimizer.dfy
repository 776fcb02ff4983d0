/** The propose-evaluate-refine loop of `optimize_recipe`: a recipe creator and a nutrition
    evaluator alternate for at most MAX_RETRIES rounds, the evaluator's reply being fed back
    to the creator until a reply counts as an approval.

    The completion service is an oracle: `replies` holds the text each completion call returns,
    in the order the calls are made (creator, evaluator, creator, ...). A call made after the
    replies are used up is a call that raised; the exception leaves the loop. */
module Optimizer {
  import opened Wrappers
  import opened Text

  /** Round budget of the loop. */
  const MAX_RETRIES: nat := 5

  /** The word whose presence in the lower-cased evaluation means approval. */
  const APPROVAL_WORD: string := "approved"

  /** A dish and its ordered list of constraints. */
  datatype RecipeRequest = RecipeRequest(baseDish: string, constraints: seq<string>)

  /** The one request the loop works on; no round changes it. */
  const RECIPE_REQUEST: RecipeRequest := RecipeRequest(
    "pasta",
    [ "gluten-free",
      "vegan",
      "under 500 calories per serving",
      "high protein (>15g per serving)",
      "no coconut",
      "taste must be rated 7/10 or higher" ])

  /** Sampling mode of the recipe creator: Creative is temperature 1, Strict is temperature 0.3. */
  datatype Mode = Creative | Strict

  /** A value passed to the evaluator: the request object or a piece of text. */
  datatype Argument = RequestArg(request: RecipeRequest) | TextArg(text: string)

  /** One completion call issued by the loop, with the arguments of the agent method behind it.
      `Evaluate` names its fields after the parameters of `evaluate(recipe_request, proposed_recipe)`. */
  datatype Call =
    | Generate(request: RecipeRequest, feedback: Option<string>, mode: Mode)
    | Evaluate(recipeRequest: Argument, proposedRecipe: Argument)

  /** The tuple `(recipe, evaluation, attempt)` the loop returns. */
  datatype Outcome = Outcome(recipe: string, evaluation: string, attempt: nat)

  /** ServiceFailed: a completion call raised. NoRoundRan: the loop body never ran, so the final
      return reads variables that were never bound. */
  datatype Failure = ServiceFailed | NoRoundRan

  /** What one run of the loop returns, together with the completion calls it issued. */
  datatype Run = Run(result: Result<Outcome, Failure>, calls: seq<Call>)

  /** The approval test: the lower-cased evaluation contains "approved" anywhere. */
  ghost predicate Approved(evaluation: string)
  {
    Contains(Lower(evaluation), APPROVAL_WORD)
  }

  /** `evaluation` spells "approved", in any mix of cases, at index `i`. */
  predicate ApprovalWordAt(evaluation: string, i: int)
  {
    0 <= i && i + |APPROVAL_WORD| <= |evaluation| && Lower(evaluation[i..i + |APPROVAL_WORD|]) == APPROVAL_WORD
  }

  /** A reply is an approval exactly when it spells "approved" somewhere, whatever the casing. */
  lemma ApprovedIffWordAnywhere(evaluation: string)
    ensures Approved(evaluation) <==> exists i :: ApprovalWordAt(evaluation, i)
  {
    if Approved(evaluation) {
      var i :| OccursAt(Lower(evaluation), APPROVAL_WORD, i);
      LowerSlice(evaluation, i, i + |APPROVAL_WORD|);
      assert ApprovalWordAt(evaluation, i);
    }
    if exists i :: ApprovalWordAt(evaluation, i) {
      var i :| ApprovalWordAt(evaluation, i);
      LowerSlice(evaluation, i, i + |APPROVAL_WORD|);
      assert OccursAt(Lower(evaluation), APPROVAL_WORD, i);
    }
  }

  /** The reply format the evaluator is asked for, a reply that begins with "APPROVED", is an approval. */
  lemma UpperCaseVerdictApproved(evaluation: string)
    requires |evaluation| >= 8 && evaluation[..8] == "APPROVED"
    ensures Approved(evaluation)
  {
    assert Lower(evaluation[0..8]) == APPROVAL_WORD;
    assert ApprovalWordAt(evaluation, 0);
    ApprovedIffWordAnywhere(evaluation);
  }

  /** A rejection that happens to contain the word, "not approved" followed by any reasons, also
      counts as an approval. */
  lemma NegatedVerdictApproved(reasons: string)
    ensures Approved("not " + APPROVAL_WORD + reasons)
  {
    var e := "not " + APPROVAL_WORD + reasons;
    assert e[4..12] == APPROVAL_WORD;
    LowerKeepsLowerCase(APPROVAL_WORD);
    assert ApprovalWordAt(e, 4);
    ApprovedIffWordAnywhere(e);
  }

  /** A reply without the word is not an approval. */
  lemma RejectionNotApproved()
    ensures !Approved("rejected")
  {
    var e := "rejected";
    ApprovedIffWordAnywhere(e);
    forall i
      ensures !ApprovalWordAt(e, i)
    {
      if 0 <= i && i + |APPROVAL_WORD| <= |e| {
        assert Lower(e[i..i + |APPROVAL_WORD|])[0] == 'r';
      }
    }
  }

  /** `"approved" in evaluation_str.lower()`. */
  method IsApproved(evaluation: string) returns (approved: bool)
    ensures approved <==> Approved(evaluation)
  {
    approved := ContainsScan(Lower(evaluation), APPROVAL_WORD);
  }

  /** The creator call of `RecipeCreatorAgent.run`: creative without feedback, strict with it. */
  function CreatorCall(request: RecipeRequest, feedback: Option<string>): (c: Call)
    ensures c.Generate? && c.request == request && c.feedback == feedback
    ensures c.mode == Creative <==> feedback.None?
  {
    match feedback
    case None => Generate(request, feedback, Creative)
    case Some(_) => Generate(request, feedback, Strict)
  }

  /** The recipe the creator returns in round `i` (0-based). */
  function RecipeOf(replies: seq<string>, i: nat): string
    requires 2 * i < |replies|
  {
    replies[2 * i]
  }

  /** The evaluation the evaluator returns in round `i` (0-based). */
  function EvaluationOf(replies: seq<string>, i: nat): string
    requires 2 * i + 1 < |replies|
  {
    replies[2 * i + 1]
  }

  /** The feedback the creator should see in round `i`: none first, then the previous evaluation. */
  function FeedbackBefore(replies: seq<string>, i: nat): Option<string>
    requires i == 0 || 2 * i <= |replies|
  {
    if i == 0 then None else Some(EvaluationOf(replies, i - 1))
  }

  /** The loop state at the top of round `attempt` after `attempt` rejected rounds. */
  ghost predicate Reached(replies: seq<string>, maxRetries: nat, attempt: nat,
                          feedback: Option<string>, last: Option<(string, string)>)
  {
    && attempt <= maxRetries
    && (attempt == 0 || 2 * attempt <= |replies|)
    && feedback == FeedbackBefore(replies, attempt)
    && last == (if attempt == 0 then None else Some((RecipeOf(replies, attempt - 1), EvaluationOf(replies, attempt - 1))))
    && forall i :: 0 <= i < attempt ==> !Approved(EvaluationOf(replies, i))
  }

  /** Rounds `attempt`, `attempt + 1`, ... of the loop. `feedback` is `current_feedback`;
      `last` is the (recipe, evaluation) pair still bound after the previous round. */
  ghost function Rounds(request: RecipeRequest, replies: seq<string>, maxRetries: nat, attempt: nat,
                  feedback: Option<string>, last: Option<(string, string)>): Run
    requires attempt <= maxRetries
    decreases maxRetries - attempt
  {
    if attempt == maxRetries then
      match last
      case None => Run(Err(NoRoundRan), [])
      case Some((recipe, evaluation)) => Run(Ok(Outcome(recipe, evaluation, maxRetries)), [])
    else
      var generate := CreatorCall(request, feedback);
      if |replies| <= 2 * attempt then Run(Err(ServiceFailed), [generate])
      else
        var recipe := replies[2 * attempt];
        var evaluate := Evaluate(TextArg(recipe), RequestArg(request));
        if |replies| <= 2 * attempt + 1 then Run(Err(ServiceFailed), [generate, evaluate])
        else
          var evaluation := replies[2 * attempt + 1];
          if Approved(evaluation) then Run(Ok(Outcome(recipe, evaluation, attempt + 1)), [generate, evaluate])
          else
            var rest := Rounds(request, replies, maxRetries, attempt + 1, Some(evaluation), Some((recipe, evaluation)));
            Run(rest.result, [generate, evaluate] + rest.calls)
  }

  /** `optimize_recipe` with a given request and round budget. */
  ghost function Optimize(request: RecipeRequest, replies: seq<string>, maxRetries: nat): Run
  {
    Rounds(request, replies, maxRetries, 0, None, None)
  }

  /** Number of creator calls in a trace. */
  function Generations(calls: seq<Call>): nat
  {
    if |calls| == 0 then 0 else (if calls[0].Generate? then 1 else 0) + Generations(calls[1..])
  }

  /** Number of evaluator calls in a trace. */
  function Evaluations(calls: seq<Call>): nat
  {
    if |calls| == 0 then 0 else (if calls[0].Evaluate? then 1 else 0) + Evaluations(calls[1..])
  }

  // ---------------------------------------------------------------------------------------------
  // Properties of the rounds from any reachable state; the lemmas after them restate each one for
  // a whole run of the loop.

  /** The calls alternate creator/evaluator, the creator sees the previous evaluation as feedback
      (in strict mode) or none (in creative mode), the request never changes, and the evaluator
      receives the recipe as `recipe_request` and the request as `proposed_recipe`. */
  lemma {:induction false} RoundsTrace(request: RecipeRequest, replies: seq<string>, maxRetries: nat,
                                       attempt: nat, feedback: Option<string>, last: Option<(string, string)>)
    requires Reached(replies, maxRetries, attempt, feedback, last)
    ensures var calls := Rounds(request, replies, maxRetries, attempt, feedback, last).calls;
      && 2 * attempt + |calls| <= |replies| + 1
      && |calls| <= 2 * (maxRetries - attempt)
      && forall j :: 0 <= j < |calls| ==>
           && (j % 2 == 0 ==> calls[j] == CreatorCall(request, FeedbackBefore(replies, attempt + j / 2)))
           && (j % 2 == 1 ==> calls[j] == Evaluate(TextArg(RecipeOf(replies, attempt + j / 2)), RequestArg(request)))
    decreases maxRetries - attempt
  {
    if attempt < maxRetries && 2 * attempt + 1 < |replies| && !Approved(replies[2 * attempt + 1]) {
      var evaluation := replies[2 * attempt + 1];
      var next := (replies[2 * attempt], evaluation);
      assert Reached(replies, maxRetries, attempt + 1, Some(evaluation), Some(next));
      RoundsTrace(request, replies, maxRetries, attempt + 1, Some(evaluation), Some(next));
    }
  }

  /** Each round issues one creator call and then at most one evaluator call. */
  lemma {:induction false} RoundsCallCounts(request: RecipeRequest, replies: seq<string>, maxRetries: nat,
                                            attempt: nat, feedback: Option<string>, last: Option<(string, string)>)
    requires attempt <= maxRetries
    ensures var calls := Rounds(request, replies, maxRetries, attempt, feedback, last).calls;
      && Evaluations(calls) <= Generations(calls) <= Evaluations(calls) + 1
      && attempt + Generations(calls) <= maxRetries
    decreases maxRetries - attempt
  {
    if attempt < maxRetries {
      var generate := CreatorCall(request, feedback);
      if |replies| <= 2 * attempt {
        assert Generations([generate]) == 1 + Generations([]);
      } else {
        var evaluate := Evaluate(TextArg(replies[2 * attempt]), RequestArg(request));
        if |replies| <= 2 * attempt + 1 || Approved(replies[2 * attempt + 1]) {
          assert [generate, evaluate][1..] == [evaluate];
          assert Generations([generate, evaluate]) == 1 + Generations([evaluate]);
          assert Evaluations([generate, evaluate]) == Evaluations([evaluate]);
        } else {
          var evaluation := replies[2 * attempt + 1];
          var rest := Rounds(request, replies, maxRetries, attempt + 1, Some(evaluation), Some((replies[2 * attempt], evaluation)));
          RoundsCallCounts(request, replies, maxRetries, attempt + 1, Some(evaluation), Some((replies[2 * attempt], evaluation)));
          var calls := [generate, evaluate] + rest.calls;
          assert calls[1..] == [evaluate] + rest.calls;
          assert calls[1..][1..] == rest.calls;
        }
      }
    }
  }

  /** Whatever a run returns normally is a round the replies contain, no later than the budget,
      after which no call was made, and it is either an approval or the budget's last round. */
  lemma {:induction false} RoundsOutcome(request: RecipeRequest, replies: seq<string>, maxRetries: nat,
                                         attempt: nat, feedback: Option<string>, last: Option<(string, string)>)
    requires Reached(replies, maxRetries, attempt, feedback, last)
    ensures var run := Rounds(request, replies, maxRetries, attempt, feedback, last);
      run.result.Ok? ==>
        var o := run.result.value;
        && 1 <= o.attempt <= maxRetries
        && 2 * o.attempt <= |replies|
        && o.recipe == RecipeOf(replies, o.attempt - 1)
        && o.evaluation == EvaluationOf(replies, o.attempt - 1)
        && 2 * attempt + |run.calls| == 2 * o.attempt
        && (Approved(o.evaluation) || o.attempt == maxRetries)
        && forall i :: 0 <= i < o.attempt - 1 ==> !Approved(EvaluationOf(replies, i))
    ensures var run := Rounds(request, replies, maxRetries, attempt, feedback, last);
      run.result == Err(NoRoundRan) <==> maxRetries == 0
    decreases maxRetries - attempt
  {
    if attempt < maxRetries && 2 * attempt + 1 < |replies| && !Approved(replies[2 * attempt + 1]) {
      var evaluation := replies[2 * attempt + 1];
      var next := (replies[2 * attempt], evaluation);
      assert Reached(replies, maxRetries, attempt + 1, Some(evaluation), Some(next));
      RoundsOutcome(request, replies, maxRetries, attempt + 1, Some(evaluation), Some(next));
    }
  }

  /** The first approving round ends the loop with that round's pair and number. */
  lemma {:induction false} RoundsStopAtApproval(request: RecipeRequest, replies: seq<string>, maxRetries: nat,
                                                attempt: nat, feedback: Option<string>, last: Option<(string, string)>, j: nat)
    requires Reached(replies, maxRetries, attempt, feedback, last)
    requires attempt <= j < maxRetries && 2 * j + 1 < |replies|
    requires Approved(EvaluationOf(replies, j))
    requires forall i :: attempt <= i < j ==> !Approved(EvaluationOf(replies, i))
    ensures var run := Rounds(request, replies, maxRetries, attempt, feedback, last);
      && run.result == Ok(Outcome(RecipeOf(replies, j), EvaluationOf(replies, j), j + 1))
      && 2 * attempt + |run.calls| == 2 * (j + 1)
    decreases j - attempt
  {
    if attempt < j {
      var evaluation := replies[2 * attempt + 1];
      var next := (replies[2 * attempt], evaluation);
      assert !Approved(EvaluationOf(replies, attempt));
      assert Reached(replies, maxRetries, attempt + 1, Some(evaluation), Some(next));
      RoundsStopAtApproval(request, replies, maxRetries, attempt + 1, Some(evaluation), Some(next), j);
    }
  }

  /** With no approval within the budget, the loop returns the final round's pair and the budget. */
  lemma {:induction false} RoundsExhaust(request: RecipeRequest, replies: seq<string>, maxRetries: nat,
                                         attempt: nat, feedback: Option<string>, last: Option<(string, string)>)
    requires Reached(replies, maxRetries, attempt, feedback, last)
    requires 0 < maxRetries && 2 * maxRetries <= |replies|
    requires forall i :: attempt <= i < maxRetries ==> !Approved(EvaluationOf(replies, i))
    ensures var run := Rounds(request, replies, maxRetries, attempt, feedback, last);
      && run.result == Ok(Outcome(RecipeOf(replies, maxRetries - 1), EvaluationOf(replies, maxRetries - 1), maxRetries))
      && 2 * attempt + |run.calls| == 2 * maxRetries
    decreases maxRetries - attempt
  {
    if attempt < maxRetries {
      var evaluation := replies[2 * attempt + 1];
      var next := (replies[2 * attempt], evaluation);
      assert !Approved(EvaluationOf(replies, attempt));
      assert Reached(replies, maxRetries, attempt + 1, Some(evaluation), Some(next));
      RoundsExhaust(request, replies, maxRetries, attempt + 1, Some(evaluation), Some(next));
    }
  }

  /** A completion call that raises before any approval ends the loop with that failure, right after
      the failing call. */
  lemma {:induction false} RoundsFail(request: RecipeRequest, replies: seq<string>, maxRetries: nat,
                                      attempt: nat, feedback: Option<string>, last: Option<(string, string)>, j: nat)
    requires Reached(replies, maxRetries, attempt, feedback, last)
    requires attempt <= j < maxRetries && 2 * j <= |replies| <= 2 * j + 1
    requires forall i :: attempt <= i < j ==> !Approved(EvaluationOf(replies, i))
    ensures var run := Rounds(request, replies, maxRetries, attempt, feedback, last);
      && run.result == Err(ServiceFailed)
      && 2 * attempt + |run.calls| == |replies| + 1
    decreases j - attempt
  {
    if attempt < j {
      var evaluation := replies[2 * attempt + 1];
      var next := (replies[2 * attempt], evaluation);
      assert !Approved(EvaluationOf(replies, attempt));
      assert Reached(replies, maxRetries, attempt + 1, Some(evaluation), Some(next));
      RoundsFail(request, replies, maxRetries, attempt + 1, Some(evaluation), Some(next), j);
    }
  }

  // ---------------------------------------------------------------------------------------------
  // Properties of a whole run.

  /** Round k issues the creator call (feedback none and creative mode in round 0, the previous
      evaluation and strict mode later) and then the evaluator call with the swapped arguments;
      the request is the same in every call. */
  lemma OptimizeTrace(request: RecipeRequest, replies: seq<string>, maxRetries: nat)
    ensures var calls := Optimize(request, replies, maxRetries).calls;
      && |calls| <= 2 * maxRetries
      && |calls| <= |replies| + 1
      && forall k :: 0 <= k < |calls| ==>
           && (k % 2 == 0 ==> calls[k] == CreatorCall(request, FeedbackBefore(replies, k / 2)))
           && (k % 2 == 1 ==> calls[k] == Evaluate(TextArg(RecipeOf(replies, k / 2)), RequestArg(request)))
  {
    RoundsTrace(request, replies, maxRetries, 0, None, None);
  }

  /** Only the first creator call runs in creative mode; each later one is strict and carries
      exactly the evaluation of the round before it. */
  lemma FeedbackThreading(request: RecipeRequest, replies: seq<string>, maxRetries: nat)
    ensures var calls := Optimize(request, replies, maxRetries).calls;
      && |calls| <= |replies| + 1
      && forall k :: 0 <= k < |calls| && calls[k].Generate? ==>
        && calls[k].request == request
        && (k == 0 ==> calls[k].feedback == None && calls[k].mode == Creative)
        && (k > 0 ==> calls[k].feedback == Some(replies[k - 1]) && calls[k].mode == Strict)
  {
    OptimizeTrace(request, replies, maxRetries);
  }

  /** At most `maxRetries` creator calls and at most as many evaluator calls, one of each per round. */
  lemma CallBudget(request: RecipeRequest, replies: seq<string>, maxRetries: nat)
    ensures var calls := Optimize(request, replies, maxRetries).calls;
      && Generations(calls) <= maxRetries
      && Evaluations(calls) <= Generations(calls) <= Evaluations(calls) + 1
  {
    RoundsCallCounts(request, replies, maxRetries, 0, None, None);
  }

  /** A normal return names a round that really happened, numbered 1..maxRetries; a number below
      the budget means that round approved; every earlier round was rejected. */
  lemma OutcomeInRange(request: RecipeRequest, replies: seq<string>, maxRetries: nat)
    ensures var run := Optimize(request, replies, maxRetries);
      run.result.Ok? ==>
        var o := run.result.value;
        && 1 <= o.attempt <= maxRetries
        && 2 * o.attempt <= |replies|
        && o.recipe == RecipeOf(replies, o.attempt - 1)
        && o.evaluation == EvaluationOf(replies, o.attempt - 1)
        && |run.calls| == 2 * o.attempt
        && (o.attempt < maxRetries ==> Approved(o.evaluation))
        && forall i :: 0 <= i < o.attempt - 1 ==> !Approved(EvaluationOf(replies, i))
    ensures var run := Optimize(request, replies, maxRetries);
      run.result == Err(NoRoundRan) <==> maxRetries == 0
  {
    RoundsOutcome(request, replies, maxRetries, 0, None, None);
  }

  /** The first approving round ends the loop: its recipe, its evaluation, its 1-based number,
      and no call after its evaluator call. */
  lemma StopAtFirstApproval(request: RecipeRequest, replies: seq<string>, maxRetries: nat, j: nat)
    requires j < maxRetries && 2 * j + 1 < |replies|
    requires Approved(EvaluationOf(replies, j))
    requires forall i :: 0 <= i < j ==> !Approved(EvaluationOf(replies, i))
    ensures var run := Optimize(request, replies, maxRetries);
      && run.result == Ok(Outcome(RecipeOf(replies, j), EvaluationOf(replies, j), j + 1))
      && |run.calls| == 2 * (j + 1)
  {
    RoundsStopAtApproval(request, replies, maxRetries, 0, None, None, j);
  }

  /** Without any approval the loop returns the final round's recipe and evaluation with the
      budget as the attempt number, and raises nothing. */
  lemma ExhaustionReturnsLastRound(request: RecipeRequest, replies: seq<string>, maxRetries: nat)
    requires 0 < maxRetries && 2 * maxRetries <= |replies|
    requires forall i :: 0 <= i < maxRetries ==> !Approved(EvaluationOf(replies, i))
    ensures var run := Optimize(request, replies, maxRetries);
      && run.result == Ok(Outcome(RecipeOf(replies, maxRetries - 1), EvaluationOf(replies, maxRetries - 1), maxRetries))
      && |run.calls| == 2 * maxRetries
  {
    RoundsExhaust(request, replies, maxRetries, 0, None, None);
  }

  /** A completion call that raises before any approval propagates out of the loop. */
  lemma ServiceFailurePropagates(request: RecipeRequest, replies: seq<string>, maxRetries: nat, j: nat)
    requires j < maxRetries && 2 * j <= |replies| <= 2 * j + 1
    requires forall i :: 0 <= i < j ==> !Approved(EvaluationOf(replies, i))
    ensures var run := Optimize(request, replies, maxRetries);
      && run.result == Err(ServiceFailed)
      && |run.calls| == |replies| + 1
  {
    RoundsFail(request, replies, maxRetries, 0, None, None, j);
  }

  /** With the source's constants: at most five creator and five evaluator calls, and an attempt
      number between 1 and 5. */
  lemma RecipeLoopBounds(replies: seq<string>)
    ensures var run := Optimize(RECIPE_REQUEST, replies, MAX_RETRIES);
      && Generations(run.calls) <= 5
      && Evaluations(run.calls) <= 5
      && (run.result.Ok? ==> 1 <= run.result.value.attempt <= 5)
      && run.result != Err(NoRoundRan)
  {
    CallBudget(RECIPE_REQUEST, replies, MAX_RETRIES);
    OutcomeInRange(RECIPE_REQUEST, replies, MAX_RETRIES);
  }

  /** Three rounds, two rejections, then a reply beginning with "APPROVED": the loop reports round 3
      with the third recipe and that reply. */
  lemma ApprovedOnThirdAttempt(replies: seq<string>)
    requires |replies| == 6 && replies[1] == "rejected" && replies[3] == "rejected"
    requires |replies[5]| >= 8 && replies[5][..8] == "APPROVED"
    ensures var run := Optimize(RECIPE_REQUEST, replies, 3);
      run.result == Ok(Outcome(replies[4], replies[5], 3)) && |run.calls| == 6
  {
    RejectionNotApproved();
    UpperCaseVerdictApproved(replies[5]);
    assert EvaluationOf(replies, 0) == "rejected";
    assert EvaluationOf(replies, 1) == "rejected";
    StopAtFirstApproval(RECIPE_REQUEST, replies, 3, 2);
  }

  /** The loop as the source writes it: a counted loop over the rounds with early return. */
  method OptimizeRecipe(request: RecipeRequest, replies: seq<string>, maxRetries: nat) returns (result: Result<Outcome, Failure>)
    ensures result == Optimize(request, replies, maxRetries).result
    ensures result.Ok? ==> 1 <= result.value.attempt <= maxRetries
  {
    var currentFeedback: Option<string> := None;
    var last: Option<(string, string)> := None;
    var attempt: nat := 0;
    while attempt < maxRetries
      invariant attempt <= maxRetries
      invariant last.Some? ==> 0 < attempt
      invariant Optimize(request, replies, maxRetries).result == Rounds(request, replies, maxRetries, attempt, currentFeedback, last).result
    {
      if |replies| <= 2 * attempt {
        return Err(ServiceFailed);
      }
      var recipe := replies[2 * attempt];
      if |replies| <= 2 * attempt + 1 {
        return Err(ServiceFailed);
      }
      var evaluation := replies[2 * attempt + 1];
      var approved := IsApproved(evaluation);
      if approved {
        return Ok(Outcome(recipe, evaluation, attempt + 1));
      }
      currentFeedback := Some(evaluation);
      last := Some((recipe, evaluation));
      attempt := attempt + 1;
    }
    match last
    case None =>
      result := Err(NoRoundRan);
    case Some((recipe, evaluation)) =>
      result := Ok(Outcome(recipe, evaluation, maxRetries));
  }
}
