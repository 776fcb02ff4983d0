# Agent workflows: refine loop and parallel result store

This project is a Dafny model of two agent workflows built on a chat-completion service. Every completion call is an oracle: the model is given the reply text for each call in advance.

- **The propose-evaluate-refine loop `optimize_recipe`** (`optimizer.dfy`, module `Optimizer`).
  - A recipe creator and a nutrition evaluator take turns for at most `MAX_RETRIES` (5) rounds.
  - In the first round the creator runs in creative mode with no feedback. In every later round it runs in strict mode and receives the previous evaluation as feedback.
  - A round is approved when the lower-cased evaluation contains `"approved"`.
  - The loop returns `(recipe, evaluation, attempt)` for the first approved round. If no round is approved, it returns the last round with `MAX_RETRIES` as the attempt number.
  - The oracle is one sequence `replies`, consumed in call order: creator, evaluator, creator, and so on. A call made after the sequence is used up is a call that raised. Its exception leaves the loop.
  - The ghost function `Rounds` is the reference definition and also records the issued calls as a trace. The method `OptimizeRecipe` is the loop itself.
  - The round budget is a parameter. With a budget of 0, the final `return` would read unbound variables. The model returns `Err(NoRoundRan)` in that case.
- **The fan-out/fan-in contract review `analyze_contract`** (`parallelization.dfy`, module `Parallelization`).
  - Three reviewer threads each store their reply in the shared dict `agent_outputs`.
  - After all three threads are joined, the summary agent reads the dict with three lookups that have defaults, plus a 500-character excerpt of the contract.
  - Threads are modelled by their effect. Each reviewer is one dict write. `order`, the order in which the threads finish, is any arrangement of the three reviewers.
  - A reviewer whose completion call raised writes nothing. In Python an exception in a thread target does not propagate through `join`, so the summary still runs.
  - The dict keys are a parameter `KeyScheme`:
    - `AS_WRITTEN` holds the keys the reviewers write.
    - `INTENDED` holds the keys the summary agent reads.
- `text.dfy` (module `Text`) holds ASCII `str.lower` and the substring test. `wrappers.dfy` holds `Option` and `Result`.

Two points in the review code:

- **Dict keys.** The `SummaryAgent` docstring (line 99) says it synthesizes the findings of all the specialised agents, and `analyze_contract` collects their outputs (lines 133 and 150). The reviewers store their replies under `legal_terms_checker`, `compliance_validator` and `financial_risk_assessor`, but the summary agent reads `legal`, `compliance` and `financial`. The model follows the code. See Findings below.
- **Thread failures.** Under Python `threading` semantics, an exception raised in a thread's target ends that thread only, and `join` returns normally. So a failing reviewer does not abort the analysis: its key is simply missing when the summary agent reads the dict.
- **Failing summary.** The reviewers' writes are in the module-level dict before the summary call. They stay there when that call raises, so the model returns the joined dict and prompt on both paths, with the summary as a `Result`.

Two further points in the loop's code:

- **Swapped evaluator arguments.** The loop calls `evaluate(current_recipe_str, RECIPE_REQUEST)` against the signature `evaluate(recipe_request, proposed_recipe)`. So the recipe is passed as `recipe_request` and the request as `proposed_recipe`. The call trace records this swap (`Evaluate(TextArg(recipe), RequestArg(request))`).
- **Return type.** `optimize_recipe` is annotated `-> None` but returns a triple. The model returns the triple.

## Model

| member | source | states |
|---|---|---|
| Text.LowerChar | agentic-ai/lesson_13_2_optimizer_workflow.py:82 | `lower` maps each ASCII capital to the small letter at the same alphabet offset and leaves every other character unchanged |
| Text.Lower | agentic-ai/lesson_13_2_optimizer_workflow.py:82 | `evaluation_str.lower()` keeps the length and folds each character on its own |
| Text.LowerSlice | agentic-ai/lesson_13_2_optimizer_workflow.py:82 | lower-casing a slice gives the same text as slicing the lower-cased string |
| Text.LowerKeepsLowerCase | agentic-ai/lesson_13_2_optimizer_workflow.py:82 | text without capitals, such as `"approved"`, is unchanged by `lower` |
| Text.Contains | agentic-ai/lesson_13_2_optimizer_workflow.py:82 | Python's `pattern in text` on strings: some slice of the text equals the pattern; decided by `ContainsScan` |
| Text.ContainsScan | agentic-ai/lesson_13_2_optimizer_workflow.py:82 | the `in` test answers true exactly when the pattern equals some slice of the text |
| Optimizer.Approved | agentic-ai/lesson_13_2_optimizer_workflow.py:82 | the approval predicate: "approved" is a substring of the lower-cased reply; characterised by `ApprovedIffWordAnywhere` and decided by `IsApproved` |
| Optimizer.IsApproved | agentic-ai/lesson_13_2_optimizer_workflow.py:82 | the loop's approval test decides the approval predicate in both directions |
| Optimizer.ApprovedIffWordAnywhere | agentic-ai/lesson_13_2_optimizer_workflow.py:82 | a reply is approved exactly when it spells "approved" in any casing at some position |
| Optimizer.UpperCaseVerdictApproved | agentic-ai/lesson_13_2_optimizer_workflow.py:82 | a reply that begins with "APPROVED", the format the evaluator prompt asks for at line 63, is approved |
| Optimizer.NegatedVerdictApproved | agentic-ai/lesson_13_2_optimizer_workflow.py:82 | "not approved" followed by any text is also approved, because the word is matched anywhere |
| Optimizer.RejectionNotApproved | agentic-ai/lesson_13_2_optimizer_workflow.py:82 | a reply without the word ("rejected") is not an approval |
| Optimizer.CreatorCall | agentic-ai/lesson_13_2_optimizer_workflow.py:27-43 | the creator runs in creative mode exactly when there is no feedback; it passes the request and feedback unchanged |
| Optimizer.Rounds | agentic-ai/lesson_13_2_optimizer_workflow.py:76-87 | the reference definition of the remaining rounds of the loop from a given attempt, feedback and last pair, with the calls issued; characterised by `RoundsTrace`, `RoundsCallCounts`, `RoundsOutcome`, `RoundsStopAtApproval`, `RoundsExhaust` and `RoundsFail` |
| Optimizer.Optimize | agentic-ai/lesson_13_2_optimizer_workflow.py:72-87 | `optimize_recipe` from its initial state (no feedback, no round yet); characterised by `OptimizeTrace`, `FeedbackThreading`, `CallBudget`, `OutcomeInRange`, `StopAtFirstApproval`, `ExhaustionReturnsLastRound` and `ServiceFailurePropagates`, and implemented by `OptimizeRecipe` |
| Optimizer.RoundsTrace | agentic-ai/lesson_13_2_optimizer_workflow.py:76-85 | from any reachable loop state, the calls alternate creator/evaluator; each creator call gets the previous evaluation; each evaluator call gets the round's recipe and the request in swapped positions; there are no more than two calls per remaining round |
| Optimizer.RoundsCallCounts | agentic-ai/lesson_13_2_optimizer_workflow.py:76-80 | from any state, creator calls number at most the remaining rounds; evaluator calls are equal to creator calls or one fewer |
| Optimizer.RoundsOutcome | agentic-ai/lesson_13_2_optimizer_workflow.py:76-87 | from any reachable state, a normal return names a round that ran; its pair is that round's replies; it is approved or the last round; all earlier rounds were rejected; a budget of 0 is exactly the no-round case |
| Optimizer.RoundsStopAtApproval | agentic-ai/lesson_13_2_optimizer_workflow.py:82-84 | from any reachable state, the first approving round returns its own recipe, evaluation and 1-based number; it makes no call after its evaluation |
| Optimizer.RoundsExhaust | agentic-ai/lesson_13_2_optimizer_workflow.py:86-87 | from any reachable state with no approval left in the budget, the loop returns the final round's pair and the budget |
| Optimizer.RoundsFail | agentic-ai/lesson_13_2_optimizer_workflow.py:76-80 | from any reachable state, a completion call that raises before an approval ends the loop right after that call, with the failure |
| Optimizer.OptimizeTrace | agentic-ai/lesson_13_2_optimizer_workflow.py:73-85 | the whole run's calls: call 2k is round k's creator call with feedback none or the previous evaluation; call 2k+1 is round k's evaluator call with swapped arguments; the request is the same throughout |
| Optimizer.FeedbackThreading | agentic-ai/lesson_13_2_optimizer_workflow.py:73-85 | the first creator call gets no feedback and creative mode; every later one gets exactly the preceding evaluation and strict mode; the request never changes |
| Optimizer.CallBudget | agentic-ai/lesson_13_2_optimizer_workflow.py:76-80 | at most `maxRetries` creator calls and at most as many evaluator calls, one of each per round |
| Optimizer.OutcomeInRange | agentic-ai/lesson_13_2_optimizer_workflow.py:76-87 | the returned attempt lies in 1..maxRetries and names a round that ran; its recipe and evaluation are that round's replies; below the budget it is an approval; all earlier rounds were rejected; only a zero budget fails with no round |
| Optimizer.StopAtFirstApproval | agentic-ai/lesson_13_2_optimizer_workflow.py:82-84 | the first approving round j returns (recipe j, evaluation j, j+1) after exactly 2(j+1) calls |
| Optimizer.ExhaustionReturnsLastRound | agentic-ai/lesson_13_2_optimizer_workflow.py:86-87 | with no approval, the loop returns the last round's recipe and evaluation with the budget as the attempt, and raises nothing |
| Optimizer.ServiceFailurePropagates | agentic-ai/lesson_13_2_optimizer_workflow.py:78-80 | a creator or evaluator call that raises before any approval ends the run with that failure, right after the failing call |
| Optimizer.RecipeLoopBounds | agentic-ai/lesson_13_2_optimizer_workflow.py:72-87 | with `MAX_RETRIES` = 5 (line 11) and the fixed request: at most five creator and five evaluator calls, an attempt number in 1..5, and never the no-round failure |
| Optimizer.ApprovedOnThirdAttempt | agentic-ai/lesson_13_2_optimizer_workflow.py:76-84 | two "rejected" replies and then a reply beginning "APPROVED" give (third recipe, that reply, 3) after six calls |
| Optimizer.OptimizeRecipe | agentic-ai/lesson_13_2_optimizer_workflow.py:72-87 | the counted loop with early return gives the reference definition's result, with the attempt in 1..maxRetries |
| Parallelization.SchemesDisjoint | agentic-ai/lesson_11_3_parallelization.py:61-95 | the three reviewers write pairwise distinct keys |
| Parallelization.OutputKeysDistinct | agentic-ai/lesson_11_3_parallelization.py:61-95 | with distinct keys, two reviewers share a key exactly when they are the same reviewer |
| Parallelization.Review | agentic-ai/lesson_11_3_parallelization.py:61-95 | one reviewer thread's effect on the dict: its reply stored under its own key, or nothing when its call raised; characterised by `ReviewTouchesOwnKeyOnly` |
| Parallelization.ApplyReviews | agentic-ai/lesson_11_3_parallelization.py:142-149 | the three threads' writes applied in the order they finish; characterised by `ApplyReviewsOverlay`, `WriteOrderIrrelevant` and `AnyCompletionOrderSameStore` |
| Parallelization.ReviewTouchesOwnKeyOnly | agentic-ai/lesson_11_3_parallelization.py:61-95 | a reviewer adds or overwrites only its own key, with its reply; every other entry is unchanged; a raising reviewer changes nothing |
| Parallelization.ContributionsInsert | agentic-ai/lesson_11_3_parallelization.py:61-95 | one more finished reviewer adds exactly its own write to the order-free contributions |
| Parallelization.WriteBeforeOverlay | agentic-ai/lesson_11_3_parallelization.py:61-95 | a write followed by an overlay that agrees on that key is the same as folding the write into the overlay |
| Parallelization.ApplyReviewsOverlay | agentic-ai/lesson_11_3_parallelization.py:142-149 | the writes in any finishing sequence equal the old dict overlaid with the finished reviewers' entries |
| Parallelization.ContributionsHoldValue | agentic-ai/lesson_11_3_parallelization.py:61-95 | a reviewer's key in the contributions holds that reviewer's reply |
| Parallelization.WriteOrderIrrelevant | agentic-ai/lesson_11_3_parallelization.py:142-149 | two finishing sequences of the same reviewers leave the same dict |
| Parallelization.AnyCompletionOrderSameStore | agentic-ai/lesson_11_3_parallelization.py:142-149 | each of the six finishing orders of the three threads leaves the dict the start order leaves |
| Parallelization.Get | agentic-ai/lesson_11_3_parallelization.py:106-108 | Python's `dict.get(key, default)`; its use for the three findings is stated by `SummaryLookups` |
| Parallelization.SummaryInputs | agentic-ai/lesson_11_3_parallelization.py:106-113 | what `SummaryAgent.run` puts into its prompt: the excerpt and the three findings; characterised by `SummaryLookups`, `FindingsAlwaysDefault` and `IntendedFindingsCarryReviews` |
| Parallelization.AnalyzeContract | agentic-ai/lesson_11_3_parallelization.py:132-154 | `analyze_contract`: the reviewers' writes in finishing order, then the summary prompt built from the joined dict and the summary reply; characterised by `SummaryAfterJoin`, `AnalysisIndependentOfOrder` and `ThreeEntriesAfterJoin` |
| Parallelization.Excerpt | agentic-ai/lesson_11_3_parallelization.py:113 | the excerpt is a prefix of the contract of length min(500, length) |
| Parallelization.SummaryLookups | agentic-ai/lesson_11_3_parallelization.py:106-113 | each finding is the dict entry for "legal", "compliance" or "financial" when present and its default text otherwise; the excerpt is the 500-character prefix |
| Parallelization.SummaryAfterJoin | agentic-ai/lesson_11_3_parallelization.py:146-152 | the summary runs after all three writes; it receives the old dict overlaid with every successful reviewer's reply; that dict remains after the call whether or not the summary call raises; the summary is an error exactly when its call raises |
| Parallelization.ContributionsHoldReplies | agentic-ai/lesson_11_3_parallelization.py:61-95 | after the join, a reviewer's key is present exactly when its call succeeded, and then it holds that reply |
| Parallelization.AnalysisIndependentOfOrder | agentic-ai/lesson_11_3_parallelization.py:141-154 | the whole analysis is the same whichever order the threads finish in |
| Parallelization.AllReviewersContribute | agentic-ai/lesson_11_3_parallelization.py:61-95 | when every reviewer succeeds, their entries cover exactly the three distinct writer keys |
| Parallelization.ThreeEntriesAfterJoin | agentic-ai/lesson_11_3_parallelization.py:14-152 | starting from the empty dict with every reviewer succeeding, the summary agent receives exactly three entries: each reviewer's key with its reply |
| Parallelization.JoinedFromEmpty | agentic-ai/lesson_11_3_parallelization.py:14-149 | from the empty dict, the joined dict is exactly the reviewers' entries |
| Parallelization.WrittenKeysNeverRead | agentic-ai/lesson_11_3_parallelization.py:61-108 | none of the written keys is one of the read keys |
| Parallelization.ContributionKeys | agentic-ai/lesson_11_3_parallelization.py:61-95 | the reviewers add no key other than their own writer keys |
| Parallelization.JoinedStoreLacksReadKeys | agentic-ai/lesson_11_3_parallelization.py:61-108 | as written, the joined dict holds none of the read keys unless they were present before |
| Parallelization.FindingsAlwaysDefault | agentic-ai/lesson_11_3_parallelization.py:106-108 | as written, whatever the reviewers reply, the summary prompt carries the three default texts |
| Parallelization.IntendedFindingsCarryReviews | agentic-ai/lesson_11_3_parallelization.py:106-108 | with the read keys as writer keys, each finding is its reviewer's reply, or the default when that call raised |
| Parallelization.ScenarioABC | agentic-ai/lesson_11_3_parallelization.py:132-154 | replies "A", "B", "C": as written the dict holds them under the reviewer names and the prompt carries the three default texts; with the read keys the dict holds them under those keys and the prompt carries "A", "B" and "C" |

## Left out

- The completion client, `load_dotenv`, the API key and base URL. Each completion call is an oracle reply, and a raised call is a missing reply.
- Prompt wording, model names, f-string formatting and `print` output. They carry no contract.
- The unused `system_message` assigned in the strict branch of `RecipeCreatorAgent.run`. The call still sends `system_prompt`, and prompt text is not modelled.
- Temperatures as floating point. They appear only as the `Creative`/`Strict` mode tag, for 1 and 0.3 respectively.
- Full Unicode `str.lower`. Only ASCII letters are folded, so `Lower` differs from `str.lower` on non-ASCII letters. No non-ASCII character lower-cases to one of the letters of "approved", so the approval test does not depend on this difference.
- Real threads: interleavings, `start`/`join` and memory visibility. Only the resulting writes are modelled, in some finishing order, followed by the read. Each reviewer's write is one atomic dict update.
- The reviewer prompts and the `mimetypes` import.
- Optimizer.OptimizeRecipe: the method returns only the result. The call trace is stated on the reference definition `Rounds`, which the method is proved equal to.

## Findings

| source | as written | input that shows it | evidently intended | confidence | as-written member | corrected member |
|---|---|---|---|---|---|---|
| agentic-ai/lesson_11_3_parallelization.py:106-108 | the reviewers write `legal_terms_checker`, `compliance_validator` and `financial_risk_assessor` (lines 61, 78, 95), but the summary agent reads `legal`, `compliance` and `financial` | the reviewers reply "A", "B", "C"; the dict starts empty | the summary agent receives the three reviewers' findings | high, not executed | Parallelization.FindingsAlwaysDefault | Parallelization.IntendedFindingsCarryReviews |

The worked input is `Parallelization.ScenarioABC`. With the keys as written, the prompt carries "No legal analysis provided." and the two other default texts, whether or not the summary call raises. With matching keys (`INTENDED`), it carries "A", "B" and "C".
