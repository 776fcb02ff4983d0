/** The fan-out/fan-in contract review of `analyze_contract`: three reviewer threads each write
    their completion reply into the shared dict `agent_outputs`, the threads are joined, and the
    summary agent reads the dict and the contract to build its prompt.

    Threads are modelled by their effect: each reviewer is one dict write, applied in the order
    the threads happen to finish (`order`, any arrangement of the three reviewers); joining all
    three before the summary is the sequential composition "all writes, then the read". */
module Parallelization {
  import opened Wrappers

  /** The shared dict `agent_outputs`. */
  type Store = map<string, string>

  datatype Reviewer = LegalTermsChecker | ComplianceValidator | FinancialRiskAssessor

  /** The three reviewers `analyze_contract` starts. */
  const REVIEWERS: set<Reviewer> := {LegalTermsChecker, ComplianceValidator, FinancialRiskAssessor}

  /** The dict key each reviewer writes its findings under. */
  datatype KeyScheme = KeyScheme(legal: string, compliance: string, financial: string)

  /** The keys the code writes (`agent_outputs["legal_terms_checker"] = ...` and so on). */
  const AS_WRITTEN: KeyScheme := KeyScheme("legal_terms_checker", "compliance_validator", "financial_risk_assessor")

  /** The keys the summary agent reads. */
  const INTENDED: KeyScheme := KeyScheme(LEGAL_KEY, COMPLIANCE_KEY, FINANCIAL_KEY)

  /** No two reviewers share a key. */
  predicate DisjointKeys(scheme: KeyScheme)
  {
    scheme.legal != scheme.compliance && scheme.legal != scheme.financial && scheme.compliance != scheme.financial
  }

  /** The key `r` writes under. */
  function OutputKey(scheme: KeyScheme, r: Reviewer): string
  {
    match r
    case LegalTermsChecker => scheme.legal
    case ComplianceValidator => scheme.compliance
    case FinancialRiskAssessor => scheme.financial
  }

  /** The keys the summary agent looks up. */
  const LEGAL_KEY: string := "legal"
  const COMPLIANCE_KEY: string := "compliance"
  const FINANCIAL_KEY: string := "financial"

  /** The texts the summary agent uses for a missing key. */
  const NO_LEGAL: string := "No legal analysis provided."
  const NO_COMPLIANCE: string := "No compliance analysis provided."
  const NO_FINANCIAL: string := "No financial analysis provided."

  /** How many characters of the contract the summary prompt quotes. */
  const EXCERPT_LENGTH: nat := 500

  /** The reply each reviewer's completion call returns; None is a call that raised. */
  datatype ReviewReplies = ReviewReplies(legal: Option<string>, compliance: Option<string>, financial: Option<string>)

  function ReplyOf(replies: ReviewReplies, r: Reviewer): Option<string>
  {
    match r
    case LegalTermsChecker => replies.legal
    case ComplianceValidator => replies.compliance
    case FinancialRiskAssessor => replies.financial
  }

  /** Different reviewers never share a key, in the code and in the read keys alike. */
  lemma SchemesDisjoint()
    ensures DisjointKeys(AS_WRITTEN)
    ensures DisjointKeys(INTENDED)
  {
  }

  /** With disjoint keys, two reviewers write the same key only if they are the same reviewer. */
  lemma OutputKeysDistinct(scheme: KeyScheme, r1: Reviewer, r2: Reviewer)
    requires DisjointKeys(scheme)
    ensures OutputKey(scheme, r1) == OutputKey(scheme, r2) <==> r1 == r2
  {
  }

  /** One reviewer thread: its reply is stored under its own key; a reply that raised ends the
      thread before the store, leaving the dict as it was. */
  function Review(scheme: KeyScheme, store: Store, r: Reviewer, reply: Option<string>): Store
  {
    match reply
    case None => store
    case Some(text) => store[OutputKey(scheme, r) := text]
  }

  /** A reviewer adds or overwrites its own key only; no other entry of the dict changes. */
  lemma ReviewTouchesOwnKeyOnly(scheme: KeyScheme, store: Store, r: Reviewer, reply: Option<string>)
    ensures var s := Review(scheme, store, r, reply);
      && (reply.Some? ==> s.Keys == store.Keys + {OutputKey(scheme, r)} && s[OutputKey(scheme, r)] == reply.value)
      && (reply.None? ==> s == store)
      && forall k :: k != OutputKey(scheme, r) ==> (k in s <==> k in store) && (k in store ==> s[k] == store[k])
  {
  }

  /** The reviewer threads' writes, applied in the order the threads finish. */
  function ApplyReviews(scheme: KeyScheme, store: Store, order: seq<Reviewer>, replies: ReviewReplies): Store
    decreases |order|
  {
    if |order| == 0 then store
    else ApplyReviews(scheme, Review(scheme, store, order[0], ReplyOf(replies, order[0])), order[1..], replies)
  }

  /** The entries the reviewers in `rs` contribute, independent of any order. */
  function Contributions(scheme: KeyScheme, replies: ReviewReplies, rs: set<Reviewer>): Store
    requires DisjointKeys(scheme)
  {
    map r | r in rs && ReplyOf(replies, r).Some? :: OutputKey(scheme, r) := ReplyOf(replies, r).value
  }

  /** The set of reviewers appearing in a completion order. */
  function Finished(order: seq<Reviewer>): set<Reviewer>
  {
    set r | r in order
  }

  /** Adding one reviewer to a set adds at most its own entry to the contributions. */
  lemma ContributionsInsert(scheme: KeyScheme, replies: ReviewReplies, r: Reviewer, rs: set<Reviewer>)
    requires DisjointKeys(scheme)
    ensures Contributions(scheme, replies, {r} + rs)
         == Review(scheme, Contributions(scheme, replies, rs), r, ReplyOf(replies, r))
  {
    var c := Contributions(scheme, replies, rs);
    var lhs := Contributions(scheme, replies, {r} + rs);
    var rhs := Review(scheme, c, r, ReplyOf(replies, r));
    forall k | k in lhs
      ensures k in rhs && lhs[k] == rhs[k]
    {
      var r' :| r' in {r} + rs && ReplyOf(replies, r').Some? && OutputKey(scheme, r') == k;
      OutputKeysDistinct(scheme, r, r');
    }
    forall k | k in rhs
      ensures k in lhs
    {
      if k != OutputKey(scheme, r) || ReplyOf(replies, r).None? {
        var r' :| r' in rs && ReplyOf(replies, r').Some? && OutputKey(scheme, r') == k;
        assert r' in {r} + rs;
      }
    }
  }

  /** Writing an entry before an overlay that agrees with it on that key is the same as putting
      the entry into the overlay. */
  lemma WriteBeforeOverlay(store: Store, overlay: Store, k: string, v: string)
    requires k in overlay ==> overlay[k] == v
    ensures store[k := v] + overlay == store + overlay[k := v]
  {
  }

  /** Applying the writes in sequence overlays the store with the finished reviewers' contributions. */
  lemma {:induction false} ApplyReviewsOverlay(scheme: KeyScheme, store: Store, order: seq<Reviewer>, replies: ReviewReplies)
    requires DisjointKeys(scheme)
    ensures ApplyReviews(scheme, store, order, replies) == store + Contributions(scheme, replies, Finished(order))
    decreases |order|
  {
    if |order| == 0 {
      assert Finished(order) == {};
      assert Contributions(scheme, replies, {}) == map[];
    } else {
      var r := order[0];
      var rest := order[1..];
      var reply := ReplyOf(replies, r);
      ApplyReviewsOverlay(scheme, Review(scheme, store, r, reply), rest, replies);
      assert Finished(order) == {r} + Finished(rest) by {
        assert order == [r] + rest;
      }
      var c := Contributions(scheme, replies, Finished(rest));
      ContributionsInsert(scheme, replies, r, Finished(rest));
      if reply.Some? {
        ContributionsHoldValue(scheme, replies, r, Finished(rest));
        WriteBeforeOverlay(store, c, OutputKey(scheme, r), reply.value);
      }
    }
  }

  /** A key present in the contributions holds its owner's reply. */
  lemma ContributionsHoldValue(scheme: KeyScheme, replies: ReviewReplies, r: Reviewer, rs: set<Reviewer>)
    requires DisjointKeys(scheme)
    requires ReplyOf(replies, r).Some?
    ensures var c := Contributions(scheme, replies, rs);
      OutputKey(scheme, r) in c ==> c[OutputKey(scheme, r)] == ReplyOf(replies, r).value
  {
    var c := Contributions(scheme, replies, rs);
    if OutputKey(scheme, r) in c {
      var r' :| r' in rs && ReplyOf(replies, r').Some? && OutputKey(scheme, r') == OutputKey(scheme, r);
      OutputKeysDistinct(scheme, r, r');
    }
  }

  /** Since the keys are disjoint, the final store depends only on which reviewers finished, not
      on the order of their writes. */
  lemma WriteOrderIrrelevant(scheme: KeyScheme, store: Store, order1: seq<Reviewer>, order2: seq<Reviewer>, replies: ReviewReplies)
    requires DisjointKeys(scheme)
    requires Finished(order1) == Finished(order2)
    ensures ApplyReviews(scheme, store, order1, replies) == ApplyReviews(scheme, store, order2, replies)
  {
    ApplyReviewsOverlay(scheme, store, order1, replies);
    ApplyReviewsOverlay(scheme, store, order2, replies);
  }

  /** An order in which the three started threads can finish: each reviewer exactly once. */
  predicate IsCompletionOrder(order: seq<Reviewer>)
  {
    |order| == 3 && Finished(order) == REVIEWERS
  }

  /** Each of the six finishing orders leaves the same store as the start order. */
  lemma AnyCompletionOrderSameStore(scheme: KeyScheme, store: Store, order: seq<Reviewer>, replies: ReviewReplies)
    requires DisjointKeys(scheme)
    requires IsCompletionOrder(order)
    ensures ApplyReviews(scheme, store, order, replies)
         == ApplyReviews(scheme, store, [LegalTermsChecker, ComplianceValidator, FinancialRiskAssessor], replies)
  {
    assert Finished([LegalTermsChecker, ComplianceValidator, FinancialRiskAssessor]) == REVIEWERS;
    WriteOrderIrrelevant(scheme, store, order, [LegalTermsChecker, ComplianceValidator, FinancialRiskAssessor], replies);
  }

  /** Python's `inputs.get(key, default)`. */
  function Get(store: Store, key: string, default: string): string
  {
    if key in store then store[key] else default
  }

  /** Python's `contract_text[:500]`. */
  function Excerpt(contract: string): (e: string)
    ensures |e| == if |contract| < EXCERPT_LENGTH then |contract| else EXCERPT_LENGTH
    ensures e <= contract
  {
    if |contract| <= EXCERPT_LENGTH then contract else contract[..EXCERPT_LENGTH]
  }

  /** What the summary agent puts into its prompt besides fixed wording. */
  datatype SummaryPrompt = SummaryPrompt(excerpt: string, legal: string, compliance: string, financial: string)

  /** `SummaryAgent.run` up to the completion call: three lookups with default and the excerpt. */
  function SummaryInputs(contract: string, inputs: Store): SummaryPrompt
  {
    SummaryPrompt(
      Excerpt(contract),
      Get(inputs, LEGAL_KEY, NO_LEGAL),
      Get(inputs, COMPLIANCE_KEY, NO_COMPLIANCE),
      Get(inputs, FINANCIAL_KEY, NO_FINANCIAL))
  }

  /** Each finding is the dict's entry for its key when present and the default text otherwise;
      the excerpt is the contract's first 500 characters, or all of it when shorter. */
  lemma SummaryLookups(contract: string, inputs: Store)
    ensures var p := SummaryInputs(contract, inputs);
      && p.excerpt <= contract && |p.excerpt| == (if |contract| < EXCERPT_LENGTH then |contract| else EXCERPT_LENGTH)
      && (LEGAL_KEY in inputs ==> p.legal == inputs[LEGAL_KEY])
      && (LEGAL_KEY !in inputs ==> p.legal == NO_LEGAL)
      && (COMPLIANCE_KEY in inputs ==> p.compliance == inputs[COMPLIANCE_KEY])
      && (COMPLIANCE_KEY !in inputs ==> p.compliance == NO_COMPLIANCE)
      && (FINANCIAL_KEY in inputs ==> p.financial == inputs[FINANCIAL_KEY])
      && (FINANCIAL_KEY !in inputs ==> p.financial == NO_FINANCIAL)
  {
  }

  /** The summary call failed; it runs on the caller's thread, so the exception leaves
      `analyze_contract`. */
  datatype Failure = ServiceFailed

  /** `store`: the shared dict once every thread is joined, which is also what the summary agent
      receives and what remains in the module-level dict afterwards, whether or not the summary
      call raises; `prompt`: what the summary agent builds from it before its completion call;
      `summary`: the returned text, or the failure the call raised. */
  datatype Analysis = Analysis(store: Store, prompt: SummaryPrompt, summary: Result<string, Failure>)

  /** `analyze_contract`: fan out the three reviewers, join them, then summarise. `agentOutputs` is
      the shared dict before the call (empty at program start); `summaryReply` is the summary's
      completion reply, None if that call raised. */
  function AnalyzeContract(scheme: KeyScheme, agentOutputs: Store, contract: string, order: seq<Reviewer>,
                           replies: ReviewReplies, summaryReply: Option<string>): Analysis
    requires IsCompletionOrder(order)
  {
    var joined := ApplyReviews(scheme, agentOutputs, order, replies);
    var summary := match summaryReply
      case None => Err(ServiceFailed)
      case Some(text) => Ok(text);
    Analysis(joined, SummaryInputs(contract, joined), summary)
  }

  /** The summary agent runs only after all three writes: it receives the dict holding every
      successful reviewer's reply under that reviewer's key and every other entry as before. The
      dict keeps those writes when the summary call raises; only the summary is then a failure. */
  lemma SummaryAfterJoin(scheme: KeyScheme, agentOutputs: Store, contract: string, order: seq<Reviewer>,
                         replies: ReviewReplies, summaryReply: Option<string>)
    requires DisjointKeys(scheme)
    requires IsCompletionOrder(order)
    ensures var a := AnalyzeContract(scheme, agentOutputs, contract, order, replies, summaryReply);
      && a.store == agentOutputs + Contributions(scheme, replies, REVIEWERS)
      && a.prompt == SummaryInputs(contract, a.store)
      && (a.summary.Ok? <==> summaryReply.Some?)
      && (a.summary.Ok? ==> a.summary.value == summaryReply.value)
  {
    ApplyReviewsOverlay(scheme, agentOutputs, order, replies);
  }

  /** A reviewer's key is among the joined contributions exactly when its call succeeded, and then
      it holds that reply. */
  lemma ContributionsHoldReplies(scheme: KeyScheme, replies: ReviewReplies, r: Reviewer)
    requires DisjointKeys(scheme)
    ensures ReplyOf(replies, r).Some? <==> OutputKey(scheme, r) in Contributions(scheme, replies, REVIEWERS)
    ensures ReplyOf(replies, r).Some? ==> Contributions(scheme, replies, REVIEWERS)[OutputKey(scheme, r)] == ReplyOf(replies, r).value
  {
    assert r in REVIEWERS;
    var c := Contributions(scheme, replies, REVIEWERS);
    if OutputKey(scheme, r) in c {
      var r' :| r' in REVIEWERS && ReplyOf(replies, r').Some? && OutputKey(scheme, r') == OutputKey(scheme, r);
      OutputKeysDistinct(scheme, r, r');
    }
  }

  /** The analysis is the same whichever order the three threads finish in. */
  lemma AnalysisIndependentOfOrder(scheme: KeyScheme, agentOutputs: Store, contract: string, order1: seq<Reviewer>,
                                   order2: seq<Reviewer>, replies: ReviewReplies, summaryReply: Option<string>)
    requires DisjointKeys(scheme)
    requires IsCompletionOrder(order1) && IsCompletionOrder(order2)
    ensures AnalyzeContract(scheme, agentOutputs, contract, order1, replies, summaryReply)
         == AnalyzeContract(scheme, agentOutputs, contract, order2, replies, summaryReply)
  {
    WriteOrderIrrelevant(scheme, agentOutputs, order1, order2, replies);
  }

  /** The three writer keys of a scheme. */
  function WriterKeys(scheme: KeyScheme): set<string>
  {
    {scheme.legal, scheme.compliance, scheme.financial}
  }

  /** When every reviewer succeeds, the contributions cover exactly the three writer keys. */
  lemma AllReviewersContribute(scheme: KeyScheme, replies: ReviewReplies)
    requires DisjointKeys(scheme)
    requires replies.legal.Some? && replies.compliance.Some? && replies.financial.Some?
    ensures Contributions(scheme, replies, REVIEWERS).Keys == WriterKeys(scheme)
    ensures |WriterKeys(scheme)| == 3
  {
    var c := Contributions(scheme, replies, REVIEWERS);
    ContributionsHoldReplies(scheme, replies, LegalTermsChecker);
    ContributionsHoldReplies(scheme, replies, ComplianceValidator);
    ContributionsHoldReplies(scheme, replies, FinancialRiskAssessor);
    forall k | k in c
      ensures k in WriterKeys(scheme)
    {
      var r :| r in REVIEWERS && ReplyOf(replies, r).Some? && OutputKey(scheme, r) == k;
    }
  }

  /** From an empty dict with every reviewer succeeding, the summary agent sees exactly three
      entries: the three reviewer keys with their replies. */
  lemma ThreeEntriesAfterJoin(scheme: KeyScheme, contract: string, order: seq<Reviewer>,
                              replies: ReviewReplies, summaryReply: Option<string>)
    requires DisjointKeys(scheme)
    requires IsCompletionOrder(order)
    requires replies.legal.Some? && replies.compliance.Some? && replies.financial.Some?
    ensures var store := AnalyzeContract(scheme, map[], contract, order, replies, summaryReply).store;
      && store.Keys == WriterKeys(scheme)
      && |store| == 3
      && store[scheme.legal] == replies.legal.value
      && store[scheme.compliance] == replies.compliance.value
      && store[scheme.financial] == replies.financial.value
  {
    JoinedFromEmpty(scheme, order, replies);
    var c := Contributions(scheme, replies, REVIEWERS);
    AllReviewersContribute(scheme, replies);
    assert |c| == |c.Keys|;
    ContributionsHoldReplies(scheme, replies, LegalTermsChecker);
    ContributionsHoldReplies(scheme, replies, ComplianceValidator);
    ContributionsHoldReplies(scheme, replies, FinancialRiskAssessor);
  }

  /** Joined from an empty dict, the store holds the contributions and nothing else. */
  lemma JoinedFromEmpty(scheme: KeyScheme, order: seq<Reviewer>, replies: ReviewReplies)
    requires DisjointKeys(scheme)
    requires IsCompletionOrder(order)
    ensures ApplyReviews(scheme, map[], order, replies) == Contributions(scheme, replies, REVIEWERS)
  {
    ApplyReviewsOverlay(scheme, map[], order, replies);
    var c := Contributions(scheme, replies, REVIEWERS);
    assert map[] + c == c;
  }

  /** The keys the reviewers write are never the keys the summary agent reads. */
  lemma WrittenKeysNeverRead()
    ensures WriterKeys(AS_WRITTEN) !! {LEGAL_KEY, COMPLIANCE_KEY, FINANCIAL_KEY}
  {
  }

  /** Every contributed key is one of the scheme's writer keys. */
  lemma ContributionKeys(scheme: KeyScheme, replies: ReviewReplies, rs: set<Reviewer>)
    requires DisjointKeys(scheme)
    ensures Contributions(scheme, replies, rs).Keys <= WriterKeys(scheme)
  {
    forall k | k in Contributions(scheme, replies, rs)
      ensures k in WriterKeys(scheme)
    {
      var r :| r in rs && ReplyOf(replies, r).Some? && OutputKey(scheme, r) == k;
    }
  }

  /** As written, the joined dict holds none of the keys the summary agent reads, unless they
      were there before the reviewers ran. */
  lemma JoinedStoreLacksReadKeys(agentOutputs: Store, order: seq<Reviewer>, replies: ReviewReplies)
    requires LEGAL_KEY !in agentOutputs && COMPLIANCE_KEY !in agentOutputs && FINANCIAL_KEY !in agentOutputs
    ensures var joined := ApplyReviews(AS_WRITTEN, agentOutputs, order, replies);
      LEGAL_KEY !in joined && COMPLIANCE_KEY !in joined && FINANCIAL_KEY !in joined
  {
    SchemesDisjoint();
    WrittenKeysNeverRead();
    ApplyReviewsOverlay(AS_WRITTEN, agentOutputs, order, replies);
    ContributionKeys(AS_WRITTEN, replies, Finished(order));
  }

  /** As written, whatever the reviewers reply, the summary agent is given the three default
      texts (starting from a dict without the looked-up keys, such as the empty one at start). */
  lemma FindingsAlwaysDefault(agentOutputs: Store, contract: string, order: seq<Reviewer>,
                              replies: ReviewReplies, summaryReply: Option<string>)
    requires IsCompletionOrder(order)
    requires LEGAL_KEY !in agentOutputs && COMPLIANCE_KEY !in agentOutputs && FINANCIAL_KEY !in agentOutputs
    ensures AnalyzeContract(AS_WRITTEN, agentOutputs, contract, order, replies, summaryReply).prompt == SummaryPrompt(Excerpt(contract), NO_LEGAL, NO_COMPLIANCE, NO_FINANCIAL)
  {
    JoinedStoreLacksReadKeys(agentOutputs, order, replies);
    SummaryLookups(contract, ApplyReviews(AS_WRITTEN, agentOutputs, order, replies));
  }

  /** With the keys the summary agent reads, each finding is that reviewer's reply, or the default
      text when its call raised. */
  lemma IntendedFindingsCarryReviews(contract: string, order: seq<Reviewer>, replies: ReviewReplies,
                                      summaryReply: Option<string>)
    requires IsCompletionOrder(order)
    ensures AnalyzeContract(INTENDED, map[], contract, order, replies, summaryReply).prompt == SummaryPrompt(Excerpt(contract), replies.legal.GetOr(NO_LEGAL),
                                              replies.compliance.GetOr(NO_COMPLIANCE), replies.financial.GetOr(NO_FINANCIAL))
  {
    SchemesDisjoint();
    ApplyReviewsOverlay(INTENDED, map[], order, replies);
    var c := Contributions(INTENDED, replies, REVIEWERS);
    assert map[] + c == c;
    ContributionsHoldReplies(INTENDED, replies, LegalTermsChecker);
    ContributionsHoldReplies(INTENDED, replies, ComplianceValidator);
    ContributionsHoldReplies(INTENDED, replies, FinancialRiskAssessor);
    SummaryLookups(contract, c);
  }

  /** The worked scenario: replies "A", "B", "C". As written the dict holds them under the
      reviewer names and the summary agent gets the three defaults; with the read keys the dict
      holds them under those keys and the summary agent gets "A", "B" and "C". */
  lemma ScenarioABC(contract: string, summaryReply: Option<string>, order: seq<Reviewer>)
    requires IsCompletionOrder(order)
    ensures var replies := ReviewReplies(Some("A"), Some("B"), Some("C"));
      var asWritten := AnalyzeContract(AS_WRITTEN, map[], contract, order, replies, summaryReply);
      var intended := AnalyzeContract(INTENDED, map[], contract, order, replies, summaryReply);
      && asWritten.store == map["legal_terms_checker" := "A", "compliance_validator" := "B", "financial_risk_assessor" := "C"]
      && asWritten.prompt == SummaryPrompt(Excerpt(contract), NO_LEGAL, NO_COMPLIANCE, NO_FINANCIAL)
      && intended.store == map["legal" := "A", "compliance" := "B", "financial" := "C"]
      && intended.prompt == SummaryPrompt(Excerpt(contract), "A", "B", "C")
  {
    var replies := ReviewReplies(Some("A"), Some("B"), Some("C"));
    SchemesDisjoint();
    ThreeEntriesAfterJoin(AS_WRITTEN, contract, order, replies, summaryReply);
    ThreeEntriesAfterJoin(INTENDED, contract, order, replies, summaryReply);
    FindingsAlwaysDefault(map[], contract, order, replies, summaryReply);
    IntendedFindingsCarryReviews(contract, order, replies, summaryReply);
  }
}
