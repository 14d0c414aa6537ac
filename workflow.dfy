/**
 * The analysis pipeline's control flow: the router that picks the next node
 * after a tool call, and the static edges of the graph it is wired into.
 * The LLM nodes, the tool node and the graph library are not modelled; what
 * `tools_condition` decides is an input.
 */
module Workflow {
  import opened Wrappers

  /** The five analyses the pipeline fills in, one per primary node. */
  datatype AnalysisKey = IdeaAnalysis | MarketAnalysis | CompetitionAnalysis | RiskAssessment | SwotAnalysis

  /** The state key of each analysis. */
  function KeyName(k: AnalysisKey): string
  {
    match k
    case IdeaAnalysis => "idea_analysis"
    case MarketAnalysis => "market_analysis"
    case CompetitionAnalysis => "competition_analysis"
    case RiskAssessment => "risk_assessment"
    case SwotAnalysis => "swot_analysis"
  }

  /** The order in which the router looks for a pending analysis. */
  const KeyOrder: seq<AnalysisKey> := [IdeaAnalysis, MarketAnalysis, CompetitionAnalysis, RiskAssessment, SwotAnalysis]

  /** The nodes of the graph. */
  datatype Node =
    | UnderstandIdea | AnalyzeMarket | AnalyzeCompetition | AssessRisk | PerformSwot
    | UnderstandIdeaFallback | AnalyzeMarketFallback | AnalyzeCompetitionFallback
    | AssessRiskFallback | PerformSwotFallback
    | Tools | Advisor

  /** The name each node is registered under. */
  function NodeName(n: Node): string
  {
    match n
    case UnderstandIdea => "understand_idea"
    case AnalyzeMarket => "analyze_market"
    case AnalyzeCompetition => "analyze_competition"
    case AssessRisk => "assess_risk"
    case PerformSwot => "perform_swot"
    case UnderstandIdeaFallback => "understand_idea_fallback"
    case AnalyzeMarketFallback => "analyze_market_fallback"
    case AnalyzeCompetitionFallback => "analyze_competition_fallback"
    case AssessRiskFallback => "assess_risk_fallback"
    case PerformSwotFallback => "perform_swot_fallback"
    case Tools => "tools"
    case Advisor => "advisor"
  }

  /** The five state keys the router walks through are distinct. */
  lemma KeyNamesDistinct(k: AnalysisKey, k2: AnalysisKey)
    ensures KeyName(k) == KeyName(k2) <==> k == k2
  {
  }

  /**
   * The twelve registered names are distinct, so each name the router
   * returns selects exactly one node.
   */
  lemma NodeNamesDistinct(n: Node, m: Node)
    ensures NodeName(n) == NodeName(m) <==> n == m
  {
  }

  /** Each fallback node is registered under its primary node's name followed by "_fallback". */
  lemma FallbackNames(k: AnalysisKey)
    ensures NodeName(FallbackNode(k)) == NodeName(PrimaryNode(k)) + "_fallback"
  {
    match k
    case IdeaAnalysis => assert "understand_idea" + "_fallback" == "understand_idea_fallback";
    case MarketAnalysis => assert "analyze_market" + "_fallback" == "analyze_market_fallback";
    case CompetitionAnalysis => assert "analyze_competition" + "_fallback" == "analyze_competition_fallback";
    case RiskAssessment => assert "assess_risk" + "_fallback" == "assess_risk_fallback";
    case SwotAnalysis => assert "perform_swot" + "_fallback" == "perform_swot_fallback";
  }

  /** The node that produces an analysis. */
  function PrimaryNode(k: AnalysisKey): Node
  {
    match k
    case IdeaAnalysis => UnderstandIdea
    case MarketAnalysis => AnalyzeMarket
    case CompetitionAnalysis => AnalyzeCompetition
    case RiskAssessment => AssessRisk
    case SwotAnalysis => PerformSwot
  }

  /** The node that produces an analysis again after a failed tool call. */
  function FallbackNode(k: AnalysisKey): Node
  {
    match k
    case IdeaAnalysis => UnderstandIdeaFallback
    case MarketAnalysis => AnalyzeMarketFallback
    case CompetitionAnalysis => AnalyzeCompetitionFallback
    case RiskAssessment => AssessRiskFallback
    case SwotAnalysis => PerformSwotFallback
  }

  predicate IsFallback(n: Node)
  {
    n.UnderstandIdeaFallback? || n.AnalyzeMarketFallback? || n.AnalyzeCompetitionFallback?
    || n.AssessRiskFallback? || n.PerformSwotFallback?
  }

  /** The kinds of message in the conversation log. */
  datatype MessageKind = HumanMessage | AiMessage | ToolMessage | SystemMessage

  datatype Message = Message(kind: MessageKind, content: string)

  /**
   * The part of the agent state the router reads: each analysis (a missing
   * key and a `None` value are both pending) and the message log.
   */
  datatype AgentState = AgentState(analyses: map<AnalysisKey, Option<string>>, messages: seq<Message>)

  /** `state.get(key) is None`. */
  predicate IsPending(s: AgentState, k: AnalysisKey)
  {
    k !in s.analyses || s.analyses[k].None?
  }

  /** The last message is a tool message whose content is "tool_failed". */
  predicate LastToolFailed(messages: seq<Message>)
  {
    |messages| > 0 && messages[|messages| - 1].kind == ToolMessage
    && messages[|messages| - 1].content == "tool_failed"
  }

  /** The position in `KeyOrder`, from `i` on, of the first pending analysis (5 if none). */
  function PendingIndex(s: AgentState, i: nat): (r: nat)
    requires i <= |KeyOrder|
    ensures i <= r <= |KeyOrder|
    ensures forall j :: i <= j < r ==> !IsPending(s, KeyOrder[j])
    ensures r < |KeyOrder| ==> IsPending(s, KeyOrder[r])
    decreases |KeyOrder| - i
  {
    if i == |KeyOrder| then i
    else if IsPending(s, KeyOrder[i]) then i
    else PendingIndex(s, i + 1)
  }

  /** The analysis the router works on: the first pending one in `KeyOrder`. */
  function Pending(s: AgentState): Option<AnalysisKey>
  {
    var i := PendingIndex(s, 0);
    if i < |KeyOrder| then Some(KeyOrder[i]) else None
  }

  /** The node the router chooses, as a function of the state. */
  function Route(s: AgentState): Node
  {
    match Pending(s)
    case None => Advisor
    case Some(k) => if LastToolFailed(s.messages) then FallbackNode(k) else PrimaryNode(k)
  }

  /** `router`: find the first pending analysis, then choose its fallback or primary node, or the advisor. */
  method Router(state: AgentState) returns (node: Node)
    ensures node == Route(state)
  {
    var lastMsg: Option<Message> := None;
    if |state.messages| > 0 {
      lastMsg := Some(state.messages[|state.messages| - 1]);
    }

    var pending: Option<AnalysisKey> := None;
    var i := 0;
    while i < |KeyOrder|
      invariant 0 <= i <= |KeyOrder|
      invariant pending.None? ==> PendingIndex(state, 0) == PendingIndex(state, i)
      invariant pending.Some? ==> pending == Pending(state)
      decreases |KeyOrder| - i, if pending.None? then 1 else 0
    {
      if IsPending(state, KeyOrder[i]) {
        pending := Some(KeyOrder[i]);
        break;
      }
      i := i + 1;
    }

    if pending.None? {
      return Advisor;
    }
    assert pending == Pending(state);
    assert (lastMsg.Some? && lastMsg.value.kind == ToolMessage && lastMsg.value.content == "tool_failed")
           == LastToolFailed(state.messages);
    assert Route(state) == if LastToolFailed(state.messages) then FallbackNode(pending.value)
                           else PrimaryNode(pending.value);

    if lastMsg.Some? && lastMsg.value.kind == ToolMessage && lastMsg.value.content == "tool_failed" {
      if pending == Some(IdeaAnalysis) { return UnderstandIdeaFallback; }
      if pending == Some(MarketAnalysis) { return AnalyzeMarketFallback; }
      if pending == Some(CompetitionAnalysis) { return AnalyzeCompetitionFallback; }
      if pending == Some(RiskAssessment) { return AssessRiskFallback; }
      if pending == Some(SwotAnalysis) { return PerformSwotFallback; }
    }

    if pending == Some(IdeaAnalysis) { return UnderstandIdea; }
    if pending == Some(MarketAnalysis) { return AnalyzeMarket; }
    if pending == Some(CompetitionAnalysis) { return AnalyzeCompetition; }
    if pending == Some(RiskAssessment) { return AssessRisk; }
    if pending == Some(SwotAnalysis) { return PerformSwot; }

    // the final `return "advisor"` cannot be reached: `pending` is one of the five keys
    assert false;
    return Advisor;
  }

  // ---------------------------------------------------------------------------
  // Properties of the router

  /**
   * The name the router returns: "advisor" when nothing is pending, else the
   * pending analysis's node name, with "_fallback" appended after a failed tool call.
   */
  lemma RouteName(s: AgentState)
    ensures Pending(s).None? ==> NodeName(Route(s)) == "advisor"
    ensures Pending(s).Some? && !LastToolFailed(s.messages) ==>
              NodeName(Route(s)) == NodeName(PrimaryNode(Pending(s).value))
    ensures Pending(s).Some? && LastToolFailed(s.messages) ==>
              NodeName(Route(s)) == NodeName(PrimaryNode(Pending(s).value)) + "_fallback"
  {
    if Pending(s).Some? {
      FallbackNames(Pending(s).value);
    }
  }

  /** Once no analysis is pending the router sends every state to the advisor, and only then. */
  lemma RouteAdvisorIff(s: AgentState)
    ensures Route(s) == Advisor <==> forall k :: !IsPending(s, k)
  {
    var i := PendingIndex(s, 0);
    if forall k :: !IsPending(s, k) {
      assert forall j :: 0 <= j < |KeyOrder| ==> !IsPending(s, KeyOrder[j]);
    }
    if Route(s) == Advisor {
      forall k ensures !IsPending(s, k) {
        assert k == KeyOrder[KeyIndex(k)];
      }
    }
  }

  /** Where each analysis stands in `KeyOrder`. */
  function KeyIndex(k: AnalysisKey): (i: nat)
    ensures i < |KeyOrder| && KeyOrder[i] == k
  {
    match k
    case IdeaAnalysis => 0
    case MarketAnalysis => 1
    case CompetitionAnalysis => 2
    case RiskAssessment => 3
    case SwotAnalysis => 4
  }

  /**
   * The router works on the first pending analysis in `KeyOrder`: choosing
   * key `k` means every earlier key is filled and `k` is not.
   */
  lemma PendingIsFirst(s: AgentState, k: AnalysisKey)
    ensures Pending(s) == Some(k) <==>
              IsPending(s, k) && forall j :: 0 <= j < KeyIndex(k) ==> !IsPending(s, KeyOrder[j])
  {
    var i := PendingIndex(s, 0);
    if IsPending(s, k) && forall j :: 0 <= j < KeyIndex(k) ==> !IsPending(s, KeyOrder[j]) {
      assert i <= KeyIndex(k);
      assert i < |KeyOrder| ==> IsPending(s, KeyOrder[i]);
    }
  }

  /** Keys after the pending one are never consulted: states that agree up to it route alike. */
  lemma RouteIgnoresLaterKeys(s: AgentState, t: AgentState)
    requires Pending(s).Some?
    requires s.messages == t.messages
    requires forall j :: 0 <= j <= KeyIndex(Pending(s).value) ==>
               (IsPending(s, KeyOrder[j]) <==> IsPending(t, KeyOrder[j]))
    ensures Pending(t) == Pending(s)
    ensures Route(t) == Route(s)
  {
    var k := Pending(s).value;
    PendingIsFirst(s, k);
    PendingIsFirst(t, k);
  }

  /** After a failed tool call, the fallback of the pending analysis runs. */
  lemma RouteToFallback(s: AgentState, k: AnalysisKey)
    requires LastToolFailed(s.messages) && Pending(s) == Some(k)
    ensures Route(s) == FallbackNode(k) && IsFallback(Route(s))
  {
  }

  /** Otherwise the primary node of the pending analysis runs; an empty log never leads to a fallback. */
  lemma RouteToPrimary(s: AgentState, k: AnalysisKey)
    requires !LastToolFailed(s.messages) && Pending(s) == Some(k)
    ensures Route(s) == PrimaryNode(k) && !IsFallback(Route(s))
  {
  }

  lemma EmptyLogNeverFallsBack(s: AgentState)
    requires s.messages == []
    ensures !IsFallback(Route(s))
  {
  }

  // ---------------------------------------------------------------------------
  // The static edges of the graph

  /** Where the graph starts. */
  const EntryPoint: Node := UnderstandIdea

  /** The `"__end__"` branch of each primary node's conditional edge. */
  const EndEdges: map<Node, Node> := map[
    UnderstandIdea := AnalyzeMarket,
    AnalyzeMarket := AnalyzeCompetition,
    AnalyzeCompetition := AssessRisk,
    AssessRisk := PerformSwot,
    PerformSwot := Advisor]

  /** The plain edge out of each fallback node. */
  const FallbackEdges: map<Node, Node> := map[
    UnderstandIdeaFallback := AnalyzeMarket,
    AnalyzeMarketFallback := AnalyzeCompetition,
    AnalyzeCompetitionFallback := AssessRisk,
    AssessRiskFallback := PerformSwot,
    PerformSwotFallback := Advisor]

  /** Where the graph goes next: it has finished, or it moves to a node. */
  datatype Step = Goto(node: Node) | Finish

  /**
   * One step of the compiled graph from node `n`. `toolCalled` is what
   * `tools_condition` decides about the last message; `s` is the state the
   * router sees after the tool node.
   */
  function NextStep(n: Node, toolCalled: bool, s: AgentState): Step
  {
    if n in EndEdges then (if toolCalled then Goto(Tools) else Goto(EndEdges[n]))
    else if n in FallbackEdges then Goto(FallbackEdges[n])
    else if n == Tools then Goto(Route(s))
    else Finish
  }

  /** The node that follows the analysis at position `i` once it is done. */
  function Successor(i: nat): Node
    requires i < |KeyOrder|
  {
    if i + 1 < |KeyOrder| then PrimaryNode(KeyOrder[i + 1]) else Advisor
  }

  /**
   * The static edges follow the router's key order: the graph enters at the
   * first primary node, and both the `"__end__"` edge of primary node `i` and
   * the edge of fallback node `i` lead to primary node `i + 1`, or to the
   * advisor after the last.
   */
  lemma EdgesFollowKeyOrder(i: nat)
    requires i < |KeyOrder|
    ensures EntryPoint == PrimaryNode(KeyOrder[0])
    ensures PrimaryNode(KeyOrder[i]) in EndEdges && EndEdges[PrimaryNode(KeyOrder[i])] == Successor(i)
    ensures FallbackNode(KeyOrder[i]) in FallbackEdges && FallbackEdges[FallbackNode(KeyOrder[i])] == Successor(i)
  {
  }

  /**
   * The nodes the graph visits from `n` when no node calls a tool, at most
   * `fuel` steps long. The state is only read by the tool node's router,
   * which these steps never reach.
   */
  function EndPath(n: Node, fuel: nat): seq<Node>
    decreases fuel
  {
    if fuel == 0 then [n]
    else match NextStep(n, false, AgentState(map[], []))
      case Finish => [n]
      case Goto(m) => [n] + EndPath(m, fuel - 1)
  }

  /** Without tool calls the graph runs the primary nodes in the router's order and ends at the advisor. */
  lemma EndPathIsKeyOrder()
    ensures EndPath(EntryPoint, 10) ==
            seq(|KeyOrder|, i requires 0 <= i < |KeyOrder| => PrimaryNode(KeyOrder[i])) + [Advisor]
    ensures NextStep(Advisor, false, AgentState(map[], [])) == Finish
  {
    var e := AgentState(map[], []);
    assert NextStep(Advisor, false, e) == Finish;
    assert NextStep(PerformSwot, false, e) == Goto(Advisor);
    assert NextStep(AssessRisk, false, e) == Goto(PerformSwot);
    assert NextStep(AnalyzeCompetition, false, e) == Goto(AssessRisk);
    assert NextStep(AnalyzeMarket, false, e) == Goto(AnalyzeCompetition);
    assert NextStep(UnderstandIdea, false, e) == Goto(AnalyzeMarket);
    assert EndPath(PerformSwot, 6) == [PerformSwot, Advisor];
    assert EndPath(AssessRisk, 7) == [AssessRisk] + EndPath(PerformSwot, 6);
    assert EndPath(AnalyzeCompetition, 8) == [AnalyzeCompetition] + EndPath(AssessRisk, 7);
    assert EndPath(AnalyzeMarket, 9) == [AnalyzeMarket] + EndPath(AnalyzeCompetition, 8);
    assert EndPath(UnderstandIdea, 10) == [UnderstandIdea] + EndPath(AnalyzeMarket, 9);
  }

  // ---------------------------------------------------------------------------
  // The router and the edges agree

  /** The first `i` analyses are filled and the others are pending. */
  predicate FilledUpTo(s: AgentState, i: nat)
  {
    forall j :: 0 <= j < |KeyOrder| ==> (IsPending(s, KeyOrder[j]) <==> j >= i)
  }

  /** The state after a node has stored analysis `k`. */
  function Store(s: AgentState, k: AnalysisKey, v: string): AgentState
  {
    s.(analyses := s.analyses[k := Some(v)])
  }

  /** The state the server starts the graph with: every analysis `None`, no messages. */
  function InitialState(): AgentState
  {
    AgentState(map[IdeaAnalysis := None, MarketAnalysis := None, CompetitionAnalysis := None,
                   RiskAssessment := None, SwotAnalysis := None], [])
  }

  /** The server's initial state has nothing filled, and the router would start where the graph does. */
  lemma InitialStateStartsAtEntry()
    ensures FilledUpTo(InitialState(), 0)
    ensures Route(InitialState()) == EntryPoint
  {
    assert IsPending(InitialState(), KeyOrder[0]);
  }

  /** With `i` analyses filled, the router picks analysis `i` (or the advisor when all five are). */
  lemma RouteFollowsProgress(s: AgentState, i: nat)
    requires i <= |KeyOrder| && FilledUpTo(s, i)
    ensures i == |KeyOrder| ==> Route(s) == Advisor
    ensures i < |KeyOrder| && LastToolFailed(s.messages) ==> Route(s) == FallbackNode(KeyOrder[i])
    ensures i < |KeyOrder| && !LastToolFailed(s.messages) ==> Route(s) == PrimaryNode(KeyOrder[i])
  {
    var p := PendingIndex(s, 0);
    assert i < |KeyOrder| ==> IsPending(s, KeyOrder[i]);
    assert p < |KeyOrder| ==> p >= i;
  }

  /** Storing the next analysis in order advances the progress by one. */
  lemma StoreAdvances(s: AgentState, i: nat, v: string)
    requires i < |KeyOrder| && FilledUpTo(s, i)
    ensures FilledUpTo(Store(s, KeyOrder[i], v), i + 1)
  {
    var t := Store(s, KeyOrder[i], v);
    forall j | 0 <= j < |KeyOrder| ensures IsPending(t, KeyOrder[j]) <==> j >= i + 1 {
      if j != i {
        assert KeyOrder[j] != KeyOrder[i];
      }
    }
  }

  /**
   * The static edge out of a finished node is where the router would go:
   * once the node for analysis `i` (primary or fallback) has stored its
   * result and no tool call has failed, routing the new state gives the very
   * node the `"__end__"` and fallback edges name.
   */
  lemma EdgesAgreeWithRouter(s: AgentState, i: nat, v: string, log: seq<Message>)
    requires i < |KeyOrder| && FilledUpTo(s, i)
    requires !LastToolFailed(log)
    ensures Route(Store(s, KeyOrder[i], v).(messages := log)) == EndEdges[PrimaryNode(KeyOrder[i])]
    ensures Route(Store(s, KeyOrder[i], v).(messages := log)) == FallbackEdges[FallbackNode(KeyOrder[i])]
    ensures var u := Store(s, KeyOrder[i], v).(messages := log);
            NextStep(PrimaryNode(KeyOrder[i]), false, u) == Goto(Route(u))
            && NextStep(FallbackNode(KeyOrder[i]), false, u) == Goto(Route(u))
            && NextStep(Tools, false, u) == Goto(Route(u))
  {
    var t := Store(s, KeyOrder[i], v);
    StoreAdvances(s, i, v);
    var u := t.(messages := log);
    assert FilledUpTo(u, i + 1);
    RouteFollowsProgress(u, i + 1);
    assert Route(u) == Successor(i);
    EdgesFollowKeyOrder(i);
    NextStepAfter(i, u);
  }

  /**
   * Without a tool call, primary node `i` and fallback node `i` both step to
   * the node after analysis `i`, and the tool node steps to the router's choice.
   */
  lemma NextStepAfter(i: nat, s: AgentState)
    requires i < |KeyOrder|
    ensures NextStep(PrimaryNode(KeyOrder[i]), false, s) == Goto(Successor(i))
    ensures NextStep(FallbackNode(KeyOrder[i]), false, s) == Goto(Successor(i))
    ensures NextStep(Tools, false, s) == Goto(Route(s))
  {
    EdgesFollowKeyOrder(i);
    assert FallbackNode(KeyOrder[i]) !in EndEdges;
    assert Tools !in EndEdges && Tools !in FallbackEdges;
  }
}
