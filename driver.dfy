/**
 * Running a case through the graph: from the entry node, execute the current
 * node on the case record, pick the next node from the updated record, and
 * stop at `END`, on a routing error, or when the step budget runs out.
 *
 * `RunFrom` is the run as a function; `Invoke` is the executor's loop and is
 * proved to compute it. The lemmas then describe every run of the
 * credit-approval graph: it ends within eight node visits, ends with the
 * notification step and an approved or rejected case, and follows a decision
 * table stated directly on the external inputs.
 */
module Driver {
  import opened Wrappers
  import opened CaseRecord
  import Nodes
  import opened WorkflowGraph

  /** Everything the nodes obtain from outside the case record. */
  datatype Inputs = Inputs(
    load: Nodes.LoadResult, // the CSV rows picked by the loader, or its exception
    policy: string,         // the policy text
    master: Nodes.CustomerMaster, // the customer IDs read by the customer check
    reply: Nodes.Reply,     // the assessment service's answer, or its exception
    decision: string,       // what management answers when the case is escalated
    now: string)            // the clock reading stored by document_approval

  /** The keys each node's returned dictionary lists besides `**state`. */
  function Writes(n: Node): set<Field> {
    match n
    case LoadData => {CustomerDataField, OrderDataField, PolicyContentField, DecisionReasonField}
    case CheckCustomer => {CustomerExistsField, DecisionReasonField}
    case CreditCheck => {CreditAssessmentField}
    case PolicyVerification => {ApprovalStatusField, DecisionReasonField, RequiresHumanField}
    case ApproveOrder => {ApprovalStatusField, DecisionReasonField}
    case RejectOrder => {ApprovalStatusField, DecisionReasonField}
    case EscalateToManagement => {ApprovalStatusField, DecisionReasonField}
    case DocumentApproval => {DocumentationCompleteField, DocumentationTimestampField}
    case CommunicateDecision => {CommunicationCompleteField, NotificationSentField}
  }

  /**
   * The node function registered under `n`, applied to the case. Each node
   * changes only the keys it lists, and no key present before disappears.
   */
  function Execute(n: Node, s: CaseState, env: Inputs): (r: CaseState)
    ensures OnlyWrites(s, r, Writes(n))
    ensures KeepsKeys(s, r)
  {
    match n
    case LoadData => Nodes.DataLoader(s, env.load, env.policy)
    case CheckCustomer => Nodes.CheckCustomerData(s, env.master)
    case CreditCheck => Nodes.CreditAssessment(s, env.reply)
    case PolicyVerification => Nodes.PolicyCheck(s)
    case ApproveOrder => Nodes.ApproveOrder(s)
    case RejectOrder => Nodes.RejectOrder(s)
    case EscalateToManagement => Nodes.HumanEscalation(s, env.decision)
    case DocumentApproval => Nodes.DocumentApproval(s, env.now)
    case CommunicateDecision => Nodes.CommunicateDecision(s)
  }

  datatype RunError =
    | Route(error: RouteError)  // no next node could be determined
    | RecursionLimitReached     // the step budget ran out before END
    | NoEntryPoint              // the graph has no entry node

  /** A run either completes with the final record or fails; both carry the nodes visited. */
  datatype RunResult =
    | Completed(final: CaseState, trace: seq<Node>)
    | Failed(error: RunError, trace: seq<Node>)

  /** The run from node `at` with record `s`, having visited `trace`, with `fuel` steps left. */
  function RunFrom(g: Graph, env: Inputs, at: Node, s: CaseState, trace: seq<Node>, fuel: nat): (r: RunResult)
    decreases fuel
    ensures |trace| <= |r.trace| <= |trace| + fuel
    ensures r.Failed? ==> r.error != NoEntryPoint
  {
    if fuel == 0 then Failed(RecursionLimitReached, trace)
    else
      var s' := Execute(at, s, env);
      var trace' := trace + [at];
      match Next(g, at, s')
      case Err(e) => Failed(Route(e), trace')
      case Ok(End) => Completed(s', trace')
      case Ok(Goto(n)) => RunFrom(g, env, n, s', trace', fuel - 1)
  }

  /** The run of a whole case from the entry node, with at most `limit` node visits. */
  function Run(g: Graph, env: Inputs, init: CaseState, limit: nat): (r: RunResult)
    ensures |r.trace| <= limit
    ensures g.entry.None? <==> r.Failed? && r.error == NoEntryPoint
  {
    match g.entry
    case None => Failed(NoEntryPoint, [])
    case Some(n) => RunFrom(g, env, n, init, [], limit)
  }

  /** The executor's loop: step node by node, updating the current record. */
  method Invoke(g: Graph, env: Inputs, init: CaseState, limit: nat) returns (r: RunResult)
    ensures r == Run(g, env, init, limit)
  {
    if g.entry.None? {
      return Failed(NoEntryPoint, []);
    }
    var at := g.entry.value;
    var s := init;
    var trace: seq<Node> := [];
    var fuel := limit;
    while true
      invariant RunFrom(g, env, at, s, trace, fuel) == Run(g, env, init, limit)
      decreases fuel
    {
      if fuel == 0 {
        return Failed(RecursionLimitReached, trace);
      }
      s := Execute(at, s, env);
      trace := trace + [at];
      match Next(g, at, s)
      case Err(e) =>
        return Failed(Route(e), trace);
      case Ok(End) =>
        return Completed(s, trace);
      case Ok(Goto(n)) =>
        at := n;
      fuel := fuel - 1;
    }
  }

  // ---------------------------------------------------------------------------
  // Termination and the final record, for every run of the credit-approval graph

  /**
   * What holds of the record on arrival at the last two nodes: documentation
   * is reached only with an approved case, and the notification step only
   * with a rejected case or a documented approved one.
   */
  predicate Arrival(at: Node, s: CaseState, trace: seq<Node>) {
    && (at == DocumentApproval ==> s.approvalStatus == Some("approved") && ApproveOrder in trace)
    && (at == CommunicateDecision ==>
          || s.approvalStatus == Some("rejected")
          || (&& s.approvalStatus == Some("approved")
              && ApproveOrder in trace && DocumentApproval in trace
              && s.documentationComplete == Some(true)))
  }

  /** A completed run's final record: notified, and approved (documented) or rejected. */
  predicate Concluded(final: CaseState, trace: seq<Node>) {
    && |trace| > 0 && trace[|trace| - 1] == CommunicateDecision
    && final.communicationComplete == Some(true) && final.notificationSent == Some(true)
    && (final.approvalStatus == Some("approved") || final.approvalStatus == Some("rejected"))
    && (final.approvalStatus == Some("approved") ==>
          ApproveOrder in trace && DocumentApproval in trace && final.documentationComplete == Some(true))
  }

  /** One step of a run that moves on to node `n`. */
  lemma Advance(env: Inputs, at: Node, s: CaseState, trace: seq<Node>, fuel: nat, n: Node)
    requires fuel >= 1
    requires Next(Workflow(), at, Execute(at, s, env)) == Ok(Goto(n))
    ensures RunFrom(Workflow(), env, at, s, trace, fuel)
      == RunFrom(Workflow(), env, n, Execute(at, s, env), trace + [at], fuel - 1)
  {
  }

  /** The only edges into documentation and into notification. */
  lemma Predecessors(at: Node, s: CaseState, n: Node)
    requires Next(Workflow(), at, s) == Ok(Goto(n))
    ensures n == DocumentApproval ==> at == ApproveOrder
    ensures n == CommunicateDecision ==> at == RejectOrder || at == DocumentApproval
  {
    WorkflowDescends(at, s);
  }

  /** Moving along an edge of the credit-approval graph keeps `Arrival`. */
  lemma ArrivalPreserved(env: Inputs, at: Node, s: CaseState, trace: seq<Node>, n: Node)
    requires Arrival(at, s, trace)
    requires Next(Workflow(), at, Execute(at, s, env)) == Ok(Goto(n))
    ensures Arrival(n, Execute(at, s, env), trace + [at])
  {
    var s' := Execute(at, s, env);
    Predecessors(at, s', n);
    if at == ApproveOrder {
      assert s'.approvalStatus == Some("approved");
    } else if at == RejectOrder {
      assert s'.approvalStatus == Some("rejected");
    } else if at == DocumentApproval {
      assert s'.approvalStatus == s.approvalStatus;
    }
  }

  /**
   * What a run from `at` after visiting `trace` may return: at most `bound`
   * more visits starting with `at`, a concluded case when it completes, and
   * only an undeclared management answer when it fails.
   */
  predicate WithinBound(r: RunResult, env: Inputs, at: Node, trace: seq<Node>, bound: nat) {
    && |trace| < |r.trace| <= |trace| + bound
    && r.trace[..|trace|] == trace && r.trace[|trace|] == at
    && (r.Failed? ==> r.error == Route(RoutingError(EscalateToManagement, env.decision)))
    && (r.Completed? ==> Concluded(r.final, r.trace))
  }

  /** The last step of a run that reaches `END`: only from the notification node, with a concluded case. */
  lemma ArriveAtEnd(env: Inputs, at: Node, s: CaseState, trace: seq<Node>, fuel: nat)
    requires fuel >= 1
    requires Arrival(at, s, trace)
    requires Next(Workflow(), at, Execute(at, s, env)) == Ok(End)
    ensures WithinBound(RunFrom(Workflow(), env, at, s, trace, fuel), env, at, trace, Rank(at))
  {
    WorkflowDescends(at, Execute(at, s, env));
    assert at == CommunicateDecision;
  }

  /** The last step of a run that fails: only at the escalation router, on management's answer. */
  lemma StopAtRouter(env: Inputs, at: Node, s: CaseState, trace: seq<Node>, fuel: nat)
    requires fuel >= 1
    requires Next(Workflow(), at, Execute(at, s, env)).Err?
    ensures WithinBound(RunFrom(Workflow(), env, at, s, trace, fuel), env, at, trace, Rank(at))
  {
    WorkflowDescends(at, Execute(at, s, env));
    assert at == EscalateToManagement;
  }

  /** A bound for the rest of the run from the next node gives one for the run from this node. */
  lemma ExtendBound(r: RunResult, env: Inputs, at: Node, n: Node, trace: seq<Node>)
    requires Rank(n) < Rank(at)
    requires WithinBound(r, env, n, trace + [at], Rank(n))
    ensures WithinBound(r, env, at, trace, Rank(at))
  {
    assert r.trace[..|trace| + 1][..|trace|] == r.trace[..|trace|];
  }

  /**
   * From any node whose rank the budget covers, the run neither exhausts the
   * budget nor meets a dead end: it visits at most `Rank(at)` more nodes and
   * either concludes or stops at the escalation router on an undeclared key.
   */
  lemma {:induction false} RunWithinRank(env: Inputs, at: Node, s: CaseState, trace: seq<Node>, fuel: nat)
    requires Rank(at) <= fuel
    requires Arrival(at, s, trace)
    decreases fuel
    ensures WithinBound(RunFrom(Workflow(), env, at, s, trace, fuel), env, at, trace, Rank(at))
  {
    var s' := Execute(at, s, env);
    var next := Next(Workflow(), at, s');
    WorkflowDescends(at, s');
    if next.Err? {
      StopAtRouter(env, at, s, trace, fuel);
    } else if next.value == End {
      ArriveAtEnd(env, at, s, trace, fuel);
    } else {
      var n := next.value.node;
      Advance(env, at, s, trace, fuel, n);
      ArrivalPreserved(env, at, s, trace, n);
      RunWithinRank(env, n, s', trace + [at], fuel - 1);
      ExtendBound(RunFrom(Workflow(), env, n, s', trace + [at], fuel - 1), env, at, n, trace);
    }
  }

  /**
   * Every run of the credit-approval graph with a budget of eight visits
   * stops within eight visits; it completes with a notified, approved or
   * rejected case unless management's answer has no route.
   */
  lemma RunTerminates(env: Inputs, init: CaseState, limit: nat)
    requires limit >= 8
    ensures var r := Run(Workflow(), env, init, limit);
      && 0 < |r.trace| <= 8 && r.trace[0] == LoadData
      && (r.Failed? ==> r.error == Route(RoutingError(EscalateToManagement, env.decision)))
      && (r.Completed? ==> Concluded(r.final, r.trace))
  {
    RunWithinRank(env, LoadData, init, [], limit);
    assert Rank(LoadData) == 8;
  }

  // ---------------------------------------------------------------------------
  // The decision table

  /** How a run ended, as the caller sees it. */
  datatype Verdict = Approved | Rejected | Undecided | Unroutable(key: string) | Aborted

  function VerdictOf(r: RunResult): Verdict {
    match r
    case Completed(final, _) =>
      if final.approvalStatus == Some("approved") then Approved
      else if final.approvalStatus == Some("rejected") then Rejected
      else Undecided
    case Failed(Route(RoutingError(_, key)), _) => Unroutable(key)
    case Failed(_, _) => Aborted
  }

  /** The customer of the order the loader stores is in the master the customer check reads. */
  predicate Known(env: Inputs) {
    Nodes.Listed(Nodes.OrderOf(env.load), env.master)
  }

  /** The order fits the credit line of the rows the loader stores. */
  predicate Affordable(env: Inputs) {
    Nodes.Affordable(Nodes.CustomerOf(env.load), Nodes.OrderOf(env.load), env.reply)
  }

  /** What management's answer leads to, and the nodes visited after escalation. */
  function ManagementVerdict(decision: string): Verdict {
    if decision == "approved" then Approved
    else if decision == "rejected" then Rejected
    else Unroutable(decision)
  }

  function ManagementTail(decision: string): seq<Node> {
    if decision == "approved" then [ApproveOrder, DocumentApproval, CommunicateDecision]
    else if decision == "rejected" then [RejectOrder, CommunicateDecision]
    else []
  }

  /**
   * The credit-approval process as a decision table on the inputs: unknown
   * customers are rejected at once; known customers whose order fits the
   * credit line are approved without review; every other case (over the
   * line, unreadable amounts, assessment service down) goes to management.
   */
  function ExpectedVerdict(env: Inputs): Verdict {
    if !Known(env) then Rejected
    else if Affordable(env) then Approved
    else ManagementVerdict(env.decision)
  }

  function ExpectedTrace(env: Inputs): seq<Node> {
    if !Known(env) then
      [LoadData, CheckCustomer, RejectOrder, CommunicateDecision]
    else if Affordable(env) then
      [LoadData, CheckCustomer, CreditCheck, PolicyVerification, ApproveOrder, DocumentApproval,
       CommunicateDecision]
    else
      [LoadData, CheckCustomer, CreditCheck, PolicyVerification, EscalateToManagement]
      + ManagementTail(env.decision)
  }

  lemma FromCommunicate(env: Inputs, s: CaseState, trace: seq<Node>, fuel: nat)
    requires fuel >= 1
    ensures RunFrom(Workflow(), env, CommunicateDecision, s, trace, fuel)
      == Completed(Nodes.CommunicateDecision(s), trace + [CommunicateDecision])
  {
  }

  lemma FromApprove(env: Inputs, s: CaseState, trace: seq<Node>, fuel: nat)
    requires fuel >= 3
    ensures var r := RunFrom(Workflow(), env, ApproveOrder, s, trace, fuel);
      r.trace == trace + [ApproveOrder, DocumentApproval, CommunicateDecision] && VerdictOf(r) == Approved
  {
    var s1 := Execute(ApproveOrder, s, env);
    var s2 := Execute(DocumentApproval, s1, env);
    Advance(env, ApproveOrder, s, trace, fuel, DocumentApproval);
    Advance(env, DocumentApproval, s1, trace + [ApproveOrder], fuel - 1, CommunicateDecision);
    FromCommunicate(env, s2, trace + [ApproveOrder] + [DocumentApproval], fuel - 2);
    assert trace + [ApproveOrder] + [DocumentApproval] + [CommunicateDecision]
      == trace + [ApproveOrder, DocumentApproval, CommunicateDecision];
  }

  lemma FromReject(env: Inputs, s: CaseState, trace: seq<Node>, fuel: nat)
    requires fuel >= 2
    ensures var r := RunFrom(Workflow(), env, RejectOrder, s, trace, fuel);
      r.trace == trace + [RejectOrder, CommunicateDecision] && VerdictOf(r) == Rejected
  {
    var s1 := Execute(RejectOrder, s, env);
    Advance(env, RejectOrder, s, trace, fuel, CommunicateDecision);
    FromCommunicate(env, s1, trace + [RejectOrder], fuel - 1);
    assert trace + [RejectOrder] + [CommunicateDecision] == trace + [RejectOrder, CommunicateDecision];
  }

  lemma FromEscalate(env: Inputs, s: CaseState, trace: seq<Node>, fuel: nat)
    requires fuel >= 4
    ensures var r := RunFrom(Workflow(), env, EscalateToManagement, s, trace, fuel);
      r.trace == trace + [EscalateToManagement] + ManagementTail(env.decision)
      && VerdictOf(r) == ManagementVerdict(env.decision)
  {
    var s1 := Execute(EscalateToManagement, s, env);
    var trace1 := trace + [EscalateToManagement];
    EscalationTargets(s1);
    if env.decision == "approved" {
      FromApprove(env, s1, trace1, fuel - 1);
    } else if env.decision == "rejected" {
      FromReject(env, s1, trace1, fuel - 1);
    }
  }

  lemma FromPolicy(env: Inputs, s: CaseState, trace: seq<Node>, fuel: nat, ok: bool)
    requires fuel >= 5
    requires s.creditAssessment != NoAssessment
    requires s.creditAssessment.withinLimits == Some(ok)
    requires s.creditAssessment.needsEscalation == Some(!ok)
    ensures var r := RunFrom(Workflow(), env, PolicyVerification, s, trace, fuel);
      && r.trace == trace + [PolicyVerification]
           + (if ok then [ApproveOrder, DocumentApproval, CommunicateDecision]
              else [EscalateToManagement] + ManagementTail(env.decision))
      && VerdictOf(r) == (if ok then Approved else ManagementVerdict(env.decision))
  {
    var s1 := Execute(PolicyVerification, s, env);
    var trace1 := trace + [PolicyVerification];
    PolicyTargets(s1);
    if ok {
      FromApprove(env, s1, trace1, fuel - 1);
    } else {
      FromEscalate(env, s1, trace1, fuel - 1);
    }
  }

  lemma FromCredit(env: Inputs, s: CaseState, trace: seq<Node>, fuel: nat)
    requires fuel >= 6
    ensures var ok := Nodes.Affordable(s.customerData, s.orderData, env.reply);
      var r := RunFrom(Workflow(), env, CreditCheck, s, trace, fuel);
      && r.trace == trace + [CreditCheck, PolicyVerification]
           + (if ok then [ApproveOrder, DocumentApproval, CommunicateDecision]
              else [EscalateToManagement] + ManagementTail(env.decision))
      && VerdictOf(r) == (if ok then Approved else ManagementVerdict(env.decision))
  {
    var ok := Nodes.Affordable(s.customerData, s.orderData, env.reply);
    var s1 := Execute(CreditCheck, s, env);
    assert s1.creditAssessment == Nodes.Assess(s.customerData, s.orderData, env.reply);
    Advance(env, CreditCheck, s, trace, fuel, PolicyVerification);
    FromPolicy(env, s1, trace + [CreditCheck], fuel - 1, ok);
    assert trace + [CreditCheck] + [PolicyVerification] == trace + [CreditCheck, PolicyVerification];
  }

  lemma FromCheck(env: Inputs, s: CaseState, trace: seq<Node>, fuel: nat)
    requires fuel >= 7
    ensures var ok := Nodes.Affordable(s.customerData, s.orderData, env.reply);
      var r := RunFrom(Workflow(), env, CheckCustomer, s, trace, fuel);
      if Nodes.Listed(s.orderData, env.master) then
        && r.trace == trace + [CheckCustomer, CreditCheck, PolicyVerification]
             + (if ok then [ApproveOrder, DocumentApproval, CommunicateDecision]
                else [EscalateToManagement] + ManagementTail(env.decision))
        && VerdictOf(r) == (if ok then Approved else ManagementVerdict(env.decision))
      else
        r.trace == trace + [CheckCustomer, RejectOrder, CommunicateDecision] && VerdictOf(r) == Rejected
  {
    var s1 := Execute(CheckCustomer, s, env);
    var trace1 := trace + [CheckCustomer];
    assert s1.customerData == s.customerData && s1.orderData == s.orderData;
    if Nodes.Listed(s.orderData, env.master) {
      assert s1.customerExists == Some(true);
      Advance(env, CheckCustomer, s, trace, fuel, CreditCheck);
      FromCredit(env, s1, trace1, fuel - 1);
      assert trace1 + [CreditCheck, PolicyVerification] == trace + [CheckCustomer, CreditCheck, PolicyVerification];
    } else {
      assert s1.customerExists == Some(false);
      Advance(env, CheckCustomer, s, trace, fuel, RejectOrder);
      FromReject(env, s1, trace1, fuel - 1);
      assert trace1 + [RejectOrder, CommunicateDecision] == trace + [CheckCustomer, RejectOrder, CommunicateDecision];
    }
  }

  /** The first step of every run: loading, then on to the customer check with the loaded rows. */
  lemma StartRun(env: Inputs, init: CaseState, limit: nat)
    requires limit >= 1
    ensures var s1 := Execute(LoadData, init, env);
      && s1.customerData == Nodes.CustomerOf(env.load) && s1.orderData == Nodes.OrderOf(env.load)
      && Run(Workflow(), env, init, limit) == RunFrom(Workflow(), env, CheckCustomer, s1, [LoadData], limit - 1)
  {
    Advance(env, LoadData, init, [], limit, CheckCustomer);
    assert [] + [LoadData] == [LoadData];
  }

  /**
   * Every run of the credit-approval graph, whatever the initial record,
   * visits exactly the nodes of the decision table and ends with its verdict.
   */
  lemma RunMatchesDecisionTable(env: Inputs, init: CaseState, limit: nat)
    requires limit >= 8
    ensures var r := Run(Workflow(), env, init, limit);
      r.trace == ExpectedTrace(env) && VerdictOf(r) == ExpectedVerdict(env)
  {
    var s1 := Execute(LoadData, init, env);
    StartRun(env, init, limit);
    FromCheck(env, s1, [LoadData], limit - 1);
    var r := Run(Workflow(), env, init, limit);
    if !Known(env) {
      assert r.trace == [LoadData] + [CheckCustomer, RejectOrder, CommunicateDecision];
      assert [LoadData] + [CheckCustomer, RejectOrder, CommunicateDecision] == ExpectedTrace(env);
    } else if Affordable(env) {
      assert [LoadData] + [CheckCustomer, CreditCheck, PolicyVerification]
        + [ApproveOrder, DocumentApproval, CommunicateDecision] == ExpectedTrace(env);
    } else {
      assert [LoadData] + [CheckCustomer, CreditCheck, PolicyVerification]
        + ([EscalateToManagement] + ManagementTail(env.decision)) == ExpectedTrace(env);
    }
  }

  // ---------------------------------------------------------------------------
  // Consequences

  /**
   * An unknown customer (or an unreadable master) is rejected straight away: the
   * credit check and escalation are never visited.
   */
  lemma UnknownCustomerRejected(env: Inputs, init: CaseState, limit: nat)
    requires limit >= 8
    requires !Known(env)
    ensures var r := Run(Workflow(), env, init, limit);
      && r.Completed?
      && r.trace == [LoadData, CheckCustomer, RejectOrder, CommunicateDecision]
      && r.final.approvalStatus == Some("rejected")
      && CreditCheck !in r.trace && EscalateToManagement !in r.trace
  {
    RunMatchesDecisionTable(env, init, limit);
    RunTerminates(env, init, limit);
  }

  /**
   * A case whose data could not be loaded is never approved: the error
   * record carries no customer ID, so the customer check fails and the case
   * is rejected without a credit check.
   */
  lemma FailedLoadNeverApproved(env: Inputs, init: CaseState, limit: nat)
    requires limit >= 8
    requires env.load.LoadFailed?
    ensures var r := Run(Workflow(), env, init, limit);
      && r.Completed? && r.final.approvalStatus == Some("rejected")
      && r.trace == [LoadData, CheckCustomer, RejectOrder, CommunicateDecision]
  {
    assert !Known(env);
    UnknownCustomerRejected(env, init, limit);
  }

  /**
   * A known customer's order that does not fit the credit line is never sent
   * from policy verification to approval: the next node is escalation.
   */
  lemma OverLimitNeverApprovedDirectly(env: Inputs, init: CaseState, limit: nat)
    requires limit >= 8
    requires Known(env) && !Affordable(env)
    ensures var r := Run(Workflow(), env, init, limit);
      && |r.trace| >= 5
      && r.trace[3] == PolicyVerification && r.trace[4] == EscalateToManagement
      && forall i :: 0 <= i < |r.trace| - 1 && r.trace[i] == PolicyVerification ==> r.trace[i + 1] != ApproveOrder
  {
    RunMatchesDecisionTable(env, init, limit);
    var r := Run(Workflow(), env, init, limit);
    forall i | 0 <= i < |r.trace| - 1 && r.trace[i] == PolicyVerification
      ensures r.trace[i + 1] != ApproveOrder
    {
      assert i == 3;
    }
  }

  /**
   * After escalation management's answer decides: "approved" ends approved
   * through documentation, "rejected" ends rejected, and any other answer is
   * a routing error at the escalation router.
   */
  lemma EscalationOutcome(env: Inputs, init: CaseState, limit: nat)
    requires limit >= 8
    requires Known(env) && !Affordable(env)
    ensures var r := Run(Workflow(), env, init, limit);
      && (env.decision == "approved" ==>
            r.Completed? && r.final.approvalStatus == Some("approved") && DocumentApproval in r.trace
            && |r.trace| == 8)
      && (env.decision == "rejected" ==> r.Completed? && r.final.approvalStatus == Some("rejected"))
      && (env.decision != "approved" && env.decision != "rejected" ==>
            r == Failed(Route(RoutingError(EscalateToManagement, env.decision)),
                        [LoadData, CheckCustomer, CreditCheck, PolicyVerification, EscalateToManagement]))
  {
    RunMatchesDecisionTable(env, init, limit);
    RunTerminates(env, init, limit);
  }

  /**
   * The verdict and the path depend on the external inputs alone: two runs
   * with the same inputs agree whatever records they start from.
   */
  lemma OutcomeDependsOnInputsOnly(env: Inputs, init1: CaseState, init2: CaseState, limit1: nat, limit2: nat)
    requires limit1 >= 8 && limit2 >= 8
    ensures Run(Workflow(), env, init1, limit1).trace == Run(Workflow(), env, init2, limit2).trace
    ensures VerdictOf(Run(Workflow(), env, init1, limit1)) == VerdictOf(Run(Workflow(), env, init2, limit2))
  {
    RunMatchesDecisionTable(env, init1, limit1);
    RunMatchesDecisionTable(env, init2, limit2);
  }
}
