/**
 * The nine node functions of the credit-approval workflow (main.py).
 *
 * Each Python node returns `{**state, ...}`: a copy of the case with a few
 * named keys overwritten. Here each node is a function from `CaseState` to
 * `CaseState` built with a datatype update, and its contract names the only
 * fields that may differ afterwards. Whatever a node obtains from outside
 * (the loaded CSV rows, the policy text, the customer master's IDs, the
 * assessment service's reply, the management decision, the clock) is a
 * parameter.
 */
module Nodes {
  import opened Wrappers
  import opened CaseRecord

  /** What `data_loader` obtains from the CSV files: the matched rows or the exception's text. */
  datatype LoadResult = Loaded(customer: CustomerData, order: OrderData) | LoadFailed(error: string)

  /** What `check_customer_data` reads from the customer master: its customer IDs, or the exception's text. */
  datatype CustomerMaster = MasterIds(ids: set<string>) | MasterUnreadable(error: string)

  /** What the assessment service's `invoke` does: answers with a text or raises. */
  datatype Reply = Answered(content: string) | Raised(error: string)

  const ApprovedReason := "Order approved within credit policy guidelines."
  const DefaultRejectionReason := "Failed credit policy check"
  const ManagementReason := "Decision made by management after review"
  const MissingAssessmentReason := "Order rejected due to missing credit assessment data"
  const WithinLimitsReason := "Order is within credit limits and complies with policy"

  // ---------------------------------------------------------------------------
  // load_data

  /** The `customer_data` the loader stores: the row, or `{"error": ...}`. */
  function CustomerOf(load: LoadResult): CustomerData {
    match load
    case Loaded(c, _) => c
    case LoadFailed(e) => CustomerData(Absent, Absent, Some(e))
  }

  /** The `order_data` the loader stores: the row, or `{"error": ...}`. */
  function OrderOf(load: LoadResult): OrderData {
    match load
    case Loaded(_, o) => o
    case LoadFailed(e) => OrderData(None, Absent, Some(e))
  }

  /** `data_loader`: store the loaded rows and the policy text; on failure also an error reason. */
  function DataLoader(s: CaseState, load: LoadResult, policy: string): (r: CaseState)
    ensures r.customerData == CustomerOf(load) && r.orderData == OrderOf(load)
    ensures r.policyContent == policy
    ensures load.Loaded? ==> r.decisionReason == s.decisionReason
    ensures load.LoadFailed? ==> r.decisionReason == Some("Error loading data: " + load.error)
    ensures OnlyWrites(s, r, {CustomerDataField, OrderDataField, PolicyContentField, DecisionReasonField})
  {
    match load
    case Loaded(_, _) =>
      s.(customerData := CustomerOf(load), orderData := OrderOf(load), policyContent := policy)
    case LoadFailed(e) =>
      s.(customerData := CustomerOf(load), orderData := OrderOf(load), policyContent := policy,
         decisionReason := Some("Error loading data: " + e))
  }

  // ---------------------------------------------------------------------------
  // check_customer

  /**
   * The order's `Customer_ID` is one of the master's IDs. An order record
   * without the key (the loader's error record) yields `None`, which is no ID.
   */
  predicate Listed(o: OrderData, master: CustomerMaster) {
    master.MasterIds? && o.customerId.Some? && o.customerId.value in master.ids
  }

  /** `check_customer_data`: record whether the order's customer is in the master; an unreadable master counts as absent. */
  function CheckCustomerData(s: CaseState, master: CustomerMaster): (r: CaseState)
    ensures r.customerExists == Some(true) <==>
      master.MasterIds? && s.orderData.customerId.Some? && s.orderData.customerId.value in master.ids
    ensures r.customerExists.Some?
    ensures s.orderData.customerId.None? ==> r.customerExists == Some(false)
    ensures master.MasterIds? ==> r.decisionReason == s.decisionReason
    ensures master.MasterUnreadable? ==> r.decisionReason == Some("Error checking customer: " + master.error)
    ensures OnlyWrites(s, r, {CustomerExistsField, DecisionReasonField})
  {
    match master
    case MasterIds(_) => s.(customerExists := Some(Listed(s.orderData, master)))
    case MasterUnreadable(e) =>
      s.(customerExists := Some(false), decisionReason := Some("Error checking customer: " + e))
  }

  // ---------------------------------------------------------------------------
  // credit_check

  /** `float(record.get(key, 0))`: a missing key reads as 0, a malformed one raises. */
  function ToNumber(a: Amount): Result<int, string> {
    match a
    case Absent => Ok(0)
    case Number(v) => Ok(v)
    case Malformed(e) => Err(e)
  }

  /** The three amounts convert and the service answers: the assessment's success path. */
  predicate Assessable(c: CustomerData, o: OrderData, reply: Reply) {
    && ToNumber(c.creditLimit).Ok?
    && ToNumber(c.outstandingBalance).Ok?
    && ToNumber(o.turnover).Ok?
    && reply.Answered?
  }

  /**
   * The order fits in the customer's credit line: what is already owed plus
   * the order does not exceed the credit limit (equality included).
   */
  predicate Affordable(c: CustomerData, o: OrderData, reply: Reply) {
    && Assessable(c, o, reply)
    && ToNumber(c.outstandingBalance).value + ToNumber(o.turnover).value <= ToNumber(c.creditLimit).value
  }

  /** The assessment stored by the exception handler of `credit_assessment`. */
  function AssessmentFailure(error: string): Assessment {
    Assessment(Some("Error in credit assessment: " + error), None, None, Some(false), Some(true))
  }

  /**
   * The arithmetic of `credit_assessment`: the amounts are converted in the
   * order credit limit, outstanding balance, order amount; then the service is
   * asked; the first failure selects the exception handler's assessment.
   */
  function Assess(c: CustomerData, o: OrderData, reply: Reply): (a: Assessment)
    ensures a != NoAssessment
    ensures a.withinLimits == Some(Affordable(c, o, reply))
    ensures a.needsEscalation == Some(!Affordable(c, o, reply))
    ensures Assessable(c, o, reply) ==>
      && a.analysis == Some(reply.content)
      && a.availableCredit == Some(ToNumber(c.creditLimit).value - ToNumber(c.outstandingBalance).value)
      && a.orderAmount == Some(ToNumber(o.turnover).value)
    ensures !Assessable(c, o, reply) ==> a.availableCredit == None && a.orderAmount == None
  {
    var limit := ToNumber(c.creditLimit);
    if limit.Err? then AssessmentFailure(limit.error) else
    var balance := ToNumber(c.outstandingBalance);
    if balance.Err? then AssessmentFailure(balance.error) else
    var amount := ToNumber(o.turnover);
    if amount.Err? then AssessmentFailure(amount.error) else
    match reply
    case Raised(e) => AssessmentFailure(e)
    case Answered(content) =>
      var available := limit.value - balance.value;
      Assessment(Some(content), Some(available), Some(amount.value),
                 Some(available >= amount.value), Some(available < amount.value))
  }

  /** `credit_assessment`: store the assessment of the case's customer and order rows. */
  function CreditAssessment(s: CaseState, reply: Reply): (r: CaseState)
    ensures r.creditAssessment == Assess(s.customerData, s.orderData, reply)
    ensures OnlyWrites(s, r, {CreditAssessmentField})
  {
    s.(creditAssessment := Assess(s.customerData, s.orderData, reply))
  }

  // ---------------------------------------------------------------------------
  // policy_verification

  /** Decimal digits of a natural number. */
  function Digits(n: nat): string
    decreases n
  {
    if n < 10 then ["0123456789"[n]] else Digits(n / 10) + ["0123456789"[n % 10]]
  }

  /** How an f-string renders an assessment amount: a float when stored, the default 0 otherwise. */
  function AmountText(x: Option<int>): string {
    match x
    case Some(v) => (if v < 0 then "-" + Digits(-v) else Digits(v)) + ".0"
    case None => "0"
  }

  function OverLimitReason(a: Assessment): string {
    "Order amount ($" + AmountText(a.orderAmount) + ") exceeds available credit ($"
    + AmountText(a.availableCredit) + ")"
  }

  /**
   * `policy_check`: approve exactly when an assessment exists and says the
   * order is within limits; copy the escalation flag into `requires_human`.
   */
  function PolicyCheck(s: CaseState): (r: CaseState)
    ensures r.approvalStatus == Some("approved") <==>
      s.creditAssessment != NoAssessment && s.creditAssessment.withinLimits == Some(true)
    ensures r.approvalStatus == Some("approved") || r.approvalStatus == Some("rejected")
    ensures r.requiresHuman == Some(s.creditAssessment.needsEscalation == Some(true))
    ensures s.creditAssessment == NoAssessment ==> r.decisionReason == Some(MissingAssessmentReason)
    ensures r.approvalStatus == Some("approved") ==> r.decisionReason == Some(WithinLimitsReason)
    ensures s.creditAssessment != NoAssessment && s.creditAssessment.withinLimits != Some(true) ==>
      r.decisionReason == Some(OverLimitReason(s.creditAssessment))
    ensures OnlyWrites(s, r, {ApprovalStatusField, DecisionReasonField, RequiresHumanField})
  {
    var a := s.creditAssessment;
    var (status, reason) :=
      if a == NoAssessment then ("rejected", MissingAssessmentReason)
      else if !a.withinLimits.GetOr(false) then ("rejected", OverLimitReason(a))
      else ("approved", WithinLimitsReason);
    assert a.needsEscalation.GetOr(false) == (a.needsEscalation == Some(true)) by {
      if a.needsEscalation.Some? { assert a.needsEscalation == Some(a.needsEscalation.value); }
    }
    s.(approvalStatus := Some(status), decisionReason := Some(reason),
       requiresHuman := Some(a.needsEscalation.GetOr(false)))
  }

  // ---------------------------------------------------------------------------
  // approve_order, reject_order, escalate_to_management

  /** `approve_order`: mark the case approved with the fixed approval reason. */
  function ApproveOrder(s: CaseState): (r: CaseState)
    ensures r.approvalStatus == Some("approved") && r.decisionReason == Some(ApprovedReason)
    ensures OnlyWrites(s, r, {ApprovalStatusField, DecisionReasonField})
  {
    s.(approvalStatus := Some("approved"), decisionReason := Some(ApprovedReason))
  }

  /** `reject_order`: mark the case rejected, keeping any reason already recorded. */
  function RejectOrder(s: CaseState): (r: CaseState)
    ensures r.approvalStatus == Some("rejected")
    ensures s.decisionReason.Some? ==> r.decisionReason == s.decisionReason
    ensures s.decisionReason.None? ==> r.decisionReason == Some(DefaultRejectionReason)
    ensures OnlyWrites(s, r, {ApprovalStatusField, DecisionReasonField})
  {
    s.(approvalStatus := Some("rejected"),
       decisionReason := Some(s.decisionReason.GetOr(DefaultRejectionReason)))
  }

  /** `human_escalation`: adopt the management decision verbatim, with the fixed management reason. */
  function HumanEscalation(s: CaseState, decision: string): (r: CaseState)
    ensures r.approvalStatus == Some(decision) && r.decisionReason == Some(ManagementReason)
    ensures OnlyWrites(s, r, {ApprovalStatusField, DecisionReasonField})
  {
    s.(approvalStatus := Some(decision), decisionReason := Some(ManagementReason))
  }

  // ---------------------------------------------------------------------------
  // document_approval, communicate_decision

  /** `document_approval`: mark the decision documented at time `now`. */
  function DocumentApproval(s: CaseState, now: string): (r: CaseState)
    ensures r.documentationComplete == Some(true) && r.documentationTimestamp == Some(now)
    ensures OnlyWrites(s, r, {DocumentationCompleteField, DocumentationTimestampField})
  {
    s.(documentationComplete := Some(true), documentationTimestamp := Some(now))
  }

  /** `communicate_decision`: mark the teams notified. */
  function CommunicateDecision(s: CaseState): (r: CaseState)
    ensures r.communicationComplete == Some(true) && r.notificationSent == Some(true)
    ensures OnlyWrites(s, r, {CommunicationCompleteField, NotificationSentField})
  {
    s.(communicationComplete := Some(true), notificationSent := Some(true))
  }

  // ---------------------------------------------------------------------------
  // Properties of the credit decision

  /**
   * credit_assessment followed by policy_check decides from the amounts alone:
   * approved exactly when the order fits in the credit line, and the case
   * needs a human exactly when it is not approved.
   */
  lemma PolicyFollowsCreditLine(s: CaseState, reply: Reply)
    ensures var r := PolicyCheck(CreditAssessment(s, reply));
      && (r.approvalStatus == Some("approved") <==> Affordable(s.customerData, s.orderData, reply))
      && (r.approvalStatus == Some("rejected") <==> !Affordable(s.customerData, s.orderData, reply))
      && r.requiresHuman == Some(!Affordable(s.customerData, s.orderData, reply))
  {
    var a := Assess(s.customerData, s.orderData, reply);
    assert a != NoAssessment;
  }

  /** On the success path the available credit is the limit less the balance, and within-limits is "available ≥ order". */
  lemma CreditArithmetic(c: CustomerData, o: OrderData, content: string, limit: int, balance: int, amount: int)
    requires ToNumber(c.creditLimit) == Ok(limit)
    requires ToNumber(c.outstandingBalance) == Ok(balance)
    requires ToNumber(o.turnover) == Ok(amount)
    ensures var a := Assess(c, o, Answered(content));
      && a.availableCredit == Some(limit - balance)
      && a.orderAmount == Some(amount)
      && (a.withinLimits == Some(true) <==> limit - balance >= amount)
      && (a.needsEscalation == Some(true) <==> limit - balance < amount)
  {
  }

  /**
   * Whatever the inputs, the two flags of an assessment are both present and
   * exactly one of them is set; a failed conversion or a failed service call
   * yields "not within limits, needs escalation".
   */
  lemma FlagsAreComplementary(c: CustomerData, o: OrderData, reply: Reply)
    ensures var a := Assess(c, o, reply);
      && a.withinLimits.Some? && a.needsEscalation.Some?
      && a.withinLimits.value != a.needsEscalation.value
      && (!Assessable(c, o, reply) ==> a.withinLimits == Some(false) && a.needsEscalation == Some(true))
  {
  }

  /** The test suite's batch scenarios, from credit_assessment through policy_check. */
  lemma BatchScenarios(s: CaseState, content: string)
    ensures PolicyCheck(CreditAssessment(s.(customerData := CustomerData(Number(100000), Number(20000), None),
      orderData := OrderData(None, Number(15000), None)), Answered(content))).approvalStatus == Some("approved")
    ensures PolicyCheck(CreditAssessment(s.(customerData := CustomerData(Number(200000), Number(150000), None),
      orderData := OrderData(None, Number(50000), None)), Answered(content))).approvalStatus == Some("approved")
    ensures PolicyCheck(CreditAssessment(s.(customerData := CustomerData(Number(50000), Number(45000), None),
      orderData := OrderData(None, Number(10000), None)), Answered(content))).approvalStatus == Some("rejected")
    ensures PolicyCheck(CreditAssessment(s.(customerData := CustomerData(Number(25000), Number(10000), None),
      orderData := OrderData(None, Number(40000), None)), Answered(content))).approvalStatus == Some("rejected")
    ensures PolicyCheck(CreditAssessment(s.(customerData := CustomerData(Number(75000), Number(70000), None),
      orderData := OrderData(None, Number(4000), None)), Answered(content))).approvalStatus == Some("approved")
  {
  }
}
