/**
 * The case record threaded through the accounts-receivable workflow.
 *
 * The source keeps the case in a Python dictionary. Every key that some node
 * writes becomes a field here. A key that the nodes read with a default
 * (`state.get(k, default)`) and that may be missing from the dictionary is an
 * `Option`; the three keys whose default is an empty value (`customer_data`,
 * `order_data`, `policy_content`) are plain fields whose empty value stands
 * for "missing" as well.
 */
module CaseRecord {
  import opened Wrappers

  /** One numeric entry of a loaded record, as `float(record.get(key, 0))` sees it. */
  datatype Amount =
    | Absent                   // key missing: the default 0 is used
    | Number(value: int)       // converts to this amount
    | Malformed(error: string) // `float()` raises ValueError with this message

  /** The customer master row (or the loader's error record). */
  datatype CustomerData = CustomerData(
    creditLimit: Amount,
    outstandingBalance: Amount,
    error: Option<string>)

  /** The sales order row (or the loader's error record, which has no customer ID). */
  datatype OrderData = OrderData(customerId: Option<string>, turnover: Amount, error: Option<string>)

  const EmptyCustomer := CustomerData(Absent, Absent, None)
  const EmptyOrder := OrderData(None, Absent, None)

  /**
   * The `credit_assessment` dictionary. Each key may be absent; the empty
   * dictionary is `NoAssessment`.
   */
  datatype Assessment = Assessment(
    analysis: Option<string>,
    availableCredit: Option<int>,
    orderAmount: Option<int>,
    withinLimits: Option<bool>,
    needsEscalation: Option<bool>)

  const NoAssessment := Assessment(None, None, None, None, None)

  datatype CaseState = CaseState(
    customerData: CustomerData,
    orderData: OrderData,
    policyContent: string,
    creditAssessment: Assessment,
    approvalStatus: Option<string>,
    decisionReason: Option<string>,
    requiresHuman: Option<bool>,
    customerExists: Option<bool>,
    documentationComplete: Option<bool>,
    documentationTimestamp: Option<string>,
    communicationComplete: Option<bool>,
    notificationSent: Option<bool>)

  /** Names of the record's fields, for stating which ones a node may overwrite. */
  datatype Field =
    | CustomerDataField
    | OrderDataField
    | PolicyContentField
    | CreditAssessmentField
    | ApprovalStatusField
    | DecisionReasonField
    | RequiresHumanField
    | CustomerExistsField
    | DocumentationCompleteField
    | DocumentationTimestampField
    | CommunicationCompleteField
    | NotificationSentField

  /** `s` and `t` hold the same value under key `f`. */
  predicate Agree(s: CaseState, t: CaseState, f: Field) {
    match f
    case CustomerDataField => s.customerData == t.customerData
    case OrderDataField => s.orderData == t.orderData
    case PolicyContentField => s.policyContent == t.policyContent
    case CreditAssessmentField => s.creditAssessment == t.creditAssessment
    case ApprovalStatusField => s.approvalStatus == t.approvalStatus
    case DecisionReasonField => s.decisionReason == t.decisionReason
    case RequiresHumanField => s.requiresHuman == t.requiresHuman
    case CustomerExistsField => s.customerExists == t.customerExists
    case DocumentationCompleteField => s.documentationComplete == t.documentationComplete
    case DocumentationTimestampField => s.documentationTimestamp == t.documentationTimestamp
    case CommunicationCompleteField => s.communicationComplete == t.communicationComplete
    case NotificationSentField => s.notificationSent == t.notificationSent
  }

  /** `t` is `s` with at most the keys in `written` overwritten: Python's `{**s, ...}`. */
  predicate OnlyWrites(s: CaseState, t: CaseState, written: set<Field>) {
    forall f :: f !in written ==> Agree(s, t, f)
  }

  /** Key `f` is present in the dictionary (the non-optional keys always are). */
  predicate IsPresent(s: CaseState, f: Field) {
    match f
    case ApprovalStatusField => s.approvalStatus.Some?
    case DecisionReasonField => s.decisionReason.Some?
    case RequiresHumanField => s.requiresHuman.Some?
    case CustomerExistsField => s.customerExists.Some?
    case DocumentationCompleteField => s.documentationComplete.Some?
    case DocumentationTimestampField => s.documentationTimestamp.Some?
    case CommunicationCompleteField => s.communicationComplete.Some?
    case NotificationSentField => s.notificationSent.Some?
    case _ => true
  }

  /** No key present in `s` is missing from `t`. */
  predicate KeepsKeys(s: CaseState, t: CaseState) {
    forall f :: IsPresent(s, f) ==> IsPresent(t, f)
  }
}
