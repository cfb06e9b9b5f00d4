# Accounts-receivable credit approval, modelled in Dafny

The repository runs a sales order through a credit-approval workflow, one case
at a time. The workflow is a LangGraph state graph with nine nodes:

- load the customer-master and sales-order rows;
- check that the customer exists;
- assess the credit line;
- check the policy;
- approve, reject or escalate to management;
- document an approval;
- notify the teams.

Each node takes the case dictionary and returns `{**state, ...}`: a copy with
a few keys overwritten. Three routers choose the branches after the customer
check, after the policy check and after escalation.

This project models that core from `main.py`:

- `wrappers.dfy`: `Option` (with Python's `get`-with-default as `GetOr`) and `Result`.
- `case_record.dfy`: the case dictionary as the `CaseState` datatype.
  - A key that may be missing is an `Option`.
  - A numeric CSV cell is an `Amount`: missing (read as 0), a number, or text that `float()` rejects.
  - `OnlyWrites(s, t, keys)` states the `{**state, ...}` frame: `t` agrees with `s` on every key outside `keys`.
  - `KeepsKeys(s, t)` states that no key present in `s` is missing from `t`.
- `nodes.dfy`: the nine node functions. Each one's contract gives the keys it writes, their values, and that nothing else changes.
  - The loaded rows, the policy text, the customer IDs the customer check reads from the master, the assessment service's reply, management's answer and the clock are parameters.
  - The lemmas state the credit arithmetic and the decision it drives.
- `workflow_graph.dfy`:
  - the node names, the three routers and their path tables;
  - the graph as a value (`Workflow()`), with well-formedness and acyclicity (a rank that every step lowers);
  - a `WorkflowBuilder` class that replays the builder calls; `BuildWorkflow` proves they yield `Workflow()`.
- `driver.dfy`: the executor.
  - `RunFrom`/`Run` define a run as a function, with a step budget like the executor's recursion limit.
  - `Invoke` is the executor's step loop, proved to compute `Run`.
  - The lemmas prove:
    - every run ends within 8 node visits;
    - a completed run ends at `communicate_decision`, approved or rejected, and an approved case always passes through `document_approval`;
    - the only failure is an undeclared management answer;
    - each run follows a decision table on the inputs (`ExpectedTrace`, `ExpectedVerdict`).

## Model

| member | source | states |
|---|---|---|
| Nodes.DataLoader | main.py:87-127 | the customer and order rows are stored, or `{"error": e}` for both when loading fails; the policy text is stored; on failure the reason is "Error loading data: e"; no other key changes |
| Nodes.CheckCustomerData | main.py:284-308 | `customer_exists` is true exactly when the order record has a `Customer_ID` and the master lists it; an order without the key (the loader's error record) gives false; an unreadable master gives false and the reason "Error checking customer: e"; no other key changes |
| Nodes.Assess | main.py:131-211 | the assessment is never empty; `within_limits` holds exactly when the three amounts convert, the service answers and balance + order ≤ limit; `needs_escalation` is its negation; on success it holds the reply, limit − balance and the order amount; on failure neither amount is stored |
| Nodes.CreditAssessment | main.py:131-211 | `credit_assessment` becomes the assessment of the stored customer and order rows; no other key changes |
| Nodes.PolicyCheck | main.py:215-248 | status "approved" exactly when the assessment is non-empty and `within_limits` is true, else "rejected"; `requires_human` copies `needs_escalation` (default false); the reason is the missing-assessment, within-limits or over-limit text of each branch; no other key changes |
| Nodes.ApproveOrder | main.py:266-272 | status "approved" with the fixed approval reason; no other key changes |
| Nodes.RejectOrder | main.py:275-281 | status "rejected"; an existing reason is kept, otherwise "Failed credit policy check"; no other key changes |
| Nodes.HumanEscalation | main.py:332-358 | the status becomes management's answer verbatim, with the fixed management reason; no other key changes |
| Nodes.DocumentApproval | main.py:311-318 | documentation is complete, with the given timestamp; no other key changes |
| Nodes.CommunicateDecision | main.py:321-328 | communication is complete and the notification is sent; no other key changes |
| Nodes.PolicyFollowsCreditLine | main.py:185-191 | credit assessment then policy check approves exactly when the order fits the credit line, rejects exactly otherwise, and sets `requires_human` exactly when it does not fit |
| Nodes.CreditArithmetic | main.py:185-191 | on the success path available credit = limit − balance; `within_limits` ⇔ available ≥ order (the boundary included); `needs_escalation` ⇔ available < order |
| Nodes.FlagsAreComplementary | main.py:185-211 | both flags are always present and exactly one is true; a conversion or service failure gives "not within limits, needs escalation" |
| Nodes.BatchScenarios | test_ar_workflow.py:212-279 | the five batch scenarios (clearly within, exactly at the limit, slightly over, far over, at-risk but within) get the expected approved/rejected status |
| WorkflowGraph.CustomerRoute | main.py:382-389 | the key is "existing_customer" exactly when `customer_exists` is true (absent counts as false), otherwise "new_customer" |
| WorkflowGraph.PolicyRoute | main.py:396-405 | escalation exactly when `requires_human` is true, whatever the status; otherwise approval exactly when the status is "approved", else rejection |
| WorkflowGraph.EscalationRoute | main.py:410-417 | the key is the stored status itself, or "rejected" when no status is stored |
| WorkflowGraph.PolicyTargets | main.py:396-405 | in the built graph, policy verification leads to escalation, approval or rejection with that precedence |
| WorkflowGraph.EscalationTargets | main.py:410-417 | after escalation, "approved" leads to approval; "rejected" or a missing status leads to rejection; any other status is a routing error carrying that key |
| WorkflowGraph.WorkflowNodesDistinct | main.py:365-373 | the nine registered names are distinct and every node is registered |
| WorkflowGraph.WorkflowEdgesDeclared | main.py:379-424 | every static and conditional edge joins registered nodes (or `END`) |
| WorkflowGraph.WorkflowEdgeKindsDisjoint | main.py:379-424 | no node has both a static edge and a conditional edge set |
| WorkflowGraph.WorkflowNodesHaveExits | main.py:379-424 | every registered node has an outgoing edge |
| WorkflowGraph.WorkflowWellFormed | main.py:362-424 | the graph is well formed: distinct nodes, a declared entry, declared edge ends, one edge kind per node, no dead end |
| WorkflowGraph.WorkflowDescends | main.py:379-424 | every step lowers the rank, so the graph has no cycle; only `communicate_decision` leads to `END`; the only failing step is an undeclared key at the escalation router |
| WorkflowGraph.WorkflowBuilder.constructor | main.py:362 | a new builder has no nodes, no entry and no edges |
| WorkflowGraph.WorkflowBuilder.AddNode | main.py:365-373 | appends the node; the other parts are unchanged |
| WorkflowGraph.WorkflowBuilder.SetEntryPoint | main.py:376 | sets the entry; the other parts are unchanged |
| WorkflowGraph.WorkflowBuilder.AddEdge | main.py:379 | adds the static edge from the source; the other parts are unchanged |
| WorkflowGraph.WorkflowBuilder.AddConditionalEdges | main.py:382-389 | records the router and its path table for the source; the other parts are unchanged |
| WorkflowGraph.BuildWorkflow | main.py:362-424 | the builder calls, in source order, produce exactly `Workflow()`, and it is well formed |
| Driver.RunFrom | main.py:437-446 | a run from a node spends one unit of budget per node visited: the trace grows by at most the budget, and a run already under way never fails for a missing entry point |
| Driver.Run | main.py:437-446 | a run visits at most `limit` nodes, and fails with "no entry point" exactly when the graph has none |
| Driver.Execute | main.py:365-373 | the node registered under each name changes only the keys it writes and never removes a key |
| Driver.Invoke | main.py:437-446 | the executor's step loop returns exactly `Run`: the same final record, visited nodes and failure |
| Driver.RunWithinRank | main.py:379-424 | from any node the run visits at most its rank more nodes; a completed run is concluded and a failed run stopped on management's answer |
| Driver.RunTerminates | main.py:437-446 | with a budget of at least 8, a run never exhausts it, visits between 1 and 8 nodes starting at `load_data`, ends at `communicate_decision` approved or rejected (approved only through `document_approval`), or fails only on an undeclared management answer |
| Driver.ArrivalPreserved | main.py:421-423 | documentation is reached only by an approved case; notification only by a rejected case or a documented approved one |
| Driver.RunMatchesDecisionTable | main.py:362-424 | every run visits exactly the nodes of the decision table and ends with its verdict: unknown customer → rejected; order within the line → approved; otherwise management's answer decides |
| Driver.UnknownCustomerRejected | main.py:382-389 | an order whose customer is not in the master (or an unreadable master) goes load → check → reject → communicate and is rejected; credit check and escalation are never visited |
| Driver.FailedLoadNeverApproved | main.py:117-127 | when loading fails, the stored order has no customer ID, so the run goes load → check → reject → communicate and ends rejected |
| Driver.OverLimitNeverApprovedDirectly | main.py:396-405 | an order that does not fit is never routed from policy verification straight to approval |
| Driver.EscalationOutcome | main.py:410-417 | after escalation, "approved" ends approved through documentation in 8 visits; "rejected" ends rejected; any other answer is a routing error after 5 visits |
| Driver.OutcomeDependsOnInputsOnly | main.py:437-446 | two runs with the same external inputs visit the same nodes and reach the same verdict, whatever record they start from |

## Left out

- The Gemini client, its callback logger and the prompt text: the reply's content is stored as `analysis`, and a raised exception is the `Raised` reply. The reply's content never influences the decision; only whether the call raises does (a raised call sends the case to management).
- Reading the CSV files, the random choice of a customer and `load_policy`'s file read: these are the `LoadResult` and the policy text passed in.
- Amounts are integers. Float rounding, `NaN`/infinity and the exponent notation Python uses for floats of 1e16 and above are not modelled.
- `interrupt`, checkpointing and resuming: management's answer is the `decision` input.
  - As written, `interrupt` is called with three arguments; the model assumes it returns the answer.
- Nodes.HumanEscalation: the escalation payload is not modelled. It would raise `KeyError` when `decision_reason` is missing, but every path to escalation passes through the policy check, which sets it.
- `datetime.now()`: the timestamp is the `now` input.
- `human_review` (main.py:252-263): it is not registered in the graph.
- The notebook cells: the diagram, the demo invocation's printing and the result display.
- The exception handler of `policy_check` (main.py:242-248): nothing in its body can raise for a dictionary assessment.
- LangGraph runs every outgoing edge of a node in parallel. `Next` takes the static edge first; `WorkflowEdgeKindsDisjoint` proves that no node of this graph has two kinds of edge, so the choice never matters here.
- The recursion limit is the `limit` parameter, and `RecursionLimitReached` is its error.
- `check_customer_data` reads the customer master file again, so its set of IDs is an input of its own. The model does not tie it to the master the loader read, so it also covers a master that changed between the two reads.
- The executor's state schema: `ARWorkflowState` (main.py:56-63) declares only seven keys, and the executor may drop keys that are not declared. The model keeps every key the nodes return, so `customer_exists`, the documentation keys and the notification keys describe what the nodes return, not necessarily what the executor hands back.

## Behaviour worth noting

- An order over the credit line is not rejected outright. `policy_check` copies `needs_escalation` into `requires_human`, and the policy router sends the case to management (`EscalationOutcome`).
- The service's `WITHIN_LIMITS`/`NEEDS_ESCALATION` answer is never parsed. Only the arithmetic decides, so an order within the line is approved whatever the service says.
- An approval by management goes through `approve_order`. That replaces management's reason with the standard approval reason before documentation.
- Graph validation is the `WellFormed` predicate, proved of this graph.
