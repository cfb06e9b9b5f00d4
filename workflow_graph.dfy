/**
 * The workflow graph of main.py: the nine registered node names, the static
 * edges, the three conditional routers with their path tables, and the entry
 * point. `Workflow()` is the graph as a value; `WorkflowBuilder` replays the
 * builder calls that construct it and `BuildWorkflow` proves the two agree.
 */
module WorkflowGraph {
  import opened Wrappers
  import opened CaseRecord

  /** The names under which the node functions are registered. */
  datatype Node =
    | LoadData
    | CheckCustomer
    | CreditCheck
    | PolicyVerification
    | ApproveOrder
    | RejectOrder
    | EscalateToManagement
    | DocumentApproval
    | CommunicateDecision

  /** Where an edge leads: another node or the terminal `END`. */
  datatype Target = Goto(node: Node) | End

  /** The three routing functions passed to `add_conditional_edges`. */
  datatype Router = CustomerRouter | PolicyRouter | EscalationRouter

  /** A conditional edge set: a router and its table from result key to target. */
  datatype Branch = Branch(router: Router, paths: map<string, Target>)

  /**
   * A graph definition: nodes in registration order, the entry point, one
   * static edge per source and one conditional edge set per source.
   */
  datatype Graph = Graph(
    nodes: seq<Node>,
    entry: Option<Node>,
    edges: map<Node, Target>,
    branches: map<Node, Branch>)

  /** Why the next node cannot be determined. */
  datatype RouteError =
    | RoutingError(at: Node, key: string) // the router returned a key its table does not declare
    | DeadEnd(at: Node)                   // the node has no outgoing edge at all

  // ---------------------------------------------------------------------------
  // Routers

  /** Router of `check_customer`: known customers go on, unknown ones are new. */
  function CustomerRoute(s: CaseState): (key: string)
    ensures key == "existing_customer" || key == "new_customer"
    ensures key == "existing_customer" <==> s.customerExists == Some(true)
  {
    if s.customerExists.GetOr(false) then "existing_customer" else "new_customer"
  }

  /**
   * Router of `policy_verification`: a case that needs a human goes to
   * escalation whatever its status; otherwise an approved status goes to
   * approval and anything else to rejection.
   */
  function PolicyRoute(s: CaseState): (key: string)
    ensures key == "requires_escalation" <==> s.requiresHuman == Some(true)
    ensures key == "approve_order" <==> s.requiresHuman != Some(true) && s.approvalStatus == Some("approved")
    ensures key == "reject_order" <==> s.requiresHuman != Some(true) && s.approvalStatus != Some("approved")
  {
    if s.requiresHuman.GetOr(false) then "requires_escalation"
    else if s.approvalStatus == Some("approved") then "approve_order"
    else "reject_order"
  }

  /** Router of `escalate_to_management`: the status itself is the key, "rejected" when absent. */
  function EscalationRoute(s: CaseState): (key: string)
    ensures s.approvalStatus.Some? ==> key == s.approvalStatus.value
    ensures s.approvalStatus.None? ==> key == "rejected"
  {
    s.approvalStatus.GetOr("rejected")
  }

  function RouteKey(router: Router, s: CaseState): string {
    match router
    case CustomerRouter => CustomerRoute(s)
    case PolicyRouter => PolicyRoute(s)
    case EscalationRouter => EscalationRoute(s)
  }

  /**
   * The node that follows `n` once it has produced state `s`: its static
   * edge, else its router's key looked up in the path table.
   */
  function Next(g: Graph, n: Node, s: CaseState): Result<Target, RouteError> {
    if n in g.edges then Ok(g.edges[n])
    else if n in g.branches then
      var b := g.branches[n];
      var key := RouteKey(b.router, s);
      if key in b.paths then Ok(b.paths[key]) else Err(RoutingError(n, key))
    else Err(DeadEnd(n))
  }

  // ---------------------------------------------------------------------------
  // The credit-approval graph

  const AllNodes := [LoadData, CheckCustomer, CreditCheck, PolicyVerification, ApproveOrder,
                     RejectOrder, EscalateToManagement, DocumentApproval, CommunicateDecision]

  const CustomerPaths := map["existing_customer" := Goto(CreditCheck), "new_customer" := Goto(RejectOrder)]

  const PolicyPaths := map["requires_escalation" := Goto(EscalateToManagement),
                           "approve_order" := Goto(ApproveOrder),
                           "reject_order" := Goto(RejectOrder)]

  const EscalationPaths := map["approved" := Goto(ApproveOrder), "rejected" := Goto(RejectOrder)]

  function Workflow(): Graph {
    Graph(
      AllNodes,
      Some(LoadData),
      map[LoadData := Goto(CheckCustomer),
          CreditCheck := Goto(PolicyVerification),
          ApproveOrder := Goto(DocumentApproval),
          DocumentApproval := Goto(CommunicateDecision),
          RejectOrder := Goto(CommunicateDecision),
          CommunicateDecision := End],
      map[CheckCustomer := Branch(CustomerRouter, CustomerPaths),
          PolicyVerification := Branch(PolicyRouter, PolicyPaths),
          EscalateToManagement := Branch(EscalationRouter, EscalationPaths)])
  }

  predicate TargetDeclared(g: Graph, t: Target) {
    t.Goto? ==> t.node in g.nodes
  }

  predicate DistinctNodes(g: Graph) {
    forall i, j :: 0 <= i < j < |g.nodes| ==> g.nodes[i] != g.nodes[j]
  }

  predicate EdgesDeclared(g: Graph) {
    && (forall n :: n in g.edges ==> n in g.nodes && TargetDeclared(g, g.edges[n]))
    && (forall n :: n in g.branches ==> n in g.nodes)
    && (forall n, k :: n in g.branches && k in g.branches[n].paths ==>
          TargetDeclared(g, g.branches[n].paths[k]))
  }

  /**
   * A definition the executor may run: distinct node names, a declared entry,
   * every edge between declared nodes, no node with both a static edge and a
   * conditional edge set, and every declared node with some way out.
   */
  predicate WellFormed(g: Graph) {
    && DistinctNodes(g)
    && g.entry.Some? && g.entry.value in g.nodes
    && EdgesDeclared(g)
    && g.edges.Keys !! g.branches.Keys
    && (forall n :: n in g.nodes ==> n in g.edges || n in g.branches)
  }

  /** Position of each node in registration order. */
  function Ordinal(n: Node): nat {
    match n
    case LoadData => 0
    case CheckCustomer => 1
    case CreditCheck => 2
    case PolicyVerification => 3
    case ApproveOrder => 4
    case RejectOrder => 5
    case EscalateToManagement => 6
    case DocumentApproval => 7
    case CommunicateDecision => 8
  }

  lemma WorkflowNodesDistinct()
    ensures DistinctNodes(Workflow())
    ensures forall n: Node :: n in Workflow().nodes
  {
    var g := Workflow();
    forall i | 0 <= i < |g.nodes| ensures Ordinal(g.nodes[i]) == i {
    }
    forall n: Node ensures n in g.nodes {
      assert g.nodes[Ordinal(n)] == n;
    }
  }

  lemma WorkflowEdgesDeclared()
    ensures EdgesDeclared(Workflow())
  {
    WorkflowNodesDistinct();
  }

  lemma WorkflowEdgeKindsDisjoint()
    ensures Workflow().edges.Keys !! Workflow().branches.Keys
  {
    var g := Workflow();
    forall n | n in g.edges ensures n !in g.branches {
      assert n == LoadData || n == CreditCheck || n == ApproveOrder || n == DocumentApproval
        || n == RejectOrder || n == CommunicateDecision;
    }
  }

  lemma WorkflowNodesHaveExits()
    ensures forall n :: n in Workflow().nodes ==> n in Workflow().edges || n in Workflow().branches
  {
    var g := Workflow();
    forall i | 0 <= i < |g.nodes| ensures g.nodes[i] in g.edges || g.nodes[i] in g.branches {
    }
  }

  lemma WorkflowWellFormed()
    ensures WellFormed(Workflow())
  {
    WorkflowNodesDistinct();
    WorkflowEdgesDeclared();
    WorkflowEdgeKindsDisjoint();
    WorkflowNodesHaveExits();
  }

  /** Nodes on the longest remaining path to `END`, this one included. */
  function Rank(n: Node): nat {
    match n
    case CommunicateDecision => 1
    case DocumentApproval => 2
    case RejectOrder => 2
    case ApproveOrder => 3
    case EscalateToManagement => 4
    case PolicyVerification => 5
    case CreditCheck => 6
    case CheckCustomer => 7
    case LoadData => 8
  }

  /**
   * Every step of the credit-approval graph moves strictly down in rank, so
   * the graph has no cycle; only `communicate_decision` leads to `END`, and
   * the only way a step can fail is an undeclared key at the escalation router.
   */
  lemma WorkflowDescends(n: Node, s: CaseState)
    ensures var next := Next(Workflow(), n, s);
      && (next.Ok? && next.value.Goto? ==> Rank(next.value.node) < Rank(n))
      && (next == Ok(End) <==> n == CommunicateDecision)
      && (next.Err? <==> n == EscalateToManagement && EscalationRoute(s) !in EscalationPaths)
      && (next.Err? ==> next.error == RoutingError(EscalateToManagement, EscalationRoute(s)))
  {
  }

  /**
   * The policy router's precedence as the graph sees it: escalation first,
   * then approval on an approved status, else rejection.
   */
  lemma PolicyTargets(s: CaseState)
    ensures Next(Workflow(), PolicyVerification, s) ==
      if s.requiresHuman == Some(true) then Ok(Goto(EscalateToManagement))
      else if s.approvalStatus == Some("approved") then Ok(Goto(ApproveOrder))
      else Ok(Goto(RejectOrder))
  {
  }

  /**
   * After escalation an approved status leads to approval, a rejected or
   * missing status to rejection, and any other status has no target.
   */
  lemma EscalationTargets(s: CaseState)
    ensures s.approvalStatus == Some("approved") ==>
      Next(Workflow(), EscalateToManagement, s) == Ok(Goto(ApproveOrder))
    ensures s.approvalStatus == Some("rejected") || s.approvalStatus == None ==>
      Next(Workflow(), EscalateToManagement, s) == Ok(Goto(RejectOrder))
    ensures s.approvalStatus.Some? && s.approvalStatus.value != "approved" && s.approvalStatus.value != "rejected" ==>
      Next(Workflow(), EscalateToManagement, s) == Err(RoutingError(EscalateToManagement, s.approvalStatus.value))
  {
  }

  // ---------------------------------------------------------------------------
  // Building the graph

  /** The graph builder: each call records one more node, edge or entry point. */
  class WorkflowBuilder {
    var nodes: seq<Node>
    var entry: Option<Node>
    var edges: map<Node, Target>
    var branches: map<Node, Branch>

    constructor ()
      ensures nodes == [] && entry == None && edges == map[] && branches == map[]
    {
      nodes, entry, edges, branches := [], None, map[], map[];
    }

    /** The definition built so far. */
    function Definition(): Graph
      reads this
    {
      Graph(nodes, entry, edges, branches)
    }

    method AddNode(n: Node)
      modifies this
      ensures nodes == old(nodes) + [n]
      ensures entry == old(entry) && edges == old(edges) && branches == old(branches)
    {
      nodes := nodes + [n];
    }

    method SetEntryPoint(n: Node)
      modifies this
      ensures entry == Some(n)
      ensures nodes == old(nodes) && edges == old(edges) && branches == old(branches)
    {
      entry := Some(n);
    }

    method AddEdge(source: Node, target: Target)
      modifies this
      ensures edges == old(edges)[source := target]
      ensures nodes == old(nodes) && entry == old(entry) && branches == old(branches)
    {
      edges := edges[source := target];
    }

    method AddConditionalEdges(source: Node, router: Router, paths: map<string, Target>)
      modifies this
      ensures branches == old(branches)[source := Branch(router, paths)]
      ensures nodes == old(nodes) && entry == old(entry) && edges == old(edges)
    {
      branches := branches[source := Branch(router, paths)];
    }
  }

  /** The builder calls of main.py, in order; the result is the credit-approval graph. */
  method BuildWorkflow() returns (g: Graph)
    ensures g == Workflow()
    ensures WellFormed(g)
  {
    var b := new WorkflowBuilder();
    b.AddNode(LoadData);
    b.AddNode(CheckCustomer);
    b.AddNode(CreditCheck);
    b.AddNode(PolicyVerification);
    b.AddNode(ApproveOrder);
    b.AddNode(RejectOrder);
    b.AddNode(EscalateToManagement);
    b.AddNode(DocumentApproval);
    b.AddNode(CommunicateDecision);
    assert b.nodes == AllNodes;
    b.SetEntryPoint(LoadData);
    b.AddEdge(LoadData, Goto(CheckCustomer));
    b.AddConditionalEdges(CheckCustomer, CustomerRouter, CustomerPaths);
    b.AddEdge(CreditCheck, Goto(PolicyVerification));
    b.AddConditionalEdges(PolicyVerification, PolicyRouter, PolicyPaths);
    b.AddConditionalEdges(EscalateToManagement, EscalationRouter, EscalationPaths);
    b.AddEdge(ApproveOrder, Goto(DocumentApproval));
    b.AddEdge(DocumentApproval, Goto(CommunicateDecision));
    b.AddEdge(RejectOrder, Goto(CommunicateDecision));
    b.AddEdge(CommunicateDecision, End);
    assert b.nodes == AllNodes;
    assert b.edges == Workflow().edges;
    assert b.branches == Workflow().branches;
    g := b.Definition();
    WorkflowWellFormed();
  }
}
