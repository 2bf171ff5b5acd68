/** Plan nodes, and what it means for a plan to be an executable dependency graph. */
module Plan {
  import opened Common

  /** Node identities, one constructor for each form of identifier the planner writes. */
  datatype NodeId =
    | Normalize | Policy
    | AuthSession(capability: string)
    | CachePre(index: nat, capability: string)
    | Http | AuthCsrf | AuthForm | Crawl | Alternatives
    | Reader(index: nat, capability: string)
    | Browser
    | Document(index: nat, capability: string)
    | Media(index: nat, capability: string)
    | Archive | Structured | RagProducer | RenderProducer
    | CachePost(index: nat, capability: string)
    | Other(name: string)

  datatype PlanNode = PlanNode(
    id: NodeId, capability: string, adapter: string, dependencies: seq<NodeId>,
    group: Option<string>, fallbackFor: Option<NodeId>,
    stopOnAcceptance: bool, requiresApproval: bool, retries: nat)

  function Ids(nodes: seq<PlanNode>): set<NodeId> {
    set n | n in nodes :: n.id
  }

  ghost predicate UniqueIds(nodes: seq<PlanNode>) {
    forall i, j :: 0 <= i < j < |nodes| ==> nodes[i].id != nodes[j].id
  }

  /** Every dependency names an earlier node; in particular every dependency is in the plan. */
  ghost predicate DependsBackwards(nodes: seq<PlanNode>) {
    forall i, d :: 0 <= i < |nodes| && d in nodes[i].dependencies ==> d in Ids(nodes[..i])
  }

  /** A plan the executor may walk from front to back. */
  ghost predicate Executable(nodes: seq<PlanNode>) {
    UniqueIds(nodes) && DependsBackwards(nodes)
  }

  ghost predicate Link(nodes: seq<PlanNode>, from: NodeId, to: NodeId) {
    exists n :: n in nodes && n.id == from && to in n.dependencies
  }

  /** A chain of dependencies, each element a dependency of the one before it. */
  ghost predicate Chain(nodes: seq<PlanNode>, path: seq<NodeId>) {
    && path != []
    && (forall i :: 0 <= i < |path| - 1 ==> Link(nodes, path[i], path[i + 1]))
  }

  /** `from` depends on `to` through one or more dependencies. */
  ghost predicate DependsOn(nodes: seq<PlanNode>, from: NodeId, to: NodeId) {
    exists path :: Chain(nodes, path) && |path| > 1 && path[0] == from && path[|path| - 1] == to
  }

  /**
   Only the two core nodes run without a dependency chain to the policy node, and the policy node
   itself is never a fallback and never in a parallel group.
   */
  ghost predicate PolicyGuarded(nodes: seq<PlanNode>) {
    && (exists n :: n in nodes && n.id == Policy)
    && (forall n :: n in nodes && (n.id == Normalize || n.id == Policy) ==>
          n.adapter == "core" && n.group.None? && n.fallbackFor.None?)
    && (forall n :: n in nodes && n.id != Normalize && n.id != Policy ==>
          n.adapter != "core" && DependsOn(nodes, n.id, Policy))
  }
}
