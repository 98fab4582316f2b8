/**
 * Addressing agents by name (src/agents/base.rs, `find_agent`; src/agents/llm_agent.rs, `resolve_transfer_target`).
 * `Descendants` lists the tree below an agent in preorder; it is what the two searches are held against.
 */
module AgentTree {
  import opened Wrappers

  /** What an agent does with its sub-agents: call on them by transfer, run them in order, or run them repeatedly. */
  datatype Kind = Llm(maxIterations: nat, disableTransfer: bool) | Sequence | Repetition(maxIterations: nat)

  datatype Agent = Agent(name: string, kind: Kind, subs: seq<Agent>)

  function FindAgent(a: Agent, name: string): Option<Agent>
    decreases a, 1, 0
  {
    FindAmong(a, 0, name)
  }

  /** The loop over `sub_agents`, from index `i` on. */
  function FindAmong(a: Agent, i: nat, name: string): Option<Agent>
    requires i <= |a.subs|
    decreases a, 0, |a.subs| - i
  {
    if i == |a.subs| then None
    else if a.subs[i].name == name then Some(a.subs[i])
    else
      var found := FindAgent(a.subs[i], name);
      if found.Some? then found else FindAmong(a, i + 1, name)
  }

  /** An agent's own subtree first, then the whole tree from the root; never the agent itself. */
  function ResolveTransferTarget(me: Agent, root: Option<Agent>, target: string): Option<Agent> {
    if target == me.name then None
    else
      var below := FindAgent(me, target);
      if below.Some? then below
      else if root.None? then None
      else if root.value.name == target then root
      else FindAgent(root.value, target)
  }

  // ---- The reference: preorder -------------------------------------------------------------------------

  function Preorder(a: Agent): seq<Agent>
    decreases a, 2, 0
  {
    [a] + Descendants(a)
  }

  function Descendants(a: Agent): seq<Agent>
    decreases a, 1, 0
  {
    DescendantsFrom(a, 0)
  }

  function DescendantsFrom(a: Agent, i: nat): seq<Agent>
    requires i <= |a.subs|
    decreases a, 0, |a.subs| - i
  {
    if i == |a.subs| then [] else Preorder(a.subs[i]) + DescendantsFrom(a, i + 1)
  }

  function FirstNamed(agents: seq<Agent>, name: string): Option<Agent> {
    if agents == [] then None
    else if agents[0].name == name then Some(agents[0])
    else FirstNamed(agents[1..], name)
  }

  lemma {:induction false} FirstNamedConcat(xs: seq<Agent>, ys: seq<Agent>, name: string)
    ensures FirstNamed(xs + ys, name) == Or(FirstNamed(xs, name), FirstNamed(ys, name))
    decreases xs
  {
    if xs == [] {
      assert xs + ys == ys;
    } else {
      assert (xs + ys)[1..] == xs[1..] + ys;
      FirstNamedConcat(xs[1..], ys, name);
    }
  }

  lemma {:induction false} FirstNamedFinds(agents: seq<Agent>, name: string)
    ensures match FirstNamed(agents, name)
            case Some(a) => a in agents && a.name == name
            case None => forall a | a in agents :: a.name != name
    decreases agents
  {
    if agents != [] {
      FirstNamedFinds(agents[1..], name);
    }
  }

  /** The search returns the first descendant with the name, in preorder. */
  lemma {:induction false} FindAgentIsFirst(a: Agent, name: string)
    ensures FindAgent(a, name) == FirstNamed(Descendants(a), name)
    decreases a, 1, 0
  {
    FindAmongIsFirst(a, 0, name);
  }

  lemma {:induction false} FindAmongIsFirst(a: Agent, i: nat, name: string)
    requires i <= |a.subs|
    ensures FindAmong(a, i, name) == FirstNamed(DescendantsFrom(a, i), name)
    decreases a, 0, |a.subs| - i
  {
    if i < |a.subs| {
      var sub := a.subs[i];
      FindAgentIsFirst(sub, name);
      FindAmongIsFirst(a, i + 1, name);
      FirstNamedConcat(Preorder(sub), DescendantsFrom(a, i + 1), name);
      FirstNamedConcat([sub], Descendants(sub), name);
      assert [sub][1..] == [];
    }
  }

  /** An agent is found exactly when a descendant bears the name. */
  lemma FindAgentTotal(a: Agent, name: string)
    ensures FindAgent(a, name).Some? <==> exists d :: d in Descendants(a) && d.name == name
  {
    FindAgentIsFirst(a, name);
    FirstNamedFinds(Descendants(a), name);
  }

  // ---- Transfer ----------------------------------------------------------------------------------------

  /** What is below a node is in the tree of the node. */
  lemma {:induction false} SubtreeInTree(root: Agent, me: Agent, d: Agent)
    requires me in Preorder(root) && d in Preorder(me)
    ensures d in Preorder(root)
    decreases root, 1, 0
  {
    if me != root {
      SubtreeBelow(root, 0, me, d);
    }
  }

  lemma {:induction false} SubtreeBelow(root: Agent, i: nat, me: Agent, d: Agent)
    requires i <= |root.subs| && me in DescendantsFrom(root, i) && d in Preorder(me)
    ensures d in DescendantsFrom(root, i)
    decreases root, 0, |root.subs| - i
  {
    if me in Preorder(root.subs[i]) {
      SubtreeInTree(root.subs[i], me, d);
    } else {
      SubtreeBelow(root, i + 1, me, d);
    }
  }

  /** No two nodes of the tree share a name; copies of one agent at two places are two nodes. */
  ghost predicate UniqueNames(root: Agent) {
    var nodes := Preorder(root);
    forall i, j | 0 <= i < j < |nodes| :: nodes[i].name != nodes[j].name
  }

  /** The node at position `k` is the only one with the name. */
  ghost predicate OnlyNamed(root: Agent, k: nat, name: string) {
    var nodes := Preorder(root);
    && k < |nodes| && nodes[k].name == name
    && forall j | 0 <= j < |nodes| && j != k :: nodes[j].name != name
  }

  lemma NameIsEnough(root: Agent, a: Agent) returns (k: nat)
    requires UniqueNames(root) && a in Preorder(root)
    ensures OnlyNamed(root, k, a.name) && Preorder(root)[k] == a
    ensures forall b | b in Preorder(root) && b.name == a.name :: b == a
  {
    hide Preorder;
    k :| 0 <= k < |Preorder(root)| && Preorder(root)[k] == a;
  }

  /**
   * In a tree with unique names, any agent can transfer to any other: the target is the one node with that name, and
   * there is no target exactly for the agent itself and for absent names.
   */
  lemma TransferReachesWholeTree(root: Agent, me: Agent, target: string)
    requires UniqueNames(root) && me in Preorder(root)
    ensures match ResolveTransferTarget(me, Some(root), target)
            case Some(a) => a != me && exists k: nat :: OnlyNamed(root, k, target) && Preorder(root)[k] == a
            case None => target == me.name || forall a | a in Preorder(root) :: a.name != target
  {
    if target != me.name {
      FindAgentIsFirst(me, target);
      FirstNamedFinds(Descendants(me), target);
      FindAgentIsFirst(root, target);
      FirstNamedFinds(Descendants(root), target);
      var below := FindAgent(me, target);
      if below.Some? {
        SubtreeInTree(root, me, below.value);
      }
      var found := ResolveTransferTarget(me, Some(root), target);
      if found.Some? {
        var k := NameIsEnough(root, found.value);
      }
    }
  }

  /** Without a root only the agent's own subtree is reachable; its own subtree always wins over the rest. */
  lemma OwnSubtreeFirst(root: Option<Agent>, me: Agent, target: string)
    requires target != me.name
    requires exists d :: d in Descendants(me) && d.name == target
    ensures ResolveTransferTarget(me, root, target) == FirstNamed(Descendants(me), target)
    ensures ResolveTransferTarget(me, root, target).Some?
  {
    FindAgentTotal(me, target);
    FindAgentIsFirst(me, target);
  }
}
