/** `validatePresentation` of presentation.ts: an explicit-stack walk over a document's tree
    against the recursive meaning of its three limits. Strings are sequences of UTF-16 code
    units, which is what `length` counts. */
module Presentation {
  import opened Prelude

  const MAX_DEPTH: nat := 8
  const MAX_NODES: nat := 64
  const MAX_TEXT_LENGTH: nat := 16384

  datatype Node =
    | Group(children: seq<Node>)
    | Text(text: string)
    | Badge(text: string)
    | Field(name: string, value: string)
    | Progress(caption: Option<string>)

  datatype Error = TextTooLarge | TooManyNodes | TooDeeplyNested

  // ----- what the limits mean -----

  function Nodes(node: Node): nat
    decreases node, 0
  {
    1 + if node.Group? then NodesIn(node.children) else 0
  }

  function NodesIn(nodes: seq<Node>): nat
    decreases nodes, 1
  {
    if nodes == [] then 0 else NodesIn(nodes[..|nodes| - 1]) + Nodes(nodes[|nodes| - 1])
  }

  function Depth(node: Node): nat
    decreases node, 0
  {
    1 + if node.Group? then DepthOf(node.children) else 0
  }

  function DepthOf(nodes: seq<Node>): nat
    decreases nodes, 1
  {
    if nodes == [] then 0
    else
      var rest, last := DepthOf(nodes[..|nodes| - 1]), Depth(nodes[|nodes| - 1]);
      if rest < last then last else rest
  }

  function OwnText(node: Node): nat {
    match node
    case Group(_) => 0
    case Text(text) => |text|
    case Badge(text) => |text|
    case Field(name, value) => |name| + |value|
    case Progress(caption) => if caption.Some? then |caption.value| else 0
  }

  function TextLength(node: Node): nat
    decreases node, 0
  {
    OwnText(node) + if node.Group? then TextIn(node.children) else 0
  }

  function TextIn(nodes: seq<Node>): nat
    decreases nodes, 1
  {
    if nodes == [] then 0 else TextIn(nodes[..|nodes| - 1]) + TextLength(nodes[|nodes| - 1])
  }

  predicate WithinLimits(root: Option<Node>, initialTextLength: nat) {
    match root
    case None => initialTextLength <= 16384
    case Some(node) => Nodes(node) <= 64 && Depth(node) <= 8 && initialTextLength + TextLength(node) <= 16384
  }

  // ----- the same sums over the stack -----

  datatype Pending = Pending(node: Node, depth: nat)

  function StackNodes(stack: seq<Pending>): nat {
    if stack == [] then 0 else StackNodes(stack[..|stack| - 1]) + Nodes(stack[|stack| - 1].node)
  }

  function StackText(stack: seq<Pending>): nat {
    if stack == [] then 0 else StackText(stack[..|stack| - 1]) + TextLength(stack[|stack| - 1].node)
  }

  /** Everything still on the stack respects the depth limit. */
  ghost predicate StackShallow(stack: seq<Pending>) {
    forall i | 0 <= i < |stack| :: stack[i].depth - 1 + Depth(stack[i].node) <= MAX_DEPTH
  }

  lemma {:induction false} DepthOfBound(nodes: seq<Node>, limit: nat)
    ensures DepthOf(nodes) <= limit <==> forall i | 0 <= i < |nodes| :: Depth(nodes[i]) <= limit
    decreases |nodes|
  {
    if nodes != [] {
      var rest := nodes[..|nodes| - 1];
      DepthOfBound(rest, limit);
      assert forall i | 0 <= i < |rest| :: rest[i] == nodes[i];
    }
  }

  lemma ShallowSplit(stack: seq<Pending>, pushed: seq<Pending>, children: seq<Node>, depth: nat)
    requires |pushed| == |stack| + |children| && pushed[..|stack|] == stack
    requires forall i | 0 <= i < |children| :: pushed[|stack| + i] == Pending(children[i], depth)
    ensures StackShallow(pushed) <==>
      StackShallow(stack) && forall i | 0 <= i < |children| :: depth - 1 + Depth(children[i]) <= MAX_DEPTH
  {
    if StackShallow(pushed) {
      forall i | 0 <= i < |stack|
        ensures stack[i].depth - 1 + Depth(stack[i].node) <= MAX_DEPTH
      {
        assert stack[i] == pushed[i];
      }
      forall i | 0 <= i < |children|
        ensures depth - 1 + Depth(children[i]) <= MAX_DEPTH
      {
        assert pushed[|stack| + i].node == children[i];
      }
    }
    if StackShallow(stack) && forall i | 0 <= i < |children| :: depth - 1 + Depth(children[i]) <= MAX_DEPTH {
      forall j | 0 <= j < |pushed|
        ensures pushed[j].depth - 1 + Depth(pushed[j].node) <= MAX_DEPTH
      {
        if j < |stack| {
          assert pushed[j] == stack[j];
        } else {
          assert pushed[|stack| + (j - |stack|)] == Pending(children[j - |stack|], depth);
        }
      }
    }
  }

  /** Lines 89-91: put the children on the stack, first to last. */
  method PushChildren(stack: seq<Pending>, children: seq<Node>, depth: nat) returns (pushed: seq<Pending>)
    requires depth >= 1 && forall i | 0 <= i < |stack| :: stack[i].depth >= 1
    ensures forall i | 0 <= i < |pushed| :: pushed[i].depth >= 1
    ensures StackNodes(pushed) == StackNodes(stack) + NodesIn(children)
    ensures StackText(pushed) == StackText(stack) + TextIn(children)
    ensures StackShallow(pushed) <==>
      StackShallow(stack) && forall i | 0 <= i < |children| :: depth - 1 + Depth(children[i]) <= MAX_DEPTH
  {
    pushed := stack;
    for n := 0 to |children|
      invariant StackNodes(pushed) == StackNodes(stack) + NodesIn(children[..n])
      invariant StackText(pushed) == StackText(stack) + TextIn(children[..n])
      invariant |pushed| == |stack| + n && pushed[..|stack|] == stack
      invariant forall i | 0 <= i < n :: pushed[|stack| + i] == Pending(children[i], depth)
      invariant forall i | 0 <= i < |pushed| :: pushed[i].depth >= 1
    {
      ghost var before := pushed;
      pushed := pushed + [Pending(children[n], depth)];
      assert pushed[..|pushed| - 1] == before;
      assert children[..n + 1][..n] == children[..n];
    }
    assert children[..|children|] == children;
    ShallowSplit(stack, pushed, children, depth);
  }

  /** Taking the top entry off the stack. */
  lemma Pop(stack: seq<Pending>)
    requires stack != []
    ensures var top, rest := stack[|stack| - 1], stack[..|stack| - 1];
      && StackNodes(stack) == StackNodes(rest) + Nodes(top.node)
      && StackText(stack) == StackText(rest) + TextLength(top.node)
      && (StackShallow(stack) <==> StackShallow(rest) && top.depth - 1 + Depth(top.node) <= MAX_DEPTH)
  {
    var rest := stack[..|stack| - 1];
    assert forall i | 0 <= i < |rest| :: rest[i] == stack[i];
  }

  /** A group is within the limit exactly when its children are, one level down. */
  lemma GroupDepth(node: Node, depth: nat)
    requires node.Group? && 1 <= depth <= MAX_DEPTH
    ensures depth - 1 + Depth(node) <= MAX_DEPTH <==>
      forall i | 0 <= i < |node.children| :: depth + 1 - 1 + Depth(node.children[i]) <= MAX_DEPTH
  {
    DepthOfBound(node.children, MAX_DEPTH - depth);
  }

  /** Lines 72-103. */
  method ValidatePresentation(root: Option<Node>, initialTextLength: nat) returns (error: Option<Error>)
    ensures error.None? <==> WithinLimits(root, initialTextLength)
    ensures error == Some(TooManyNodes) ==> root.Some? && Nodes(root.value) > MAX_NODES
    ensures error == Some(TooDeeplyNested) ==> root.Some? && Depth(root.value) > MAX_DEPTH
    ensures error == Some(TextTooLarge) ==>
      initialTextLength + (if root.Some? then TextLength(root.value) else 0) > MAX_TEXT_LENGTH
  {
    var pending: seq<Pending> := if root.None? then [] else [Pending(root.value, 1)];
    var nodes, textLength := 0, initialTextLength;
    ghost var allNodes := if root.None? then 0 else Nodes(root.value);
    ghost var allText := initialTextLength + if root.None? then 0 else TextLength(root.value);
    ghost var shallow := root.None? || Depth(root.value) <= MAX_DEPTH;
    if textLength > MAX_TEXT_LENGTH { return Some(TextTooLarge); }
    while pending != []
      invariant forall i | 0 <= i < |pending| :: pending[i].depth >= 1
      invariant nodes + StackNodes(pending) == allNodes && nodes <= MAX_NODES
      invariant textLength + StackText(pending) == allText && textLength <= MAX_TEXT_LENGTH
      invariant shallow <==> StackShallow(pending)
      decreases StackNodes(pending)
    {
      Pop(pending);
      var current := pending[|pending| - 1];
      pending := pending[..|pending| - 1];
      nodes := nodes + 1;
      if nodes > MAX_NODES { return Some(TooManyNodes); }
      if current.depth > MAX_DEPTH { return Some(TooDeeplyNested); }
      match current.node {
        case Group(children) =>
          GroupDepth(current.node, current.depth);
          pending := PushChildren(pending, children, current.depth + 1);
        case Text(text) => textLength := textLength + |text|;
        case Badge(text) => textLength := textLength + |text|;
        case Field(name, value) => textLength := textLength + |name| + |value|;
        case Progress(caption) => textLength := textLength + if caption.Some? then |caption.value| else 0;
      }
      if textLength > MAX_TEXT_LENGTH { return Some(TextTooLarge); }
    }
    return None;
  }
}
