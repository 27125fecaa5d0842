/**
 * The typed spans the tree builder produces (Node.kt). Every variant but
 * `EofNode` carries the exact substring it covers; `EofNode` is a single value
 * with no payload, so all its occurrences are equal.
 */
module Nodes {

  datatype Node =
    | TextNode(value: string)
    | UrlNode(value: string)
    | CashNode(value: string)
    | UserNode(value: string)
    | ChannelNode(value: string)
    | CustomUserNode(value: string)
    | EofNode
    | HashTagNode(value: string)

  /** The text a node spans; `EofNode` spans nothing. */
  function NodeText(n: Node): string
  {
    if n.EofNode? then "" else n.value
  }

  /** The node texts concatenated in order. */
  function Flatten(nodes: seq<Node>): string
    decreases |nodes|
  {
    if nodes == [] then "" else NodeText(nodes[0]) + Flatten(nodes[1..])
  }

  /** The concatenation is empty exactly when every node's text is. */
  lemma {:induction false} FlattenEmpty(nodes: seq<Node>)
    ensures Flatten(nodes) == "" <==> forall n :: n in nodes ==> NodeText(n) == ""
    decreases |nodes|
  {
    if nodes != [] {
      FlattenEmpty(nodes[1..]);
      assert forall n :: n in nodes <==> n == nodes[0] || n in nodes[1..];
    }
  }

  lemma {:induction false} FlattenAppend(a: seq<Node>, b: seq<Node>)
    ensures Flatten(a + b) == Flatten(a) + Flatten(b)
    decreases |a|
  {
    if a == [] {
      assert a + b == b;
    } else {
      assert (a + b)[1..] == a[1..] + b;
      FlattenAppend(a[1..], b);
    }
  }
}
