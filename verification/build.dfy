/**
 The build protocol of `DecisionTree._build_tree_recursively` and
 `build_tree` (tree.py), with the dialog answers replaced by a finite script
 read front to back.

 At each node the builder reads an attribute answer. The exact answer
 "result" makes a leaf, whose label is the next answer. Any other answer
 makes a split: a comparison value and a condition follow, then the whole
 left subtree, then the whole right subtree. Every node stores the path it
 was built under.
 */
module Build {
  import opened Values
  import opened Tree

  /** The attribute answer that marks a leaf. */
  const Sentinel: string := "result"

  /** A built subtree together with the answers not yet read. */
  datatype Built = Built(tree: Node, rest: seq<string>)

  /** The path suffix for descending into one side of a split. */
  function Step(attribute: string, condition: string, value: string, side: string): string {
    " -> " + attribute + " " + condition + " " + value + " (" + side + ")"
  }

  function LeftPath(path: string, attribute: string, condition: string, value: string): string {
    path + Step(attribute, condition, value, "left")
  }

  function RightPath(path: string, attribute: string, condition: string, value: string): string {
    path + Step(attribute, condition, value, "right")
  }

  /** The answers, in the order they are asked for, that build `t`. */
  function Script(t: Node): seq<string> {
    match t
    case Leaf(result, _) => [Sentinel, result]
    case Split(attribute, value, condition, left, right, _) =>
      [attribute, value, condition] + Script(left) + Script(right)
  }

  /**
   The trees the builder can produce under `path`: the root carries `path`,
   no split tests the sentinel attribute, and each child carries its
   parent's path extended by the split's left or right step.
   */
  ghost predicate BuiltUnder(t: Node, path: string) {
    match t
    case Leaf(_, p) => p == path
    case Split(attribute, value, condition, left, right, p) =>
      && p == path
      && attribute != Sentinel
      && BuiltUnder(left, LeftPath(path, attribute, condition, value))
      && BuiltUnder(right, RightPath(path, attribute, condition, value))
  }

  /**
   Builds one subtree under `path` from the front of `script`. `None` means
   the script ran out before the subtree was complete (the dialog would
   still be waiting). A successful build has read exactly the answers of
   the tree it returns, and that tree has the shape the protocol promises.
   */
  function BuildFrom(script: seq<string>, path: string): (r: Option<Built>)
    ensures r.Some? ==> script == Script(r.value.tree) + r.value.rest
    ensures r.Some? ==> BuiltUnder(r.value.tree, path)
    ensures r.Some? ==> |r.value.rest| < |script|
    decreases |script|
  {
    if |script| == 0 then None
    else if script[0] == Sentinel then
      if |script| < 2 then None
      else Some(Built(Leaf(script[1], path), script[2..]))
    else if |script| < 3 then None
    else
      var attribute, value, condition := script[0], script[1], script[2];
      match BuildFrom(script[3..], LeftPath(path, attribute, condition, value))
      case None => None
      case Some(l) =>
        match BuildFrom(l.rest, RightPath(path, attribute, condition, value))
        case None => None
        case Some(rt) =>
          Reassemble(script, Script(l.tree), Script(rt.tree), l.rest, rt.rest);
          Some(Built(Split(attribute, value, condition, l.tree, rt.tree, path), rt.rest))
  }

  /** A script split as three answers, a left part, and the rest read by the right subtree. */
  lemma Reassemble(script: seq<string>, left: seq<string>, right: seq<string>, mid: seq<string>, rest: seq<string>)
    requires |script| >= 3 && script[3..] == left + mid && mid == right + rest
    ensures script == [script[0], script[1], script[2]] + left + right + rest
  {
    assert script == script[..3] + script[3..];
    assert script[..3] == [script[0], script[1], script[2]];
  }

  /** `build_tree`: the root is built under the empty path. */
  function BuildTree(script: seq<string>): (r: Option<Built>)
    ensures r.Some? ==> r.value.tree.path == ""
    ensures r.Some? ==> BuiltUnder(r.value.tree, "")
    ensures r.Some? ==> script == Script(r.value.tree) + r.value.rest
  {
    BuildFrom(script, "")
  }

  /**
   Round trip: building from the answer script of any tree the builder can
   produce gives back that very tree and leaves the following answers
   unread.
   */
  lemma {:induction false} BuildFromScript(t: Node, rest: seq<string>)
    requires BuiltUnder(t, t.path)
    ensures BuildFrom(Script(t) + rest, t.path) == Some(Built(t, rest))
  {
    match t
    case Leaf(result, path) =>
      assert (Script(t) + rest)[2..] == rest;
    case Split(attribute, value, condition, left, right, path) =>
      var script := Script(t) + rest;
      assert script[0] == attribute && script[1] == value && script[2] == condition;
      assert script[3..] == Script(left) + (Script(right) + rest);
      BuildFromScript(left, Script(right) + rest);
      assert BuildFrom(script[3..], LeftPath(path, attribute, condition, value)) == Some(Built(left, Script(right) + rest));
      BuildFromScript(right, rest);
      assert BuildFrom(Script(right) + rest, RightPath(path, attribute, condition, value)) == Some(Built(right, rest));
  }

  /** Round trip at the root: `build_tree` reproduces any tree it can build. */
  lemma BuildTreeScript(t: Node)
    requires BuiltUnder(t, "")
    ensures BuildTree(Script(t)) == Some(Built(t, []))
  {
    assert Script(t) + [] == Script(t);
    BuildFromScript(t, []);
  }

  function LeafCount(t: Node): nat {
    match t
    case Leaf(_, _) => 1
    case Split(_, _, _, left, right, _) => LeafCount(left) + LeafCount(right)
  }

  function SplitCount(t: Node): nat {
    match t
    case Leaf(_, _) => 0
    case Split(_, _, _, left, right, _) => 1 + SplitCount(left) + SplitCount(right)
  }

  /** Every split has both children, so a tree has one more leaf than splits. */
  lemma {:induction false} LeavesOutnumberSplits(t: Node)
    ensures LeafCount(t) == SplitCount(t) + 1
  {
    match t
    case Leaf(_, _) =>
    case Split(_, _, _, left, right, _) =>
      LeavesOutnumberSplits(left);
      LeavesOutnumberSplits(right);
  }

  /** A leaf consumes two answers and a split three, plus its children's. */
  lemma {:induction false} ScriptLength(t: Node)
    ensures |Script(t)| == 2 * LeafCount(t) + 3 * SplitCount(t)
  {
    match t
    case Leaf(_, _) =>
    case Split(_, _, _, left, right, _) =>
      ScriptLength(left);
      ScriptLength(right);
  }

  /**
   The number of answers a successful build reads is fixed by the shape of
   the tree it returns.
   */
  lemma BuildConsumption(script: seq<string>, path: string)
    requires BuildFrom(script, path).Some?
    ensures |script| - |BuildFrom(script, path).value.rest|
         == 2 * LeafCount(BuildFrom(script, path).value.tree) + 3 * SplitCount(BuildFrom(script, path).value.tree)
  {
    ScriptLength(BuildFrom(script, path).value.tree);
  }
}
