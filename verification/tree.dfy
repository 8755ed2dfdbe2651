/**
 The decision-tree node and its evaluator (class `Node` and
 `DecisionTree._predict_recursively` in tree.py).

 A node is either a leaf that carries a classification result or a split
 that compares one attribute of the record against a value under a
 condition. Evaluation takes the left child only when the condition holds;
 every other outcome that does not raise goes to the right child.
 */
module Tree {
  import opened Values

  /**
   A node of the tree. Every node remembers the build path it was created
   under; the path is only ever displayed, never consulted by evaluation.
   */
  datatype Node =
    | Leaf(result: string, path: string)
    | Split(attribute: string, value: string, condition: string, left: Node, right: Node, path: string)
  {
    /** A node is a leaf exactly when it carries a result. */
    predicate IsLeaf() {
      Leaf?
    }
  }

  /** The child a split sends a record to. */
  datatype Branch = GoLeft | GoRight

  /** The Python exceptions evaluation can raise. */
  datatype PredictError =
    | KeyError(attribute: string)   // the record has no such column
    | TypeError(attribute: string)  // a non-number compared with `>=` or `<=`
    | ValueError(text: string)      // `float(node.value)` cannot parse the split value

  /** The two conditions that compare numerically. */
  predicate IsBound(condition: string) {
    condition == ">=" || condition == "<="
  }

  /** The classification labels of all leaves of `node`. */
  function Labels(node: Node): set<string> {
    match node
    case Leaf(result, _) => {result}
    case Split(_, _, _, left, right, _) => Labels(left) + Labels(right)
  }

  /** The attributes tested by the splits of `node`. */
  function Attributes(node: Node): set<string> {
    match node
    case Leaf(_, _) => {}
    case Split(attribute, _, _, left, right, _) => {attribute} + Attributes(left) + Attributes(right)
  }

  /** The comparison values held by the splits of `node`. */
  function Operands(node: Node): set<string> {
    match node
    case Leaf(_, _) => {}
    case Split(_, value, _, left, right, _) => {value} + Operands(left) + Operands(right)
  }

  /**
   The three ways a split sends a record to the left: an exact string match
   under "==", or an inclusive numeric bound under ">=" or "<=".
   */
  ghost predicate GoesLeft(condition: string, value: string, cell: Value, parseNum: NumberParser) {
    || (condition == "==" && cell == Str(value))
    || (condition == ">=" && cell.Num? && parseNum(value).Some? && cell.number >= parseNum(value).value)
    || (condition == "<=" && cell.Num? && parseNum(value).Some? && cell.number <= parseNum(value).value)
  }

  /** The cases in which examining a split raises instead of choosing a child. */
  ghost predicate Raises(attribute: string, condition: string, value: string, data: Record, parseNum: NumberParser) {
    || attribute !in data
    || (IsBound(condition) && (parseNum(value).None? || !data[attribute].Num?))
  }

  /** Does error `e` name something that occurs in a split of `node`? */
  ghost predicate Blames(node: Node, e: PredictError) {
    match e
    case KeyError(a) => a in Attributes(node)
    case TypeError(a) => a in Attributes(node)
    case ValueError(v) => v in Operands(node)
  }

  /**
   The branch chosen by one split, following the order in which Python
   evaluates the `if`/`elif` chain: the record lookup first, then for a
   numeric condition `float(node.value)`, then the comparison itself.
   */
  function Route(attribute: string, condition: string, value: string, data: Record, parseNum: NumberParser): (r: Result<Branch, PredictError>)
    ensures r.Err? <==> Raises(attribute, condition, value, data, parseNum)
    ensures r == Ok(GoLeft) <==> attribute in data && GoesLeft(condition, value, data[attribute], parseNum)
    ensures r.Err? && attribute !in data ==> r.error == KeyError(attribute)
    ensures r.Err? && attribute in data && parseNum(value).None? ==> r.error == ValueError(value)
    ensures r.Err? && attribute in data && parseNum(value).Some? ==> r.error == TypeError(attribute)
  {
    if attribute !in data then Err(KeyError(attribute))
    else
      var cell := data[attribute];
      if condition == "==" && cell.Str? && cell.text == value then Ok(GoLeft)
      else if condition == ">=" then
        match parseNum(value)
        case None => Err(ValueError(value))
        case Some(bound) =>
          if !cell.Num? then Err(TypeError(attribute))
          else if cell.number >= bound then Ok(GoLeft) else Ok(GoRight)
      else if condition == "<=" then
        match parseNum(value)
        case None => Err(ValueError(value))
        case Some(bound) =>
          if !cell.Num? then Err(TypeError(attribute))
          else if cell.number <= bound then Ok(GoLeft) else Ok(GoRight)
      else Ok(GoRight)
  }

  /**
   Evaluates `node` on one record. A leaf answers with its result whatever
   the record holds; a successful answer is always the label of some leaf;
   an error always names an attribute or value that some split holds.
   */
  function Predict(node: Node, data: Record, parseNum: NumberParser): (r: Result<string, PredictError>)
    ensures node.IsLeaf() ==> r == Ok(node.result)
    ensures r.Ok? ==> r.value in Labels(node)
    ensures r.Err? ==> Blames(node, r.error)
  {
    match node
    case Leaf(result, _) => Ok(result)
    case Split(attribute, value, condition, left, right, _) =>
      match Route(attribute, condition, value, data, parseNum)
      case Err(e) => Err(e)
      case Ok(GoLeft) => Predict(left, data, parseNum)
      case Ok(GoRight) => Predict(right, data, parseNum)
  }

  /**
   A record is safe for `node` when no split of `node` can raise on it:
   every tested attribute is present, and every numeric condition has a
   parseable value and a numeric cell.
   */
  ghost predicate Safe(node: Node, data: Record, parseNum: NumberParser) {
    match node
    case Leaf(_, _) => true
    case Split(attribute, value, condition, left, right, _) =>
      && !Raises(attribute, condition, value, data, parseNum)
      && Safe(left, data, parseNum)
      && Safe(right, data, parseNum)
  }

  /** Evaluation never raises on a record that is safe for the tree. */
  lemma {:induction false} SafePredictSucceeds(node: Node, data: Record, parseNum: NumberParser)
    requires Safe(node, data, parseNum)
    ensures Predict(node, data, parseNum).Ok?
  {
    match node
    case Leaf(_, _) =>
    case Split(_, _, _, left, right, _) =>
      SafePredictSucceeds(left, data, parseNum);
      SafePredictSucceeds(right, data, parseNum);
  }

  /**
   Evaluation reads a record only through the attributes the tree's splits
   test: two records that agree on those columns get the same answer.
   */
  lemma {:induction false} PredictReadsOnlyTestedAttributes(node: Node, d1: Record, d2: Record, parseNum: NumberParser)
    requires forall a :: a in Attributes(node) ==> (a in d1 <==> a in d2)
    requires forall a :: a in Attributes(node) && a in d1 ==> d1[a] == d2[a]
    ensures Predict(node, d1, parseNum) == Predict(node, d2, parseNum)
  {
    match node
    case Leaf(_, _) =>
    case Split(attribute, value, condition, left, right, _) =>
      assert Route(attribute, condition, value, d1, parseNum) == Route(attribute, condition, value, d2, parseNum);
      PredictReadsOnlyTestedAttributes(left, d1, d2, parseNum);
      PredictReadsOnlyTestedAttributes(right, d1, d2, parseNum);
  }
}
