/**
 Batch prediction (`predict_gui` in tree.py): two guards, then the tree is
 evaluated on every row of the table in iteration order.
 */
module Batch {
  import opened Values
  import opened Tree

  /** A table row: its pandas index label and its cells. */
  datatype Row = Row(index: int, fields: Record)

  /** One entry of the results list: the row's index label and its label. */
  datatype Prediction = Prediction(index: int, prediction: string)

  datatype BatchError =
    | EmptyTable                                    // "Please load a CSV file first."
    | NoTree                                        // "Please build the decision tree first."
    | RowFailed(position: nat, error: PredictError) // evaluation raised on this row

  /**
   Guards first (an empty table, then a missing root), then one prediction
   per row in order. An exception on any row ends the whole batch, so the
   batch succeeds exactly when every row evaluates.
   */
  method PredictAll(rows: seq<Row>, root: Option<Node>, parseNum: NumberParser) returns (r: Result<seq<Prediction>, BatchError>)
    ensures r == Err(EmptyTable) <==> |rows| == 0
    ensures r == Err(NoTree) <==> |rows| > 0 && root.None?
    ensures r.Ok? <==> |rows| > 0 && root.Some? && forall i :: 0 <= i < |rows| ==> Predict(root.value, rows[i].fields, parseNum).Ok?
    ensures r.Ok? ==> |r.value| == |rows|
    ensures r.Ok? ==> forall i :: 0 <= i < |rows| ==>
                        r.value[i] == Prediction(rows[i].index, Predict(root.value, rows[i].fields, parseNum).value)
    ensures r.Err? && r.error.RowFailed? ==>
              && root.Some?
              && r.error.position < |rows|
              && Predict(root.value, rows[r.error.position].fields, parseNum) == Err(r.error.error)
              && forall i :: 0 <= i < r.error.position ==> Predict(root.value, rows[i].fields, parseNum).Ok?
  {
    if |rows| == 0 {
      return Err(EmptyTable);
    }
    if root.None? {
      return Err(NoTree);
    }
    var tree := root.value;
    var results: seq<Prediction> := [];
    var i := 0;
    while i < |rows|
      invariant 0 <= i <= |rows|
      invariant |results| == i
      invariant forall k :: 0 <= k < i ==> Predict(tree, rows[k].fields, parseNum).Ok?
      invariant forall k :: 0 <= k < i ==>
                  results[k] == Prediction(rows[k].index, Predict(tree, rows[k].fields, parseNum).value)
    {
      var outcome := Predict(tree, rows[i].fields, parseNum);
      if outcome.Err? {
        return Err(RowFailed(i, outcome.error));
      }
      results := results + [Prediction(rows[i].index, outcome.value)];
      i := i + 1;
    }
    return Ok(results);
  }
}
