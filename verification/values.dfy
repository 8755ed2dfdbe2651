/**
 Shared vocabulary of the model: optional values, results that carry either a
 value or an error, and the cells of a table row as the decision-tree
 evaluator sees them.
 */
module Values {

  /** A value that may be absent. */
  datatype Option<+T> = None | Some(value: T)

  /** Either a computed value or the error the program raises instead. */
  datatype Result<+T, +E> = Ok(value: T) | Err(error: E) {

    predicate IsFailure() {
      Err?
    }

    function PropagateFailure<U>(): Result<U, E>
      requires Err?
    {
      Err(error)
    }

    function Extract(): T
      requires Ok?
    {
      value
    }
  }

  /**
   One cell of a loaded row. After enrichment a row holds Python strings
   (`Str`), numbers (`Num`, both the float and the integer columns) and,
   in the "Trans Date" column, a pandas timestamp (`Stamp`), which is neither
   a string nor comparable with a float. The timestamp is represented by an
   abstract ordering key.
   */
  datatype Value = Str(text: string) | Num(number: real) | Stamp(key: int)

  /** A row addressed by column name, as `data[node.attribute]` reads it. */
  type Record = map<string, Value>

  /** The abstract stand-in for Python's `float(text)`. */
  type NumberParser = string -> Option<real>
}
