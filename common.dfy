/** Values shared by every module of the model. */
module Common {

  /** A value that may be absent (Python's `None`, or an index that does not exist). */
  datatype Option<+T> = None | Some(value: T)

  /** The outcome of an operation that raises in the Python code on bad input. */
  datatype Result<+T, +E> = Ok(value: T) | Err(error: E)

  /** What one `if cond: xs.append(x)` contributes: `[x]` when the rule fires, nothing otherwise. */
  function Opt<T>(fires: bool, x: T): (r: seq<T>)
    ensures |r| <= 1
  {
    if fires then [x] else []
  }

  /** Appending a rule's optional message is appending the message exactly when the rule fires. */
  lemma AppendOpt<T>(s: seq<T>, fires: bool, x: T)
    ensures s + Opt(fires, x) == if fires then s + [x] else s
  {
    if !fires {
      assert s + [] == s;
    }
  }

  /** An element is in a list extended by a rule's optional message when it was already there or is the message the rule added. */
  lemma InAppendOpt<T>(s: seq<T>, fires: bool, x: T, y: T)
    ensures y in s + Opt(fires, x) <==> y in s || (fires && y == x)
  {
    AppendOpt(s, fires, x);
  }
}
