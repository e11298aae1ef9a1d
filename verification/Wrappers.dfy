/** Option and Result values, and the error kinds that the callers of the modelled code can tell apart. */
module Wrappers {

  datatype Option<+T> = None | Some(value: T)

  datatype Error =
    | InvalidConfig
    | InvalidTensor
    | Inference
    | Tokenizer
    | Cancelled
    | Power

  datatype Result<+T> = Ok(value: T) | Err(error: Error) {
    predicate IsFailure() {
      Err?
    }

    function PropagateFailure<U>(): Result<U>
      requires Err?
    {
      Err(error)
    }

    function Extract(): T
      requires Ok?
    {
      value
    }
  }

  /** Appends the pieces of a stream in order. */
  function Flatten<T>(pieces: seq<seq<T>>): seq<T> {
    if pieces == [] then [] else pieces[0] + Flatten(pieces[1..])
  }

  lemma {:induction false} SliceOfSlice<T>(s: seq<T>, a: nat, b: nat, c: nat, d: nat)
    requires a <= b <= |s| && c <= d <= b - a
    ensures s[a..b][c..d] == s[a + c..a + d]
  {
    forall i | 0 <= i < d - c
      ensures s[a..b][c..d][i] == s[a + c..a + d][i]
    {
      assert s[a..b][c..d][i] == s[a..b][c + i];
    }
  }
}
