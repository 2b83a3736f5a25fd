/** Option and Result, with the members that let Result be used with `:-`. */
module Wrappers {
  datatype Option<+T> = None | Some(value: T)

  datatype Result<+T, +E> = Ok(value: T) | Err(error: E) {
    predicate IsFailure() { Err? }

    function PropagateFailure<U>(): Result<U, E>
      requires Err?
    {
      Err(error)
    }

    function Extract(): T
      requires Ok?
    {
      value
    }
  }
}

/** The ways a sample request fails in the original program, named by cause. */
module Failures {
  import opened Wrappers

  datatype Failure =
    | IndexOutOfRange     // a list subscript outside the list
    | MissingKey          // a dictionary lookup of an absent key
    | EmptyPadInput       // pad_sequence given no sequences
    | EmptyStackInput     // torch.stack given no tensors
    | RaggedStackInput    // torch.stack given tensors of different lengths
    | NonNumericSpeaker   // a speaker label that is not a number reaches a float tensor

  /** Python list subscript `s[i]`: a negative `i` counts from the end. */
  function At<T>(s: seq<T>, i: int): (r: Result<T, Failure>)
    ensures r.Ok? <==> -|s| <= i < |s|
    ensures r.Ok? ==> r.value == s[if i < 0 then i + |s| else i]
    ensures r.Err? ==> r.error == IndexOutOfRange
  {
    if 0 <= i < |s| then Ok(s[i])
    else if -|s| <= i < 0 then Ok(s[i + |s|])
    else Err(IndexOutOfRange)
  }
}
