/**
 * Values shared by every part of the model: Go's nil-able pointer and the
 * error value of the service.
 */
module Common {

  /** A Go pointer that may be nil. */
  datatype Option<+T> = None | Some(value: T)

  /** One leaf error. `UnexpectedStatus` is the one the client builds itself
      ("unexpected status code: %d"); every other error comes from a foreign
      call (transport, JSON decoding, integer parsing) and is opaque here. */
  datatype Error = UnexpectedStatus(code: int) | Failed(message: string)

  /** A Go `error` as go.uber.org/multierr sees it: the list of leaf errors it
      combines. The empty list is `nil`. */
  type Errs = seq<Error>

  /** multierr.Append: nil is the identity and nested combinations flatten. */
  function Append(agg: Errs, err: Errs): (r: Errs)
    ensures r == [] <==> agg == [] && err == []
    ensures |r| == |agg| + |err|
    ensures multiset(r) == multiset(agg) + multiset(err)
  {
    agg + err
  }
}
