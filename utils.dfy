/** The reply envelope of src/utils.ts: every value the handler hands back
    to its caller is wrapped as `{ success, data }`. */
module Utils {

  datatype Envelope<+T> = Envelope(success: bool, data: T)

  /** `success(data)` */
  function Success<T>(data: T): (e: Envelope<T>)
    ensures e.success && e.data == data
  {
    Envelope(true, data)
  }

  /** `error(data)` */
  function Error<T>(data: T): (e: Envelope<T>)
    ensures !e.success && e.data == data
  {
    Envelope(false, data)
  }

  /** The flag alone tells the two envelopes apart, and neither constructor
      loses its payload. */
  lemma EnvelopesDistinguishable<T>(a: T, b: T)
    ensures Success(a) != Error(b)
    ensures Success(a) == Success(b) <==> a == b
    ensures Error(a) == Error(b) <==> a == b
  {
  }
}
