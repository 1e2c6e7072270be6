/** Fixed-width integers, an optional value and the status codes shared by
    every component of the model. */
module Base {

  /** The source's uint32_t, uint16_t and std::byte. */
  type u32 = x: nat | x < 0x1_0000_0000
  type u16 = x: nat | x < 0x1_0000
  type byte = bv8

  datatype Option<T> = None | Some(value: T)

  /** The status codes a call can report, with their canonical numbers. */
  datatype Status =
    | Ok | Cancelled | Unknown | InvalidArgument | DeadlineExceeded | NotFound
    | AlreadyExists | PermissionDenied | ResourceExhausted | FailedPrecondition
    | Aborted | OutOfRange | Unimplemented | Internal | Unavailable | DataLoss
    | Unauthenticated
  {
    function Code(): (c: nat)
      ensures c <= 16
      ensures c == 0 <==> this == Ok
    {
      match this
      case Ok => 0
      case Cancelled => 1
      case Unknown => 2
      case InvalidArgument => 3
      case DeadlineExceeded => 4
      case NotFound => 5
      case AlreadyExists => 6
      case PermissionDenied => 7
      case ResourceExhausted => 8
      case FailedPrecondition => 9
      case Aborted => 10
      case OutOfRange => 11
      case Unimplemented => 12
      case Internal => 13
      case Unavailable => 14
      case DataLoss => 15
      case Unauthenticated => 16
    }
  }

  /** A sequence of n zero bytes: what memset(…, 0, n) leaves behind. */
  function Zeros(n: nat): (z: seq<byte>)
    ensures |z| == n && forall i :: 0 <= i < n ==> z[i] == 0
  {
    seq(n, _ => 0)
  }
}
