/** The FFI status codes shared by both custody cores and the result types built on them. */
module Statuses {

  datatype Option<+T> = None | Some(value: T)

  datatype Status =
    | Unspecified
    | Success
    | InternalError
    | InvalidArgument
    | NotFound
    | AlreadyExists
    | PermissionDenied
    | Unauthenticated
    | UnsupportedAlgorithm
    | InvalidKey
    | CryptoError
    | DecryptionFailure
    | EncryptionFailure
    | DecapsulationFailure

  /** The protobuf enum number of a status. */
  function Code(s: Status): nat {
    match s
    case Unspecified => 0
    case Success => 1
    case InternalError => 2
    case InvalidArgument => 3
    case NotFound => 4
    case AlreadyExists => 5
    case PermissionDenied => 6
    case Unauthenticated => 7
    case UnsupportedAlgorithm => 8
    case InvalidKey => 9
    case CryptoError => 10
    case DecryptionFailure => 11
    case EncryptionFailure => 12
    case DecapsulationFailure => 13
  }

  /** The status of an enum number; None for a number without a name. */
  function FromCode(n: int): Option<Status> {
    match n
    case 0 => Some(Unspecified)
    case 1 => Some(Success)
    case 2 => Some(InternalError)
    case 3 => Some(InvalidArgument)
    case 4 => Some(NotFound)
    case 5 => Some(AlreadyExists)
    case 6 => Some(PermissionDenied)
    case 7 => Some(Unauthenticated)
    case 8 => Some(UnsupportedAlgorithm)
    case 9 => Some(InvalidKey)
    case 10 => Some(CryptoError)
    case 11 => Some(DecryptionFailure)
    case 12 => Some(EncryptionFailure)
    case 13 => Some(DecapsulationFailure)
    case _ => None
  }

  datatype Result<+T> = Ok(value: T) | Err(status: Status) {
    predicate IsFailure() { Err? }

    function PropagateFailure<U>(): Result<U>
      requires Err?
    {
      Err(status)
    }

    function Extract(): T
      requires Ok?
    {
      value
    }
  }
}
