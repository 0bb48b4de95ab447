/** The revert reasons of the treasury rebalance contract, and the result types
    its operations return. A failing call reverts, so every operation that
    returns an error leaves the contract's state as it was. */
module Errors {

  /** One constructor per revert string. */
  datatype Error =
    | NotOwner
    | NotAllowedAtStage
    | InvalidAddress
    | SenderAlreadyRegistered
    | SenderDoesNotExist
    | ReceiverAlreadyRegistered
    | ReceiverDoesNotExist
    | ZeroAmount
    | SenderNotRegistered
    | SenderNotCaller
    | CallFailed
    | EmptyAdminList
    | CallerNotAdmin
    | DuplicateApprover
    | QuorumNotReached
    | InsufficientFunds
    | ResetNotAllowed
    | PaymentsNotAccepted

  /** The revert message the contract reports for each error. */
  function Message(e: Error): string
  {
    match e
    case NotOwner => "Ownable: caller is not the owner"
    case NotAllowedAtStage => "function not allowed at this stage"
    case InvalidAddress => "Invalid address"
    case SenderAlreadyRegistered => "Sender is already registered"
    case SenderDoesNotExist => "Sender does not exist"
    case ReceiverAlreadyRegistered => "Receiver is already registered"
    case ReceiverDoesNotExist => "Receiver does not exist"
    case ZeroAmount => "Amount cannot be set to 0"
    case SenderNotRegistered => "sender needs to be registered before approval"
    case SenderNotCaller => "senderAddress is not the msg.sender"
    case CallFailed => "call failed"
    case EmptyAdminList => "admin list cannot be empty"
    case CallerNotAdmin => "msg.sender is not the admin"
    case DuplicateApprover => "Duplicate approvers cannot be allowed"
    case QuorumNotReached => "min required admins should approve"
    case InsufficientFunds => "treasury amount should be less than the sum of all sender address balances"
    case ResetNotAllowed => "Contract is finalized, cannot reset values"
    case PaymentsNotAccepted => "This contract does not accept any payments"
  }

  /** The result of a call that returns nothing: it either goes through or reverts. */
  datatype Outcome = Pass | Fail(error: Error)

  /** The result of a call that returns a value or reverts. */
  datatype Result<+T> = Ok(value: T) | Err(error: Error)
}
