/** agreements/domain/state_machine.py: the agreement's status graph. */
module Lifecycle {
  import opened Wrappers

  datatype Status = Draft | PendingConsent | Active | Sealed | ReopenRequested | Closed | Archived | Expired

  datatype Move =
    | AddPartyMove | RequestConsentMove | AllConsentedMove | SealMove | CloseMove | ReopenMove
    | RequestReopenMove | BilateralConfirmMove | CancelReopenMove | ArchiveMove | ExpireMove

  /** The transition table and next_state's lookup in it; None is its DomainError. */
  function NextState(current: Status, move: Move): Option<Status> {
    match (current, move)
    case (Draft, AddPartyMove) => Some(Draft)
    case (Draft, RequestConsentMove) => Some(PendingConsent)
    case (PendingConsent, AllConsentedMove) => Some(Active)
    case (PendingConsent, SealMove) => Some(Sealed)
    case (Active, RequestConsentMove) => Some(PendingConsent)
    case (Active, SealMove) => Some(Sealed)
    case (Sealed, CloseMove) => Some(Closed)
    case (Sealed, ReopenMove) => Some(Active)
    case (Sealed, RequestReopenMove) => Some(ReopenRequested)
    case (ReopenRequested, BilateralConfirmMove) => Some(Active)
    case (ReopenRequested, CancelReopenMove) => Some(Sealed)
    case (Sealed, ArchiveMove) => Some(Archived)
    case (Closed, ArchiveMove) => Some(Archived)
    case (Sealed, ExpireMove) => Some(Expired)
    case _ => None
  }
}
