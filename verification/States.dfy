/** The states a host's peer goes through. */
module States {
  datatype State =
    | Disconnected | Connecting | AcknowledgingConnect | ConnectionPending | ConnectionSucceeded
    | Connected | DisconnectLater | Disconnecting | AcknowledgingDisconnect | Zombie
  {
    /** Passes over the peers leave it out. */
    predicate IsAbsent() { Disconnected? || Zombie? }

    /** The caller hears of a lost connection at once, if it wants to. */
    predicate Tells(event: bool) { event && !(Disconnected? || AcknowledgingConnect? || ConnectionPending?) }

    /** What a lost connection leads to: the peer is reset, unless the application has yet to hear
        of the loss. `event` says that it hears at once. */
    function Lost(event: bool): State {
      if event || Disconnected? || AcknowledgingConnect? || ConnectionPending? then Disconnected else Zombie
    }
  }
}
