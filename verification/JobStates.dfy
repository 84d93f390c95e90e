/** Job states and the canonical transition table shared by every component
    that moves a print job. */
module JobStates {

  /** `CloudAcceptPending` is a state of the local store only: the engine's own
      state parser does not know it, and the transition table never mentions it. */
  datatype JobState =
    | Registered | ContentPending | WaitingForAgent | AgentDownloading | AgentAccepted
    | CloudAcceptPending
    | QueuedLocal | Preparing | Rendering | SpoolIntent
    | AcceptedBySpooler | Spooling | Printing | Blocked
    | CompletedReported | DeliveryUncertain | CancelRequested | Cancelled
    | Expired | FailedRetryable | FailedTerminal

  predicate IsTerminal(s: JobState) {
    s.CompletedReported? || s.DeliveryUncertain? || s.Cancelled? || s.Expired? || s.FailedTerminal?
  }

  /** The canonical state machine. */
  predicate CanTransition(from: JobState, to: JobState) {
    match from
    case Registered =>
      to.ContentPending? || to.WaitingForAgent? || to.CancelRequested? || to.Expired?
    case ContentPending =>
      to.WaitingForAgent? || to.CancelRequested? || to.Expired? || to.FailedTerminal?
    case WaitingForAgent =>
      to.AgentDownloading? || to.CancelRequested? || to.Expired? || to.FailedRetryable?
    case AgentDownloading =>
      to.AgentAccepted? || to.WaitingForAgent? ||
      to.CancelRequested? || to.Expired? || to.FailedRetryable?
    case AgentAccepted =>
      to.QueuedLocal? || to.CancelRequested? || to.FailedRetryable?
    case QueuedLocal =>
      to.Preparing? || to.CancelRequested? || to.Blocked? || to.Expired? || to.FailedRetryable?
    case Preparing =>
      to.Rendering? || to.SpoolIntent? ||
      to.CancelRequested? || to.FailedRetryable? || to.FailedTerminal?
    case Rendering =>
      to.SpoolIntent? || to.CancelRequested? || to.FailedRetryable? || to.FailedTerminal?
    case SpoolIntent =>
      to.AcceptedBySpooler? || to.DeliveryUncertain? || to.FailedRetryable? || to.FailedTerminal?
    case AcceptedBySpooler =>
      to.Spooling? || to.Printing? || to.CompletedReported? ||
      to.Blocked? || to.DeliveryUncertain? || to.Cancelled? || to.FailedTerminal?
    case Spooling =>
      to.Printing? || to.CompletedReported? || to.Blocked? ||
      to.DeliveryUncertain? || to.Cancelled? || to.FailedTerminal?
    case Printing =>
      to.CompletedReported? || to.Blocked? ||
      to.DeliveryUncertain? || to.Cancelled? || to.FailedTerminal?
    case Blocked =>
      to.Spooling? || to.Printing? || to.CompletedReported? ||
      to.CancelRequested? || to.Cancelled? || to.FailedRetryable? || to.FailedTerminal?
    case CancelRequested =>
      to.Cancelled? || to.DeliveryUncertain? || to.CompletedReported?
    case FailedRetryable =>
      to.WaitingForAgent? || to.QueuedLocal? || to.CancelRequested? || to.Expired?
    case _ => false
  }

  /** The table by its columns: where each state can be entered from. */
  lemma EnteredFrom(from: JobState, to: JobState)
    ensures CanTransition(from, to) <==>
      match to
      case ContentPending => from == Registered
      case WaitingForAgent => from in {Registered, ContentPending, AgentDownloading, FailedRetryable}
      case AgentDownloading => from == WaitingForAgent
      case AgentAccepted => from == AgentDownloading
      case QueuedLocal => from in {AgentAccepted, FailedRetryable}
      case Preparing => from == QueuedLocal
      case Rendering => from == Preparing
      case SpoolIntent => from in {Preparing, Rendering}
      case AcceptedBySpooler => from == SpoolIntent
      case Spooling => from in {AcceptedBySpooler, Blocked}
      case Printing => from in {AcceptedBySpooler, Spooling, Blocked}
      case Blocked => from in {QueuedLocal, AcceptedBySpooler, Spooling, Printing}
      case CompletedReported => InSpooler(from) || from == CancelRequested
      case DeliveryUncertain => from in {SpoolIntent, AcceptedBySpooler, Spooling, Printing, CancelRequested}
      case Cancelled => InSpooler(from) || from == CancelRequested
      case FailedTerminal => InSpooler(from) || from in {ContentPending, Preparing, Rendering, SpoolIntent}
      case CancelRequested =>
        from in {Registered, ContentPending, WaitingForAgent, AgentDownloading, AgentAccepted, QueuedLocal, Preparing,
                 Rendering, Blocked, FailedRetryable}
      case Expired => from in {Registered, ContentPending, WaitingForAgent, AgentDownloading, QueuedLocal,
                               FailedRetryable}
      case FailedRetryable => from in {WaitingForAgent, AgentDownloading, AgentAccepted, QueuedLocal, Preparing,
                                       Rendering, SpoolIntent, Blocked}
      case _ => false
  {
  }

  /** The next state on the way to paper. */
  function Onward(s: JobState): JobState {
    match s
    case Registered => ContentPending
    case ContentPending => WaitingForAgent
    case WaitingForAgent => AgentDownloading
    case AgentDownloading => AgentAccepted
    case AgentAccepted => QueuedLocal
    case QueuedLocal => Preparing
    case Preparing => SpoolIntent
    case Rendering => SpoolIntent
    case SpoolIntent => AcceptedBySpooler
    case AcceptedBySpooler => Spooling
    case Spooling => Printing
    case Blocked => Spooling
    case FailedRetryable => QueuedLocal
    case _ => CompletedReported
  }

  lemma OnwardIsAllowed(s: JobState)
    requires s != CloudAcceptPending && !IsTerminal(s)
    ensures CanTransition(s, Onward(s))
  {
  }

  lemma NothingAfterTerminal(s: JobState, to: JobState)
    requires IsTerminal(s)
    ensures !CanTransition(s, to)
  {
  }

  /** A canonical state is terminal exactly when nothing follows it. */
  lemma TerminalIffStuck(s: JobState)
    requires s != CloudAcceptPending
    ensures IsTerminal(s) <==> forall to :: !CanTransition(s, to)
  {
    hide CanTransition, IsTerminal, Onward;
    if IsTerminal(s) {
      forall to ensures !CanTransition(s, to) { NothingAfterTerminal(s, to); }
    } else {
      OnwardIsAllowed(s);
    }
  }

  /** States in which the operating system owns the job. */
  predicate InSpooler(s: JobState) {
    s.AcceptedBySpooler? || s.Spooling? || s.Printing? || s.Blocked?
  }

  /** States that withhold a printer from the next job. `Blocked` is not one of them. */
  predicate HoldsPrinter(s: JobState) {
    s.Preparing? || s.Rendering? || s.SpoolIntent? || s.AcceptedBySpooler? || s.Spooling? || s.Printing?
  }
}
