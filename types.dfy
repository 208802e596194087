/** Values exchanged between the connection manager, its transport and the status-change callback. */
module ConnectionTypes {

  datatype Option<+T> = None | Some(value: T)

  /** The manager's own tri-state connection status. */
  datatype ConnectionStatus = Disconnected | Connecting | Connected

  /** The status the transport reports to the status-change callback (IotHubConnectionStatus). */
  datatype HubStatus = HubDisconnected | HubDisconnectedRetrying | HubConnected

  /** The reason the transport gives with a status change (IotHubConnectionStatusChangeReason). */
  datatype ChangeReason =
    | ExpiredSasToken
    | BadCredential
    | RetryExpired
    | NoNetwork
    | CommunicationError
    | ConnectionOk
    | ClientClose

  /** The class of a non-null throwable handed to the status-change callback. */
  datatype ThrowableKind =
    | OperationTimeout   // a DeviceOperationTimeoutException (or a subclass of it)
    | OtherThrowable

  /** The cause attached to an exception that openClient throws. */
  datatype Cause =
    | NoCause                          // getCause() is null
    | TransportCause(retryable: bool)  // a TransportException, with its isRetryable() flag
    | OtherCause                       // any other throwable

  /**
   * An exception thrown by openClient: `checked` is true for an IOException,
   * false for an unchecked (runtime) exception.
   */
  datatype Failure = Failure(checked: bool, cause: Cause)

  /** The scripted result of one openClient call. */
  datatype OpenOutcome = Opened | OpenFailed(failure: Failure)

  /** The scripted result of one closeClient call: `checked` as for Failure. */
  datatype CloseOutcome = Closed | CloseFailed(checked: bool)

  /** A failure the connect loop retries: its cause is a TransportException that is retryable. */
  predicate IsRetryable(f: Failure) {
    f.cause.TransportCause? && f.cause.retryable
  }

  /** An openClient call that failed with a retryable failure. */
  predicate Retried(o: OpenOutcome) {
    o.OpenFailed? && IsRetryable(o.failure)
  }
}
