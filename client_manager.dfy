/**
 * The connection-lifecycle manager (ClientManagerBase): one mutable status, driven by open,
 * closeNow and the transport's status-change callback. The transport calls it makes
 * (openClient, closeClient) and the dependency tracker it polls are given as scripted
 * outcomes; the recovery body that the source starts on a new thread runs synchronously.
 */
module ClientManager {
  import opened ConnectionTypes
  import opened ConnectLoop

  /**
   * What a status-change report set off: nothing, or one run of the recovery body: the outcome
   * of its closeClient call (whatever it threw is caught), the run of the connect loop that
   * followed, and the failure, if any, that the recovery thread does not catch.
   */
  datatype Recovery =
    | NotStarted
    | Ran(loop: LoopEnd, close: CloseOutcome, escaped: Option<Failure>)

  /**
   * The recoverability policy of the status-change callback: the transport reports DISCONNECTED
   * because its retry budget ran out (RETRY_EXPIRED) and the throwable it passes is a
   * DeviceOperationTimeoutException. A missing (null) throwable is never an instance of it.
   */
  function ShouldDeviceReconnect(status: HubStatus, reason: ChangeReason, throwable: Option<ThrowableKind>): (b: bool)
    ensures b <==> status == HubDisconnected && reason == RetryExpired && throwable == Some(OperationTimeout)
    ensures throwable == None ==> !b
  {
    status == HubDisconnected && reason == RetryExpired && IsInstanceOf(throwable, OperationTimeout)
  }

  /** Java's `instanceof`: false for null, otherwise a test of the throwable's class. */
  predicate IsInstanceOf(throwable: Option<ThrowableKind>, kind: ThrowableKind) {
    match throwable
    case None => false
    case Some(t) => t == kind
  }

  class ClientManagerBase {
    /** lastKnownConnectionStatus: the only state the manager changes. */
    var status: ConnectionStatus
    /** Whether a dependency connection status tracker is set (non-null). */
    const hasDependency: bool

    /** A new manager starts DISCONNECTED. */
    constructor (hasDependency: bool)
      ensures status == Disconnected && this.hasDependency == hasDependency
    {
      this.hasDependency := hasDependency;
      status := Disconnected;
    }

    /** A plain read of the status, as a dependent manager polls it. */
    function GetConnectionStatus(): (s: ConnectionStatus)
      reads this
      ensures s == status
    {
      status
    }

    /**
     * Closes the client from any state and always leaves it DISCONNECTED. An IOException from
     * closeClient is caught and logged; an unchecked exception still passes the finally block
     * that sets DISCONNECTED, and then propagates (`escaped`).
     */
    method CloseNow(close: CloseOutcome) returns (escaped: bool)
      modifies this
      ensures status == Disconnected
      ensures escaped <==> close == CloseFailed(false)
    {
      match close {
        case Closed =>
          escaped := false;
        case CloseFailed(checked) =>
          escaped := !checked;
      }
      status := Disconnected;
    }

    /**
     * Starts a connection only from DISCONNECTED: the status becomes CONNECTING and the connect
     * loop runs. From CONNECTING or CONNECTED it is a no-op that makes no openClient call.
     */
    method Open(opens: seq<OpenOutcome>, polls: seq<ConnectionStatus>) returns (started: bool, e: LoopEnd)
      modifies this
      ensures started <==> old(status) == Disconnected
      ensures started ==> e == Connect(hasDependency, opens, polls) && status == e.status
      ensures !started ==> status == old(status) && e == LoopEnd(old(status), None, 0, 0)
    {
      if status != Disconnected {
        return false, LoopEnd(status, None, 0, 0);
      } else {
        status := Connecting;
      }
      started := true;
      e := EstablishConnection(opens, polls);
    }

    /**
     * The connect loop: while CONNECTING, wait as long as the dependency is CONNECTING, else
     * call openClient; success sets CONNECTED, a retryable failure tries again, any other
     * failure sets DISCONNECTED and is rethrown (`e.thrown`). Entered in any other status it
     * does nothing.
     */
    method EstablishConnection(opens: seq<OpenOutcome>, polls: seq<ConnectionStatus>) returns (e: LoopEnd)
      modifies this
      ensures old(status) == Connecting ==> e == Connect(hasDependency, opens, polls)
      ensures old(status) != Connecting ==> e == LoopEnd(old(status), None, 0, 0)
      ensures status == e.status
    {
      var i, j := 0, 0;
      while status == Connecting
        invariant i <= |opens| && j <= |polls|
        invariant status == old(status)
        invariant status == Connecting ==> ConnectFrom(hasDependency, opens, polls, i, j) == Connect(hasDependency, opens, polls)
        decreases |opens| - i + |polls| - j
      {
        if hasDependency {
          if j == |polls| {
            e := LoopEnd(Connecting, None, i, j);
            return;
          }
          var observed := polls[j];
          j := j + 1;
          if observed == Connecting {
            // wait for the dependency connection, then poll again
            continue;
          }
        }
        if i == |opens| {
          e := LoopEnd(Connecting, None, i, j);
          return;
        }
        var outcome := opens[i];
        i := i + 1;
        match outcome
        case Opened =>
          status := Connected;
          e := LoopEnd(Connected, None, i, j);
          return;
        case OpenFailed(f) =>
          if !IsRetryable(f) {
            status := Disconnected;
            e := LoopEnd(Disconnected, Some(f), i, j);
            return;
          }
          // retryable: logged, then sleep and try again
      }
      e := LoopEnd(status, None, 0, 0);
    }

    /**
     * The recovery body: only from CONNECTED, closeClient is called (any exception it throws is
     * caught), the status becomes CONNECTING and the connect loop runs. A fatal IOException
     * from the loop is caught and logged; an unchecked one escapes the recovery thread.
     * In any other status nothing happens.
     */
    method HandleRecoverableDisconnection(close: CloseOutcome, opens: seq<OpenOutcome>, polls: seq<ConnectionStatus>)
      returns (r: Recovery)
      modifies this
      ensures old(status) != Connected ==> r == NotStarted && status == old(status)
      ensures old(status) == Connected ==> r.Ran? && r.close == close && r.loop == Connect(hasDependency, opens, polls)
      ensures r.Ran? ==> status == r.loop.status
      ensures r.Ran? ==> (r.escaped.Some? <==> r.loop.thrown.Some? && !r.loop.thrown.value.checked)
      ensures r.Ran? && r.escaped.Some? ==> r.escaped == r.loop.thrown
    {
      if status == Connected {
        // closeClient() yields `close`; whatever it throws is caught, and the finally block
        // sets CONNECTING
        status := Connecting;
        var e := EstablishConnection(opens, polls);
        var escaped := if e.thrown.Some? && !e.thrown.value.checked then e.thrown else None;
        r := Ran(e, close, escaped);
      } else {
        r := NotStarted;
      }
    }

    /**
     * The status-change callback: runs the recovery body exactly when the report is
     * recoverable by policy; every other report leaves the status as it was.
     */
    method Execute(hub: HubStatus, reason: ChangeReason, throwable: Option<ThrowableKind>,
                   close: CloseOutcome, opens: seq<OpenOutcome>, polls: seq<ConnectionStatus>) returns (r: Recovery)
      modifies this
      ensures r.Ran? <==> ShouldDeviceReconnect(hub, reason, throwable) && old(status) == Connected
      ensures r.NotStarted? ==> status == old(status)
      ensures r.Ran? ==> r.close == close && r.loop == Connect(hasDependency, opens, polls) && status == r.loop.status
      ensures r.Ran? ==> (r.escaped.Some? <==> r.loop.thrown.Some? && !r.loop.thrown.value.checked)
      ensures r.Ran? && r.escaped.Some? ==> r.escaped == r.loop.thrown
    {
      if ShouldDeviceReconnect(hub, reason, throwable) {
        r := HandleRecoverableDisconnection(close, opens, polls);
      } else {
        r := NotStarted;
      }
    }
  }
}
