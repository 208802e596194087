/**
 * Runs of a freshly created manager that exercise the lifecycle end to end: idempotent open,
 * retry then success, a fatal failure, waiting on a dependency, recovery, close and reopen.
 */
module Scenarios {
  import opened ConnectionTypes
  import opened ConnectLoop
  import opened ClientManager

  /**
   * A second open starts a new connect attempt only when the first one ended in a fatal failure
   * (DISCONNECTED); while the first left the manager CONNECTING or CONNECTED it makes no call.
   */
  method SecondOpenOnlyAfterFatalFailure(hasDep: bool, opens1: seq<OpenOutcome>, polls1: seq<ConnectionStatus>,
                                         opens2: seq<OpenOutcome>, polls2: seq<ConnectionStatus>)
    returns (first: LoopEnd, secondStarted: bool, second: LoopEnd)
    ensures first == Connect(hasDep, opens1, polls1)
    ensures secondStarted <==> first.thrown.Some?
    ensures !secondStarted ==> second.attempts == 0 && second.polls == 0 && second.status == first.status
    ensures secondStarted ==> second == Connect(hasDep, opens2, polls2)
  {
    var m := new ClientManagerBase(hasDep);
    var firstStarted;
    firstStarted, first := m.Open(opens1, polls1);
    secondStarted, second := m.Open(opens2, polls2);
  }

  /** Two retryable failures and then a success: CONNECTED after exactly three openClient calls. */
  method RetryTwiceThenConnect(f1: Failure, f2: Failure, rest: seq<OpenOutcome>) returns (e: LoopEnd)
    requires IsRetryable(f1) && IsRetryable(f2)
    ensures e == LoopEnd(Connected, None, 3, 0)
  {
    var m := new ClientManagerBase(false);
    var opens := [OpenFailed(f1), OpenFailed(f2), Opened] + rest;
    RetriesUntilDecidingOutcome(opens, [], 0, 0, 2);
    var started;
    started, e := m.Open(opens, []);
  }

  /** A non-retryable failure on the first openClient call: DISCONNECTED, rethrown, no retry. */
  method FatalFailureIsRethrown(f: Failure, rest: seq<OpenOutcome>) returns (e: LoopEnd, status: ConnectionStatus)
    requires !IsRetryable(f)
    ensures e == LoopEnd(Disconnected, Some(f), 1, 0)
    ensures status == Disconnected
  {
    var m := new ClientManagerBase(false);
    var started;
    started, e := m.Open([OpenFailed(f)] + rest, []);
    status := m.GetConnectionStatus();
  }

  /**
   * The dependency reports CONNECTING on the first `n` polls and CONNECTED on the next: the only
   * openClient call comes after that poll, and the manager ends CONNECTED.
   */
  method OpenWaitsForDependency(n: nat, rest: seq<OpenOutcome>) returns (e: LoopEnd)
    ensures e == LoopEnd(Connected, None, 1, n + 1)
  {
    var m := new ClientManagerBase(true);
    var opens := [Opened] + rest;
    var polls := seq(n, _ => Connecting) + [Connected];
    WaitWhileDependencyConnecting(opens, polls, 0, 0, n);
    var started;
    started, e := m.Open(opens, polls);
  }

  /**
   * A recoverable report while CONNECTED runs the recovery once; the same report delivered
   * afterwards runs it again only if the recovery reconnected, never while still CONNECTING.
   */
  method RecoveryOnlyFromConnected(close: CloseOutcome, opens: seq<OpenOutcome>, polls: seq<ConnectionStatus>)
    returns (r1: Recovery, r2: Recovery)
    ensures r1.Ran? && r1.close == close && r1.loop == Connect(false, opens, polls)
    ensures r2.Ran? <==> r1.loop.status == Connected
  {
    var m := new ClientManagerBase(false);
    var started, e := m.Open([Opened], []);
    r1 := m.Execute(HubDisconnected, RetryExpired, Some(OperationTimeout), close, opens, polls);
    r2 := m.Execute(HubDisconnected, RetryExpired, Some(OperationTimeout), Closed, [], []);
  }

  /** Whatever closeClient does, closeNow leaves the manager ready for a new open. */
  method CloseNowAllowsReopen(hasDep: bool, opens: seq<OpenOutcome>, polls: seq<ConnectionStatus>, close: CloseOutcome,
                              reopens: seq<OpenOutcome>, repolls: seq<ConnectionStatus>)
    returns (reopened: bool, e: LoopEnd)
    ensures reopened && e == Connect(hasDep, reopens, repolls)
  {
    var m := new ClientManagerBase(hasDep);
    var started, first := m.Open(opens, polls);
    var escaped := m.CloseNow(close);
    reopened, e := m.Open(reopens, repolls);
  }
}
