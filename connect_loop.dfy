/**
 * The connect loop of the client manager (establishConnection), as a function of two scripts:
 * the outcomes that successive openClient calls produce, and the statuses that successive
 * polls of the dependency tracker observe. A run that needs a script entry that is not there
 * stops with the status still CONNECTING ("exhausted"); the source would go on waiting or
 * retrying.
 */
module ConnectLoop {
  import opened ConnectionTypes

  /**
   * How a run of the connect loop ended: the manager's status, the failure rethrown to the
   * caller (if any), the number of openClient calls made and the number of dependency polls made.
   */
  datatype LoopEnd = LoopEnd(status: ConnectionStatus, thrown: Option<Failure>, attempts: nat, polls: nat)

  /**
   * The loop entered with status CONNECTING, after `i` openClient calls and `j` polls. Each
   * iteration first polls the dependency (when there is one) and waits if it is CONNECTING;
   * otherwise it calls openClient: success ends CONNECTED, a retryable failure loops again,
   * any other failure ends DISCONNECTED and is rethrown.
   */
  function ConnectFrom(hasDep: bool, opens: seq<OpenOutcome>, polls: seq<ConnectionStatus>, i: nat, j: nat): (e: LoopEnd)
    requires i <= |opens| && j <= |polls|
    decreases |opens| - i + |polls| - j
    ensures i <= e.attempts <= |opens| && j <= e.polls <= |polls|
    ensures !hasDep ==> e.polls == j
    ensures e.thrown.Some? <==> e.status == Disconnected
    ensures e.status == Connected ==> i < e.attempts && opens[e.attempts - 1] == Opened
    ensures e.status == Disconnected ==>
      i < e.attempts && opens[e.attempts - 1] == OpenFailed(e.thrown.value) && !IsRetryable(e.thrown.value)
    ensures forall k | i <= k < e.attempts :: Retried(opens[k]) || (k == e.attempts - 1 && e.status != Connecting)
    ensures e.status == Connecting ==> e.attempts == |opens| || (hasDep && e.polls == |polls|)
  {
    if hasDep && j == |polls| then
      LoopEnd(Connecting, None, i, j)
    else if hasDep && polls[j] == Connecting then
      ConnectFrom(hasDep, opens, polls, i, j + 1)
    else
      var p := if hasDep then j + 1 else j;
      if i == |opens| then
        LoopEnd(Connecting, None, i, p)
      else
        match opens[i]
        case Opened => LoopEnd(Connected, None, i + 1, p)
        case OpenFailed(f) =>
          if IsRetryable(f) then ConnectFrom(hasDep, opens, polls, i + 1, p)
          else LoopEnd(Disconnected, Some(f), i + 1, p)
  }

  /** The loop entered with status CONNECTING and both scripts unread. */
  function Connect(hasDep: bool, opens: seq<OpenOutcome>, polls: seq<ConnectionStatus>): LoopEnd {
    ConnectFrom(hasDep, opens, polls, 0, 0)
  }

  /** The number of polls in polls[lo..hi] that saw the dependency in a state other than CONNECTING. */
  function ReadyPolls(polls: seq<ConnectionStatus>, lo: nat, hi: nat): (n: nat)
    requires lo <= hi <= |polls|
    decreases hi - lo
    ensures n <= hi - lo
  {
    if lo == hi then 0
    else (if polls[lo] == Connecting then 0 else 1) + ReadyPolls(polls, lo + 1, hi)
  }

  /**
   * openClient is only called right after a poll that saw the dependency ready: every
   * openClient call is matched by a distinct non-CONNECTING poll, and when the loop ended by
   * connecting or failing, the last poll it made saw the dependency ready.
   */
  lemma {:induction false} OpenOnlyAfterReadyPoll(opens: seq<OpenOutcome>, polls: seq<ConnectionStatus>, i: nat, j: nat)
    requires i <= |opens| && j <= |polls|
    decreases |opens| - i + |polls| - j
    ensures var e := ConnectFrom(true, opens, polls, i, j);
      e.attempts - i <= ReadyPolls(polls, j, e.polls) &&
      (e.status != Connecting ==>
         e.attempts - i == ReadyPolls(polls, j, e.polls) && j < e.polls && polls[e.polls - 1] != Connecting)
  {
    var e := ConnectFrom(true, opens, polls, i, j);
    if j == |polls| {
    } else if polls[j] == Connecting {
      OpenOnlyAfterReadyPoll(opens, polls, i, j + 1);
    } else if i == |opens| {
      assert ReadyPolls(polls, j + 1, j + 1) == 0;
    } else {
      match opens[i]
      case Opened =>
        assert ReadyPolls(polls, j + 1, j + 1) == 0;
      case OpenFailed(f) =>
        if IsRetryable(f) {
          OpenOnlyAfterReadyPoll(opens, polls, i + 1, j + 1);
        } else {
          assert ReadyPolls(polls, j + 1, j + 1) == 0;
        }
    }
  }

  /**
   * While the dependency keeps reporting CONNECTING the loop only waits: skipping `n` such
   * polls changes nothing but the number of polls made.
   */
  lemma {:induction false} WaitWhileDependencyConnecting(opens: seq<OpenOutcome>, polls: seq<ConnectionStatus>, i: nat, j: nat, n: nat)
    requires i <= |opens| && j + n <= |polls|
    requires forall k | j <= k < j + n :: polls[k] == Connecting
    decreases n
    ensures ConnectFrom(true, opens, polls, i, j) == ConnectFrom(true, opens, polls, i, j + n)
  {
    if n > 0 {
      WaitWhileDependencyConnecting(opens, polls, i, j + 1, n - 1);
    }
  }

  /**
   * A dependency that never leaves CONNECTING keeps the loop from ever calling openClient:
   * it ends with status CONNECTING, no new openClient call, and every poll used.
   */
  lemma StuckDependencyNeverOpens(opens: seq<OpenOutcome>, polls: seq<ConnectionStatus>, i: nat, j: nat)
    requires i <= |opens| && j <= |polls|
    requires forall k | j <= k < |polls| :: polls[k] == Connecting
    ensures ConnectFrom(true, opens, polls, i, j) == LoopEnd(Connecting, None, i, |polls|)
  {
    WaitWhileDependencyConnecting(opens, polls, i, j, |polls| - j);
  }

  /**
   * Without a dependency, retryable failures are retried one after the other, and the first
   * outcome that is not a retryable failure decides the run: success ends CONNECTED, a fatal
   * failure ends DISCONNECTED with that failure rethrown; either way after exactly m + 1 calls.
   * This is the converse of ConnectFrom's contract, and follows from it.
   */
  lemma RetriesUntilDecidingOutcome(opens: seq<OpenOutcome>, polls: seq<ConnectionStatus>, i: nat, j: nat, m: nat)
    requires i <= m < |opens| && j <= |polls|
    requires forall k | i <= k < m :: Retried(opens[k])
    requires !Retried(opens[m])
    ensures ConnectFrom(false, opens, polls, i, j) ==
      if opens[m] == Opened then LoopEnd(Connected, None, m + 1, j)
      else LoopEnd(Disconnected, Some(opens[m].failure), m + 1, j)
  {
  }
}
