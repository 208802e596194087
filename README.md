# Connection-lifecycle manager of the multiplexing sample

This project models `ClientManagerBase`, the connection-lifecycle supervisor shared by the
device-client and multiplexing-client managers of the Azure IoT device SDK's multiplexing
sample, and proves properties of it in Dafny.

The manager keeps one status, `lastKnownConnectionStatus`, which is DISCONNECTED, CONNECTING
or CONNECTED. Four pieces of behaviour drive it:

- `open` starts a connection only from DISCONNECTED.
- The connect loop (`establishConnection`) waits while an optional dependency tracker reports
  CONNECTING. Otherwise it calls `openClient`: success sets CONNECTED, a failure whose cause is
  a retryable `TransportException` is retried, and any other failure sets DISCONNECTED and is
  rethrown.
- `closeNow` always forces DISCONNECTED.
- The status-change callback (`execute`) uses `shouldDeviceReconnect` to recognise a
  disconnection that the manager itself must repair. The recovery body then closes the client,
  sets CONNECTING and runs the connect loop again.

Files:

- `types.dfy` (module `ConnectionTypes`): the status enumerations, the transport's status and
  reason codes, and the scripted outcomes of `openClient` and `closeClient`. Failures are
  classified by their cause and by whether they are checked (`IOException`) or unchecked.
- `connect_loop.dfy` (module `ConnectLoop`): the connect loop as a function `ConnectFrom` of two
  scripts, the successive `openClient` outcomes and the successive dependency polls, plus
  lemmas about that function.
- `client_manager.dfy` (module `ClientManager`): the class `ClientManagerBase`. Its one mutable
  field is `status`. Its methods `Open`, `CloseNow`, `EstablishConnection` (a `while` loop
  proved equal to `Connect`), `HandleRecoverableDisconnection` and `Execute` each update that
  field. The pure policy `ShouldDeviceReconnect` sits beside the class.
- `scenarios.dfy` (module `Scenarios`): runs of a freshly created manager. They show that
  `open` is idempotent, cover retry-then-success, a fatal failure, waiting on a dependency,
  recovery only from CONNECTED, and reopening after `closeNow`.

The transport (`openClient`, `closeClient`) and the dependency tracker are not modelled
themselves. Each call to them takes the next entry of a script that the caller passes in. When
the loop needs an entry the script does not have, the run stops with status CONNECTING. The
source would keep waiting or retrying at that point.

Details of the code that the model keeps:

- `closeNow` catches only `IOException`. An unchecked exception from `closeClient` still sets
  DISCONNECTED in the `finally` block, but then propagates. `CloseNow` reports this as
  `escaped`.
- The recovery body catches only `IOException` around `establishConnection`. An unchecked fatal
  failure therefore escapes the recovery thread. `Recovery.escaped` reports this.
- `closeNow` acts from every status, not only from CONNECTED.
- The connect loop holds its monitor while it sleeps. Locking is not modelled in any case.

## Model

| member | source | states |
|---|---|---|
| `ConnectLoop.ConnectFrom` | device/iot-device-samples/multiplexing-sample/src/main/java/samples/com/microsoft/azure/sdk/iot/ClientManagerBase.java:169-217 | A CONNECTED run ends with an `openClient` call that succeeded. A DISCONNECTED run ends with a non-retryable failure, and that failure is the one rethrown. A failure is thrown exactly when the run ends DISCONNECTED. Every earlier call was a retryable failure. A run ending CONNECTING has used up a script. No polls are made without a dependency. |
| `ConnectLoop.OpenOnlyAfterReadyPoll` | device/iot-device-samples/multiplexing-sample/src/main/java/samples/com/microsoft/azure/sdk/iot/ClientManagerBase.java:173-192 | With a dependency, the number of `openClient` calls never exceeds the number of polls that saw it outside CONNECTING. The two are equal once the run connects or fails. The last poll before that final call saw the dependency ready. |
| `ConnectLoop.WaitWhileDependencyConnecting` | device/iot-device-samples/multiplexing-sample/src/main/java/samples/com/microsoft/azure/sdk/iot/ClientManagerBase.java:173-180 | Polls that see the dependency CONNECTING only make the loop wait. Skipping them changes nothing but the poll count. |
| `ConnectLoop.StuckDependencyNeverOpens` | device/iot-device-samples/multiplexing-sample/src/main/java/samples/com/microsoft/azure/sdk/iot/ClientManagerBase.java:169-185 | A dependency that stays CONNECTING blocks every `openClient` call. The status stays CONNECTING. |
| `ConnectLoop.RetriesUntilDecidingOutcome` | device/iot-device-samples/multiplexing-sample/src/main/java/samples/com/microsoft/azure/sdk/iot/ClientManagerBase.java:187-206 | Without a dependency, the first outcome that is not a retryable failure decides the run. Success gives CONNECTED. A fatal failure gives DISCONNECTED and is rethrown. Either way the run makes exactly m + 1 calls. |
| `ClientManager.ShouldDeviceReconnect` | device/iot-device-samples/multiplexing-sample/src/main/java/samples/com/microsoft/azure/sdk/iot/ClientManagerBase.java:106-112 | It holds exactly when the report is DISCONNECTED, the reason is RETRY_EXPIRED and the throwable is a non-null `DeviceOperationTimeoutException`. A null throwable never triggers recovery. |
| `ClientManager.ClientManagerBase.constructor` | device/iot-device-samples/multiplexing-sample/src/main/java/samples/com/microsoft/azure/sdk/iot/ClientManagerBase.java:24-28 | A new manager starts DISCONNECTED. |
| `ClientManager.ClientManagerBase.GetConnectionStatus` | device/iot-device-samples/multiplexing-sample/src/main/java/samples/com/microsoft/azure/sdk/iot/ClientManagerBase.java:82-85 | Returns the current status and changes nothing. |
| `ClientManager.ClientManagerBase.CloseNow` | device/iot-device-samples/multiplexing-sample/src/main/java/samples/com/microsoft/azure/sdk/iot/ClientManagerBase.java:40-59 | From any status it leaves DISCONNECTED, whatever `closeClient` does. Only an unchecked close failure propagates. |
| `ClientManager.ClientManagerBase.Open` | device/iot-device-samples/multiplexing-sample/src/main/java/samples/com/microsoft/azure/sdk/iot/ClientManagerBase.java:61-80 | It starts a connect exactly when the status was DISCONNECTED, and then the result is the connect loop's run from CONNECTING. Otherwise it is a no-op with no `openClient` call. |
| `ClientManager.ClientManagerBase.EstablishConnection` | device/iot-device-samples/multiplexing-sample/src/main/java/samples/com/microsoft/azure/sdk/iot/ClientManagerBase.java:163-219 | Entered CONNECTING, the loop's result and the new status equal `Connect` of the scripts. Entered in any other status, it makes no call and changes nothing. |
| `ClientManager.ClientManagerBase.HandleRecoverableDisconnection` | device/iot-device-samples/multiplexing-sample/src/main/java/samples/com/microsoft/azure/sdk/iot/ClientManagerBase.java:114-161 | It does nothing unless CONNECTED. Otherwise it makes one `closeClient` call (its outcome is recorded), sets CONNECTING whatever the close did, and runs the connect loop from the scripts. Only an unchecked fatal failure escapes the recovery thread. |
| `ClientManager.ClientManagerBase.Execute` | device/iot-device-samples/multiplexing-sample/src/main/java/samples/com/microsoft/azure/sdk/iot/ClientManagerBase.java:87-104 | Recovery (one `closeClient` call, then the connect loop) runs exactly when the report is recoverable by policy and the status was CONNECTED. Only an unchecked fatal failure escapes it. Every other report leaves the status unchanged. |
| `Scenarios.SecondOpenOnlyAfterFatalFailure` | device/iot-device-samples/multiplexing-sample/src/main/java/samples/com/microsoft/azure/sdk/iot/ClientManagerBase.java:63-80 | A second `open` starts a connect only if the first one failed fatally, and then it is a full connect loop over the new scripts. Otherwise it makes no call. |
| `Scenarios.RetryTwiceThenConnect` | device/iot-device-samples/multiplexing-sample/src/main/java/samples/com/microsoft/azure/sdk/iot/ClientManagerBase.java:187-206 | Two retryable failures followed by a success give CONNECTED after exactly 3 `openClient` calls. |
| `Scenarios.FatalFailureIsRethrown` | device/iot-device-samples/multiplexing-sample/src/main/java/samples/com/microsoft/azure/sdk/iot/ClientManagerBase.java:194-205 | A first non-retryable failure gives DISCONNECTED. The failure is rethrown after one call, with no retry. |
| `Scenarios.OpenWaitsForDependency` | device/iot-device-samples/multiplexing-sample/src/main/java/samples/com/microsoft/azure/sdk/iot/ClientManagerBase.java:173-192 | After n CONNECTING polls, the only `openClient` call follows the first ready poll, and the manager ends CONNECTED. |
| `Scenarios.RecoveryOnlyFromConnected` | device/iot-device-samples/multiplexing-sample/src/main/java/samples/com/microsoft/azure/sdk/iot/ClientManagerBase.java:115-127 | A recoverable report while CONNECTED runs one recovery, closing with the given close outcome. The same report runs recovery again only if the status is CONNECTED again, never while CONNECTING. |
| `Scenarios.CloseNowAllowsReopen` | device/iot-device-samples/multiplexing-sample/src/main/java/samples/com/microsoft/azure/sdk/iot/ClientManagerBase.java:40-80 | After `closeNow`, whatever the close did, the next `open` starts a full connect loop. |

## Left out

- Threading and locking. The `synchronized` blocks and the recovery thread are not modelled. Each method is one atomic sequential step, and the recovery body runs synchronously inside `Execute`. In the source the monitor is the status value itself, and that value is reassigned.
- The second CONNECTED check that the recovery thread makes inside its critical section. In a sequential model it always agrees with the first check.
- The 2-second sleeps (`SLEEP_TIME_BEFORE_RECONNECTING_IN_SECONDS`) and the `InterruptedException` to `RuntimeException` paths. These are real-time behaviour, not state logic.
- `ConnectLoop.ConnectFrom`: the source retries and waits without bound. The model stops with status CONNECTING when the `openClient` script or the dependency-poll script runs out, so endless retrying is not captured.
- The dependency tracker's own behaviour. It appears only as the sequence of statuses that its polls observe.
- What `openClient`, `closeClient` and `getClientId` do inside the transport. They are abstract foreign calls, and only their outcomes are scripted. `getClientId` feeds logging alone.
- `java.lang.Error` thrown by `openClient`. It is not an `Exception`, so the connect loop would not catch it.
- Logging, `printStackTrace` and the no-op `registerConnectionStatusChangeCallback`.
- The demo application `TemperatureController.java`. It covers telemetry, twin updates, random values, date parsing and sleeps, which are application glue with no lifecycle logic.
