# PearBridge discovery and connection-target model

A Dafny model of the core of PearBridge, an Android app that scans for Bluetooth LE
peripherals, lists each discovered one once, and keeps a foreground service that holds
the single peripheral chosen as the connection target.

The model has two stateful parts.

- **The peripheral view model.** `BluetoothPeripheralViewModel` and its implementation
  `BluetoothPeripheralViewModelImpl` are merged into one class,
  `ViewModel.BluetoothPeripheralViewModel`. It holds the roster, which is the value of the
  `_peripherals` state flow. It also holds an optional LE scanner and a ghost log of the calls
  made on that scanner. The scan callback's `onScanResult` is `OnScanResult`. Its effect on the
  roster is the pure function `Scanning.ScanStep`, and a whole stream of advertisements is
  folded by `Scanning.ScanAll`. The lifecycle hooks `onResume`/`onPause` call the
  permission-gated `startScan`/`stopScan`. All of these are also given as one event fold,
  `ViewModel.Run`, so that properties of whole interleavings can be proved.
- **The connecting service.** `Service.ConnectingService` holds the target peripheral and the
  single listener slot. It also has a ghost flag for "running in the foreground" and a ghost log
  of the callbacks delivered to listeners. `onStartCommand`, `setBluetoothPeripheralSelectedListener`
  and `onUnbind` are its methods. Each is tied to `Service.Apply`, and sequences of commands are
  folded by `Service.Run`.

Platform inputs become parameters:
- The `BLUETOOTH_CONNECT` permission check becomes a `permitted: bool` argument. It is passed
  again on every call, because the source checks it again on every call.
- The lazily looked-up `BluetoothLeScanner?` becomes `scanner: Option<ScannerId>`, fixed at
  construction.
- The intent's serializable peripheral extra becomes `payload: Option<Peripheral>`.
- Listener objects are identified by a `ListenerId`.

## Model

| member | source | states |
|---|---|---|
| Scanning.Candidate | app/src/main/java/io/github/kiyohitonara/pearbridge/BluetoothPeripheralViewModelImpl.kt:56-63 | A record is proposed exactly when the result and its device are non-null and both name and address are non-null and non-empty; the record carries the device's name and address, so it is admissible |
| Scanning.Admit | app/src/main/java/io/github/kiyohitonara/pearbridge/BluetoothPeripheralViewModelImpl.kt:48-54 | Without the permission nothing is admitted; with it, the candidate record is |
| Scanning.ScanStep | app/src/main/java/io/github/kiyohitonara/pearbridge/BluetoothPeripheralViewModelImpl.kt:45-70 | One advertisement grows the roster by at most one record, only at its end (the old roster is a prefix), and keeps it duplicate-free with non-empty names and addresses |
| Scanning.ScanAll | app/src/main/java/io/github/kiyohitonara/pearbridge/BluetoothPeripheralViewModelImpl.kt:59-68 | Any stream of advertisements keeps the roster duplicate-free with non-empty names and addresses |
| Scanning.DeniedLeavesRoster | app/src/main/java/io/github/kiyohitonara/pearbridge/BluetoothPeripheralViewModelImpl.kt:48-54 | Without the permission the roster is unchanged |
| Scanning.MalformedLeavesRoster | app/src/main/java/io/github/kiyohitonara/pearbridge/BluetoothPeripheralViewModelImpl.kt:56-61 | A null result or device, or a null or empty name or address, leaves the roster unchanged |
| Scanning.DuplicateLeavesRoster | app/src/main/java/io/github/kiyohitonara/pearbridge/BluetoothPeripheralViewModelImpl.kt:63-66 | A record that is already listed leaves the roster unchanged |
| Scanning.NewRecordAppended | app/src/main/java/io/github/kiyohitonara/pearbridge/BluetoothPeripheralViewModelImpl.kt:63-68 | A new admitted record gives exactly old roster + [record] |
| Scanning.ScanStepMembers | app/src/main/java/io/github/kiyohitonara/pearbridge/BluetoothPeripheralViewModelImpl.kt:63-68 | After one advertisement the members are the old ones plus the admitted record, both directions |
| Scanning.ScanStepIdempotent | app/src/main/java/io/github/kiyohitonara/pearbridge/BluetoothPeripheralViewModelImpl.kt:63-66 | The same advertisement twice gives the same roster as once |
| Scanning.ScanAllAppend | app/src/main/java/io/github/kiyohitonara/pearbridge/BluetoothPeripheralViewModelImpl.kt:45-70 | Processing a + b equals processing a, then b from the resulting roster |
| Scanning.ScanAllExtends | app/src/main/java/io/github/kiyohitonara/pearbridge/BluetoothPeripheralViewModelImpl.kt:68 | Over any stream the starting roster stays a prefix: nothing is removed or reordered |
| Scanning.ScanAllMembers | app/src/main/java/io/github/kiyohitonara/pearbridge/BluetoothPeripheralViewModelImpl.kt:48-68 | A record is in the final roster if and only if it was there at the start or some advertisement of the stream admitted it |
| Scanning.FirstSeenOrder | app/src/main/java/io/github/kiyohitonara/pearbridge/BluetoothPeripheralViewModelImpl.kt:63-68 | A record first admitted earlier in the stream stands before one first admitted later |
| Scanning.DeniedStreamLeavesRoster | app/src/main/java/io/github/kiyohitonara/pearbridge/BluetoothPeripheralViewModelImpl.kt:48-54 | If the permission is missing at every advertisement, the roster is unchanged |
| Scanning.InadmissibleNeverListed | app/src/main/java/io/github/kiyohitonara/pearbridge/BluetoothPeripheralViewModelImpl.kt:59-61 | A record with an empty name or address is never listed, however often it is advertised |
| Scanning.FirstSeenExample | app/src/main/java/io/github/kiyohitonara/pearbridge/BluetoothPeripheralViewModelImpl.kt:56-68 | (A,1), (B,2), (A,1), (C,3) gives [A, B, C] |
| ViewModel.Forwarded | app/src/main/java/io/github/kiyohitonara/pearbridge/BluetoothPeripheralViewModelImpl.kt:79-105 | startScan/stopScan issue one start/stop call on the scanner exactly when the permission is granted and a scanner exists, and none otherwise |
| ViewModel.Handle | app/src/main/java/io/github/kiyohitonara/pearbridge/BluetoothPeripheralViewModel.kt:37-43 | Lifecycle hooks and scan failures leave the roster unchanged, scan results leave the scanner log unchanged, and the roster invariant is kept |
| ViewModel.Run | app/src/main/java/io/github/kiyohitonara/pearbridge/BluetoothPeripheralViewModelImpl.kt:59-68 | Any interleaving of lifecycle hooks and scan callbacks keeps the roster invariant |
| ViewModel.RunRoster | app/src/main/java/io/github/kiyohitonara/pearbridge/BluetoothPeripheralViewModel.kt:37-43 | In any interleaving the roster is what the advertisements alone make of it: resume, pause and failures never touch it |
| ViewModel.DeniedRunChangesNothing | app/src/main/java/io/github/kiyohitonara/pearbridge/BluetoothPeripheralViewModelImpl.kt:48-105 | With the permission missing throughout, no record is admitted and no scanner call is issued |
| ViewModel.NoScannerNoCalls | app/src/main/java/io/github/kiyohitonara/pearbridge/BluetoothPeripheralViewModelImpl.kt:90-104 | Without a scanner no scanner call is ever issued |
| ViewModel.BluetoothPeripheralViewModel.constructor | app/src/main/java/io/github/kiyohitonara/pearbridge/BluetoothPeripheralViewModel.kt:34 | The roster starts empty and no scanner call has been made |
| ViewModel.BluetoothPeripheralViewModel.Peripherals | app/src/main/java/io/github/kiyohitonara/pearbridge/BluetoothPeripheralViewModel.kt:35 | The public view is a read-only function equal to the current roster |
| ViewModel.BluetoothPeripheralViewModel.OnScanResult | app/src/main/java/io/github/kiyohitonara/pearbridge/BluetoothPeripheralViewModelImpl.kt:45-70 | The new roster is ScanStep of the old one; the invariant is kept; the scanner log is untouched |
| ViewModel.BluetoothPeripheralViewModel.OnScanFailed | app/src/main/java/io/github/kiyohitonara/pearbridge/BluetoothPeripheralViewModelImpl.kt:72-76 | Nothing changes |
| ViewModel.BluetoothPeripheralViewModel.StartScan | app/src/main/java/io/github/kiyohitonara/pearbridge/BluetoothPeripheralViewModelImpl.kt:79-91 | The scanner log gains exactly the forwarded start call and the roster is untouched |
| ViewModel.BluetoothPeripheralViewModel.StopScan | app/src/main/java/io/github/kiyohitonara/pearbridge/BluetoothPeripheralViewModelImpl.kt:93-105 | The scanner log gains exactly the forwarded stop call and the roster is untouched |
| ViewModel.BluetoothPeripheralViewModel.OnResume | app/src/main/java/io/github/kiyohitonara/pearbridge/BluetoothPeripheralViewModel.kt:37-39 | Has exactly the effect of one startScan; the roster is untouched |
| ViewModel.BluetoothPeripheralViewModel.OnPause | app/src/main/java/io/github/kiyohitonara/pearbridge/BluetoothPeripheralViewModel.kt:41-43 | Has exactly the effect of one stopScan; the roster is untouched |
| Service.Notify | app/src/main/java/io/github/kiyohitonara/pearbridge/ConnectingService.kt:54-75 | A registered listener gets Unselected for an absent target or Selected(p) for target p; with no listener nothing is sent |
| Service.Replay | app/src/main/java/io/github/kiyohitonara/pearbridge/ConnectingService.kt:90-93 | A new listener gets one Selected(target) exactly when both the listener and the target are non-null |
| Service.StartModeFor | app/src/main/java/io/github/kiyohitonara/pearbridge/ConnectingService.kt:61-78 | The start mode is START_NOT_STICKY (2) for an absent payload and START_REDELIVER_INTENT (3) otherwise |
| Service.Apply | app/src/main/java/io/github/kiyohitonara/pearbridge/ConnectingService.kt:51-102 | Each command appends at most one callback, never rewrites earlier ones, and every new callback goes to the listener in the slot after the command |
| Service.StartWithoutPayload | app/src/main/java/io/github/kiyohitonara/pearbridge/ConnectingService.kt:54-62 | An absent payload nulls the target, leaves the foreground, sends Unselected to the registered listener only, and returns START_NOT_STICKY |
| Service.StartWithPayload | app/src/main/java/io/github/kiyohitonara/pearbridge/ConnectingService.kt:54-78 | Payload p becomes the target, the service enters the foreground, the registered listener only gets Selected(p), and START_REDELIVER_INTENT is returned |
| Service.StartWithoutListenerIsSilent | app/src/main/java/io/github/kiyohitonara/pearbridge/ConnectingService.kt:58-75 | With no listener, onStartCommand emits no callback for either payload |
| Service.SetListenerReplays | app/src/main/java/io/github/kiyohitonara/pearbridge/ConnectingService.kt:87-94 | The slot becomes l, the target is unchanged, and l gets exactly one Selected(target) when both are non-null, otherwise no callback |
| Service.UnbindThenSetListener | app/src/main/java/io/github/kiyohitonara/pearbridge/ConnectingService.kt:96-102 | onUnbind clears only the listener, and a listener set later still gets the held target replayed |
| Service.RunAppend | app/src/main/java/io/github/kiyohitonara/pearbridge/ConnectingService.kt:51-102 | Running a + b equals running a, then b |
| Service.RunExtendsCallbacks | app/src/main/java/io/github/kiyohitonara/pearbridge/ConnectingService.kt:51-102 | Over any command sequence the callback log is only appended to, with at most one callback per command |
| Service.FormerListenerHearsNothing | app/src/main/java/io/github/kiyohitonara/pearbridge/ConnectingService.kt:87-102 | A listener that has been replaced or cleared, and is not set again, receives no further callback |
| Service.TargetKeptWithoutStart | app/src/main/java/io/github/kiyohitonara/pearbridge/ConnectingService.kt:87-102 | Setting and clearing listeners never changes the target |
| Service.TargetIsLastPayload | app/src/main/java/io/github/kiyohitonara/pearbridge/ConnectingService.kt:54 | The target is the payload of the last onStartCommand |
| Service.RecoveredTargetIsReplayed | app/src/main/java/io/github/kiyohitonara/pearbridge/ConnectingService.kt:54-94 | A fresh service started with payload p and then given listener l holds p and has delivered exactly [Selected(l, p)] |
| Service.MissingTargetIsNotReplayed | app/src/main/java/io/github/kiyohitonara/pearbridge/ConnectingService.kt:54-94 | A fresh service started without payload holds no target, and a listener set afterwards hears nothing |
| Service.DetachClearAttach | app/src/main/java/io/github/kiyohitonara/pearbridge/ConnectingService.kt:54-102 | Unbind, then an absent payload, then a new listener: no target and no callback |
| Service.ConnectingService.constructor | app/src/main/java/io/github/kiyohitonara/pearbridge/ConnectingService.kt:39-40 | The target and the listener both start null, and nothing has been delivered |
| Service.ConnectingService.OnStartCommand | app/src/main/java/io/github/kiyohitonara/pearbridge/ConnectingService.kt:51-79 | The target becomes the payload, the listener is kept, the new state is Apply of StartCommand, and the mode matches the payload |
| Service.ConnectingService.SetBluetoothPeripheralSelectedListener | app/src/main/java/io/github/kiyohitonara/pearbridge/ConnectingService.kt:87-94 | The slot becomes the argument, the target is kept, and the new state is Apply of SetListener |
| Service.ConnectingService.OnUnbind | app/src/main/java/io/github/kiyohitonara/pearbridge/ConnectingService.kt:96-102 | Returns true, clears the listener, keeps the target, and the new state is Apply of Unbind |

## Left out

- `MainActivity.kt` is not part of this model. It holds the Compose UI and the runtime permission prompt, and its selection handlers are empty.
- Notification channel and notification construction, `PendingIntent`, and `startForeground`/`stopForeground` are left out. They are platform side effects. Only a ghost "runs in the foreground" flag records them.
- Binder and bind mechanics (`onBind`, `LocalBinder`), `onCreate` and `onDestroy` are left out. They hold no modelled state.
- Intent deserialization (`getSerializableExtra`) is left out. The payload is an `Option<Peripheral>` input, absent when the intent or its extra is null.
- The lazy `BluetoothManager`/`BluetoothLeScanner` lookup is left out. It becomes an optional scanner fixed at construction.
- The SDK-version test before each permission check is left out. It is folded into the `permitted` argument, which is simply true below Android S.
- Timber logging is left out. The model has no I/O.
- `StateFlow` subscription, conflation and threading are left out. The roster is one sequential field, and the public view is a function that reads it.
- Listener code is left out. A callback is recorded in the ghost log, and whatever the listener does in response is not modelled.
- `callbackType`, `flags` and `startId` are accepted and ignored, as in the source.
- Behaviour the code does not implement is not modelled. The roster is not cleared on stop: `stopScan` does not touch it. Late advertisements after a stop are not dropped. Repeated start/stop calls are not deduplicated: each permitted call with a scanner is forwarded. Out-of-range devices are not pruned.
- The `onStartCommand` payload is not validated beyond null. A peripheral with an empty name or address is accepted as the target, because the code only checks for null.
