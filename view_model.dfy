/**
 * The peripheral view model: the abstract `BluetoothPeripheralViewModel`
 * (the roster field, its read view and the lifecycle hooks) together with its
 * one implementation `BluetoothPeripheralViewModelImpl` (the scan callback and
 * the permission-gated `startScan`/`stopScan`).
 */
module ViewModel {
  import opened Wrappers
  import opened Peripherals
  import opened Scanning

  /** Identity of the platform's LE scanner handle. */
  type ScannerId = nat

  /** A call the view model makes on the scanner; the scan callback passed along is always the same one. */
  datatype ScannerCall = StartScanCall(scanner: ScannerId) | StopScanCall(scanner: ScannerId)

  /** Everything that drives the view model: lifecycle hooks and scan callbacks. */
  datatype ViewModelEvent =
    | Resume(permitted: bool)
    | Pause(permitted: bool)
    | ScanResultArrived(ad: Advertisement)
    | ScanFailed(errorCode: int)

  /** The observable state: the roster and the calls issued so far to the scanner. */
  datatype ViewModelState = ViewModelState(roster: seq<Peripheral>, scannerCalls: seq<ScannerCall>)

  /**
   * The scanner calls one `startScan` (`start`) or `stopScan` (`!start`) issues:
   * one call on the scanner when the permission is granted and a scanner
   * exists, none otherwise.
   */
  function Forwarded(permitted: bool, scanner: Option<ScannerId>, start: bool): (r: seq<ScannerCall>)
    ensures |r| <= 1
    ensures r != [] <==> permitted && scanner.Some?
    ensures r != [] ==> r[0] == if start then StartScanCall(scanner.value) else StopScanCall(scanner.value)
  {
    if !permitted then []
    else match scanner
      case None => []
      case Some(s) => [if start then StartScanCall(s) else StopScanCall(s)]
  }

  /** One event: resume starts the scan, pause stops it, results go to the roster, failures do nothing. */
  function Handle(st: ViewModelState, scanner: Option<ScannerId>, e: ViewModelEvent): (r: ViewModelState)
    ensures RosterValid(st.roster) ==> RosterValid(r.roster)
    ensures !e.ScanResultArrived? ==> r.roster == st.roster
    ensures e.ScanResultArrived? ==> r.scannerCalls == st.scannerCalls
  {
    match e
    case Resume(permitted) => st.(scannerCalls := st.scannerCalls + Forwarded(permitted, scanner, true))
    case Pause(permitted) => st.(scannerCalls := st.scannerCalls + Forwarded(permitted, scanner, false))
    case ScanResultArrived(ad) => st.(roster := ScanStep(st.roster, ad))
    case ScanFailed(_) => st
  }

  /** A stream of events, handled in order. */
  function Run(st: ViewModelState, scanner: Option<ScannerId>, events: seq<ViewModelEvent>): (r: ViewModelState)
    ensures RosterValid(st.roster) ==> RosterValid(r.roster)
    decreases |events|
  {
    if events == [] then st
    else Handle(Run(st, scanner, events[..|events| - 1]), scanner, events[|events| - 1])
  }

  /** The advertisements of an event stream, in order. */
  function Advertisements(events: seq<ViewModelEvent>): (r: seq<Advertisement>)
    ensures |r| <= |events|
    decreases |events|
  {
    if events == [] then []
    else
      var init := Advertisements(events[..|events| - 1]);
      match events[|events| - 1]
      case ScanResultArrived(ad) => init + [ad]
      case _ => init
  }

  /** The event is refused for lack of permission, or is a scan failure. */
  predicate Denied(e: ViewModelEvent) {
    match e
    case Resume(permitted) => !permitted
    case Pause(permitted) => !permitted
    case ScanResultArrived(ad) => !ad.permitted
    case ScanFailed(_) => true
  }

  /**
   * The lifecycle hooks and scan failures never touch the roster: it is
   * exactly what the advertisements alone make of it.
   */
  lemma {:induction false} RunRoster(st: ViewModelState, scanner: Option<ScannerId>, events: seq<ViewModelEvent>)
    ensures Run(st, scanner, events).roster == ScanAll(st.roster, Advertisements(events))
    decreases |events|
  {
    if events != [] {
      var init := events[..|events| - 1];
      RunRoster(st, scanner, init);
      match events[|events| - 1]
      case ScanResultArrived(ad) =>
        var ads := Advertisements(init) + [ad];
        assert ads[..|ads| - 1] == Advertisements(init);
      case _ =>
    }
  }

  /** With the permission missing throughout, no record is admitted and no scanner call is issued. */
  lemma {:induction false} DeniedRunChangesNothing(st: ViewModelState, scanner: Option<ScannerId>, events: seq<ViewModelEvent>)
    requires forall k :: 0 <= k < |events| ==> Denied(events[k])
    ensures Run(st, scanner, events) == st
    decreases |events|
  {
    if events != [] {
      DeniedRunChangesNothing(st, scanner, events[..|events| - 1]);
    }
  }

  /** Without a scanner, no scanner call is ever issued. */
  lemma {:induction false} NoScannerNoCalls(st: ViewModelState, events: seq<ViewModelEvent>)
    ensures Run(st, None, events).scannerCalls == st.scannerCalls
    decreases |events|
  {
    if events != [] {
      NoScannerNoCalls(st, events[..|events| - 1]);
    }
  }

  class BluetoothPeripheralViewModel {
    /** The value held by the `_peripherals` state flow. */
    var roster: seq<Peripheral>
    /** The LE scanner, looked up once; absent when the platform has none. */
    const scanner: Option<ScannerId>
    /** Every call issued so far to the scanner. */
    ghost var scannerCalls: seq<ScannerCall>

    ghost predicate Valid()
      reads this
    {
      RosterValid(roster)
    }

    ghost function State(): ViewModelState
      reads this
    {
      ViewModelState(roster, scannerCalls)
    }

    /** The roster starts empty and no scanner call has been made. */
    constructor (scanner: Option<ScannerId>)
      ensures this.scanner == scanner
      ensures roster == [] && scannerCalls == []
      ensures Valid()
    {
      this.scanner := scanner;
      roster := [];
      scannerCalls := [];
    }

    /** The public `peripherals` view: a read of the current roster that cannot change anything. */
    function Peripherals(): (r: seq<Peripheral>)
      reads this
      ensures r == roster
    {
      roster
    }

    /** The scan callback's `onScanResult`; `permitted` is the permission check made on arrival. */
    method OnScanResult(callbackType: int, result: Option<ScanResult>, permitted: bool)
      requires Valid()
      modifies this`roster
      ensures Valid()
      ensures roster == ScanStep(old(roster), Advertisement(permitted, result))
      ensures State() == Handle(old(State()), scanner, ScanResultArrived(Advertisement(permitted, result)))
    {
      if !permitted {
        return;
      }
      if result.None? || result.value.device.None? {
        return;
      }
      var device := result.value.device.value;
      if device.name.None? || device.name.value == [] || device.address.None? || device.address.value == [] {
        return;
      }
      var peripheral := Peripheral(device.name.value, device.address.value);
      if peripheral in roster {
        return;
      }
      roster := roster + [peripheral];
    }

    /** The scan callback's `onScanFailed`: only logs. */
    method OnScanFailed(errorCode: int)
      ensures State() == Handle(old(State()), scanner, ScanFailed(errorCode))
    {
    }

    /** Starts scanning: one call on the scanner if the permission is granted and a scanner exists. */
    method StartScan(permitted: bool)
      modifies this`scannerCalls
      ensures scannerCalls == old(scannerCalls) + Forwarded(permitted, scanner, true)
    {
      if !permitted {
        return;
      }
      if scanner.Some? {
        scannerCalls := scannerCalls + [StartScanCall(scanner.value)];
      }
    }

    /** Stops scanning: one call on the scanner if the permission is granted and a scanner exists. */
    method StopScan(permitted: bool)
      modifies this`scannerCalls
      ensures scannerCalls == old(scannerCalls) + Forwarded(permitted, scanner, false)
    {
      if !permitted {
        return;
      }
      if scanner.Some? {
        scannerCalls := scannerCalls + [StopScanCall(scanner.value)];
      }
    }

    /** The lifecycle's resume hook: exactly one `startScan`, roster untouched. */
    method OnResume(permitted: bool)
      modifies this`scannerCalls
      ensures State() == Handle(old(State()), scanner, Resume(permitted))
    {
      StartScan(permitted);
    }

    /** The lifecycle's pause hook: exactly one `stopScan`, roster untouched. */
    method OnPause(permitted: bool)
      modifies this`scannerCalls
      ensures State() == Handle(old(State()), scanner, Pause(permitted))
    {
      StopScan(permitted);
    }
  }
}
