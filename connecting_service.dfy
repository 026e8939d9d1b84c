/**
 * The connection-target state of `ConnectingService`: the peripheral it is
 * currently asked to connect to, its single selection-listener slot, and the
 * callbacks that listener receives.
 */
module Service {
  import opened Wrappers
  import opened Peripherals

  /** Identity of a `BluetoothPeripheralSelectedListener` object. */
  type ListenerId = nat

  /** A callback delivered to a listener: `onBluetoothPeripheralSelected` or `onBluetoothPeripheralUnselected`. */
  datatype Callback = Selected(listener: ListenerId, peripheral: Peripheral) | Unselected(listener: ListenerId)

  /** What `onStartCommand` tells the platform to do if the service's process is killed. */
  datatype StartMode = StartNotSticky | StartRedeliverIntent {
    /** The platform's numeric value of the constant. */
    function Code(): int {
      match this
      case StartNotSticky => 2
      case StartRedeliverIntent => 3
    }
  }

  /**
   * The service's state: the target, the listener slot, whether it runs in
   * the foreground, and every callback delivered so far, oldest first.
   */
  datatype ServiceState = ServiceState(
    target: Option<Peripheral>,
    listener: Option<ListenerId>,
    foreground: bool,
    callbacks: seq<Callback>)

  /** Both fields start out null; nothing has been delivered yet. */
  function Initial(): ServiceState {
    ServiceState(None, None, false, [])
  }

  /** The entry points that change the state. */
  datatype Command =
    | StartCommand(payload: Option<Peripheral>)
    | SetListener(newListener: Option<ListenerId>)
    | Unbind

  /** The callback `onStartCommand` sends for a new target: to the registered listener only. */
  function Notify(listener: Option<ListenerId>, target: Option<Peripheral>): (r: seq<Callback>)
    ensures listener.None? ==> r == []
    ensures listener.Some? && target.None? ==> r == [Unselected(listener.value)]
    ensures listener.Some? && target.Some? ==> r == [Selected(listener.value, target.value)]
  {
    match listener
    case None => []
    case Some(l) =>
      match target
      case None => [Unselected(l)]
      case Some(p) => [Selected(l, p)]
  }

  /** The callback a newly set listener receives: the current target, if there is one. */
  function Replay(listener: Option<ListenerId>, target: Option<Peripheral>): (r: seq<Callback>)
    ensures r != [] <==> listener.Some? && target.Some?
    ensures r != [] ==> r == [Selected(listener.value, target.value)]
  {
    match (listener, target)
    case (Some(l), Some(p)) => [Selected(l, p)]
    case _ => []
  }

  /** The start mode `onStartCommand` returns for a payload. */
  function StartModeFor(payload: Option<Peripheral>): (m: StartMode)
    ensures m.Code() == if payload.None? then 2 else 3
  {
    if payload.None? then StartNotSticky else StartRedeliverIntent
  }

  /** One command applied to the state. */
  function Apply(s: ServiceState, c: Command): (r: ServiceState)
    ensures |s.callbacks| <= |r.callbacks| <= |s.callbacks| + 1
    ensures r.callbacks[..|s.callbacks|] == s.callbacks
    ensures forall k :: |s.callbacks| <= k < |r.callbacks| ==> r.listener == Some(r.callbacks[k].listener)
  {
    match c
    case StartCommand(payload) =>
      s.(target := payload, foreground := payload.Some?, callbacks := s.callbacks + Notify(s.listener, payload))
    case SetListener(l) =>
      s.(listener := l, callbacks := s.callbacks + Replay(l, s.target))
    case Unbind =>
      s.(listener := None)
  }

  /** A sequence of commands, applied in order. */
  function Run(s: ServiceState, cs: seq<Command>): (r: ServiceState)
    decreases |cs|
  {
    if cs == [] then s else Apply(Run(s, cs[..|cs| - 1]), cs[|cs| - 1])
  }

  // ---------------------------------------------------------------------------
  // Single commands
  // ---------------------------------------------------------------------------

  /**
   * An absent payload clears the target, leaves the foreground, sends
   * `Unselected` to the registered listener if any, and does not ask to be restarted.
   */
  lemma StartWithoutPayload(s: ServiceState)
    ensures Apply(s, StartCommand(None)) ==
      s.(target := None, foreground := false,
         callbacks := s.callbacks + if s.listener.Some? then [Unselected(s.listener.value)] else [])
    ensures StartModeFor(None) == StartNotSticky
  {
  }

  /**
   * A payload `p` becomes the target, the service enters the foreground,
   * the registered listener if any is sent `Selected(p)`, and the intent is to be redelivered.
   */
  lemma StartWithPayload(s: ServiceState, p: Peripheral)
    ensures Apply(s, StartCommand(Some(p))) ==
      s.(target := Some(p), foreground := true,
         callbacks := s.callbacks + if s.listener.Some? then [Selected(s.listener.value, p)] else [])
    ensures StartModeFor(Some(p)) == StartRedeliverIntent
  {
  }

  /** With no listener registered, `onStartCommand` delivers nothing, whatever the payload. */
  lemma StartWithoutListenerIsSilent(s: ServiceState, payload: Option<Peripheral>)
    requires s.listener.None?
    ensures Apply(s, StartCommand(payload)).callbacks == s.callbacks
  {
  }

  /**
   * Setting a listener replaces the slot and leaves the target; the new
   * listener gets exactly one `Selected(target)` when both are non-null, and nothing otherwise.
   */
  lemma SetListenerReplays(s: ServiceState, l: Option<ListenerId>)
    ensures Apply(s, SetListener(l)).listener == l
    ensures Apply(s, SetListener(l)).target == s.target
    ensures Apply(s, SetListener(l)).callbacks ==
      s.callbacks + if l.Some? && s.target.Some? then [Selected(l.value, s.target.value)] else []
  {
  }

  /** Unbinding clears the listener only; a listener set afterwards is still told the held target. */
  lemma UnbindThenSetListener(s: ServiceState, l: ListenerId)
    ensures Apply(s, Unbind) == s.(listener := None)
    ensures Apply(Apply(s, Unbind), SetListener(Some(l))).target == s.target
    ensures Apply(Apply(s, Unbind), SetListener(Some(l))).callbacks ==
      s.callbacks + if s.target.Some? then [Selected(l, s.target.value)] else []
  {
  }

  // ---------------------------------------------------------------------------
  // Sequences of commands
  // ---------------------------------------------------------------------------

  /** Running two command sequences one after the other is running their concatenation. */
  lemma {:induction false} RunAppend(s: ServiceState, a: seq<Command>, b: seq<Command>)
    ensures Run(s, a + b) == Run(Run(s, a), b)
    decreases |b|
  {
    if b == [] {
      assert a + b == a;
    } else {
      var b' := b[..|b| - 1];
      assert (a + b)[..|a + b| - 1] == a + b';
      assert (a + b)[|a + b| - 1] == b[|b| - 1];
      RunAppend(s, a, b');
    }
  }

  /** Callbacks are only ever appended, at most one per command. */
  lemma {:induction false} RunExtendsCallbacks(s: ServiceState, cs: seq<Command>)
    ensures |s.callbacks| <= |Run(s, cs).callbacks| <= |s.callbacks| + |cs|
    ensures Run(s, cs).callbacks[..|s.callbacks|] == s.callbacks
    decreases |cs|
  {
    if cs != [] {
      var init := cs[..|cs| - 1];
      RunExtendsCallbacks(s, init);
      var mid := Run(s, init);
      var r := Apply(mid, cs[|cs| - 1]);
      assert r.callbacks[..|mid.callbacks|] == mid.callbacks;
      assert r.callbacks[..|s.callbacks|] == r.callbacks[..|mid.callbacks|][..|s.callbacks|];
    }
  }

  /**
   * A listener that is not in the slot, and is not set again, receives no
   * further callback: callbacks go only to the listener currently registered.
   */
  lemma {:induction false} FormerListenerHearsNothing(s: ServiceState, cs: seq<Command>, l: ListenerId)
    requires s.listener != Some(l)
    requires forall k :: 0 <= k < |cs| ==> cs[k] != SetListener(Some(l))
    ensures Run(s, cs).listener != Some(l)
    ensures forall k :: |s.callbacks| <= k < |Run(s, cs).callbacks| ==> Run(s, cs).callbacks[k].listener != l
    decreases |cs|
  {
    if cs != [] {
      var init := cs[..|cs| - 1];
      FormerListenerHearsNothing(s, init, l);
      RunExtendsCallbacks(s, init);
      var mid := Run(s, init);
      var r := Apply(mid, cs[|cs| - 1]);
      forall k | |s.callbacks| <= k < |r.callbacks| ensures r.callbacks[k].listener != l {
        if k < |mid.callbacks| {
          assert r.callbacks[k] == r.callbacks[..|mid.callbacks|][k];
        }
      }
    }
  }

  /** Only `onStartCommand` changes the target. */
  lemma {:induction false} TargetKeptWithoutStart(s: ServiceState, cs: seq<Command>)
    requires forall k :: 0 <= k < |cs| ==> !cs[k].StartCommand?
    ensures Run(s, cs).target == s.target
    decreases |cs|
  {
    if cs != [] {
      TargetKeptWithoutStart(s, cs[..|cs| - 1]);
    }
  }

  /** The target is the payload of the last `onStartCommand`, whatever listeners came and went after it. */
  lemma TargetIsLastPayload(s: ServiceState, cs: seq<Command>, k: nat)
    requires k < |cs| && cs[k].StartCommand?
    requires forall j :: k < j < |cs| ==> !cs[j].StartCommand?
    ensures Run(s, cs).target == cs[k].payload
  {
    var a, b := cs[..k + 1], cs[k + 1..];
    assert cs == a + b;
    RunAppend(s, a, b);
    assert a[..|a| - 1] == cs[..k];
    forall j | 0 <= j < |b| ensures !b[j].StartCommand? {
      assert b[j] == cs[k + 1 + j];
    }
    TargetKeptWithoutStart(Run(s, a), b);
  }

  /**
   * Recovery: a service started with a payload and then bound delivers
   * exactly one `Selected` for that payload to the new listener.
   */
  lemma RecoveredTargetIsReplayed(p: Peripheral, l: ListenerId)
    ensures Run(Initial(), [StartCommand(Some(p)), SetListener(Some(l))]).target == Some(p)
    ensures Run(Initial(), [StartCommand(Some(p)), SetListener(Some(l))]).callbacks == [Selected(l, p)]
  {
    var cs := [StartCommand(Some(p)), SetListener(Some(l))];
    assert cs[..1] == [StartCommand(Some(p))] && cs[..1][..0] == [];
    assert Run(Initial(), cs[..1]) == Apply(Initial(), StartCommand(Some(p)));
    assert Run(Initial(), cs) == Apply(Apply(Initial(), StartCommand(Some(p))), SetListener(Some(l)));
  }

  /** A service started without a payload never holds a target, so a listener bound afterwards hears nothing. */
  lemma MissingTargetIsNotReplayed(l: ListenerId)
    ensures Run(Initial(), [StartCommand(None), SetListener(Some(l))]).target == None
    ensures Run(Initial(), [StartCommand(None), SetListener(Some(l))]).callbacks == []
  {
    var cs := [StartCommand(None), SetListener(Some(l))];
    assert cs[..1] == [StartCommand(None)] && cs[..1][..0] == [];
    assert Run(Initial(), cs[..1]) == Apply(Initial(), StartCommand(None));
    assert Run(Initial(), cs) == Apply(Apply(Initial(), StartCommand(None)), SetListener(Some(l)));
  }

  /** Detach, then clear the target, then attach: the target is null and nobody is called back. */
  lemma DetachClearAttach(s: ServiceState, l: ListenerId)
    ensures Run(s, [Unbind, StartCommand(None), SetListener(Some(l))]).target == None
    ensures Run(s, [Unbind, StartCommand(None), SetListener(Some(l))]).callbacks == s.callbacks
  {
    var cs := [Unbind, StartCommand(None), SetListener(Some(l))];
    assert cs[..2] == [Unbind, StartCommand(None)];
    assert cs[..2][..1] == [Unbind] && cs[..2][..1][..0] == [];
    assert Run(s, cs[..2][..1]) == Apply(s, Unbind);
    assert Run(s, cs[..2]) == Apply(Apply(s, Unbind), StartCommand(None));
    assert Run(s, cs) == Apply(Apply(Apply(s, Unbind), StartCommand(None)), SetListener(Some(l)));
  }

  class ConnectingService {
    /** The current connection target. */
    var bluetoothPeripheral: Option<Peripheral>
    /** The single listener slot. */
    var selectedListener: Option<ListenerId>
    /** Whether the service runs in the foreground with its notification shown. */
    ghost var foreground: bool
    /** Every callback delivered to a listener so far. */
    ghost var callbacks: seq<Callback>

    ghost function State(): ServiceState
      reads this
    {
      ServiceState(bluetoothPeripheral, selectedListener, foreground, callbacks)
    }

    /** Both fields start out null. */
    constructor ()
      ensures State() == Initial()
    {
      bluetoothPeripheral := None;
      selectedListener := None;
      foreground := false;
      callbacks := [];
    }

    /**
     * `onStartCommand`: the intent's peripheral extra (absent when the
     * intent or the extra is null) becomes the target and the listener is told.
     */
    method OnStartCommand(payload: Option<Peripheral>, flags: int, startId: int) returns (mode: StartMode)
      modifies this
      ensures bluetoothPeripheral == payload && selectedListener == old(selectedListener)
      ensures State() == Apply(old(State()), StartCommand(payload))
      ensures mode == StartModeFor(payload)
    {
      bluetoothPeripheral := payload;
      if bluetoothPeripheral.None? {
        if selectedListener.Some? {
          callbacks := callbacks + [Unselected(selectedListener.value)];
        }
        foreground := false;
        return StartNotSticky;
      }
      if selectedListener.Some? {
        callbacks := callbacks + [Selected(selectedListener.value, bluetoothPeripheral.value)];
      }
      foreground := true;
      return StartRedeliverIntent;
    }

    /** Replaces the listener and replays the current target to it. */
    method SetBluetoothPeripheralSelectedListener(listener: Option<ListenerId>)
      modifies this
      ensures selectedListener == listener && bluetoothPeripheral == old(bluetoothPeripheral)
      ensures State() == Apply(old(State()), SetListener(listener))
    {
      selectedListener := listener;
      if bluetoothPeripheral.Some? && selectedListener.Some? {
        callbacks := callbacks + [Selected(selectedListener.value, bluetoothPeripheral.value)];
      }
    }

    /** `onUnbind`: clears the listener only, and asks for `onRebind` on a later bind. */
    method OnUnbind() returns (rebind: bool)
      modifies this
      ensures rebind
      ensures selectedListener.None? && bluetoothPeripheral == old(bluetoothPeripheral)
      ensures State() == Apply(old(State()), Unbind)
    {
      selectedListener := None;
      return true;
    }
  }
}
