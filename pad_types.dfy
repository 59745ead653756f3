// Values, constants and the two collaborator objects that the controller-port
// manager works with: a Pad (the per-port state) and a pad handler (a device
// backend).  Constants follow the Cell pad interface.

module PadTypes {

  const U32Modulus: nat := 0x1_0000_0000
  type u8 = x: int | 0 <= x < 0x100
  type u16 = x: int | 0 <= x < 0x1_0000
  type u32 = x: int | 0 <= x < 0x1_0000_0000

  /** CELL_PAD_MAX_PORT_NUM: the number of controller ports. */
  const NumPorts: nat := 7

  // Port status value of a freshly built pad.
  const StatusDisconnected: bv32 := 0x0000_0000

  // Device capability bits.
  const CapabilityPs3Conformity: bv32 := 0x0000_0001
  const CapabilityPressMode: bv32 := 0x0000_0002
  const CapabilityActuator: bv32 := 0x0000_0010

  /** The capability set a port gets when it had no pad before reconfiguration. */
  const DefaultCapability: bv32 := CapabilityPs3Conformity | CapabilityPressMode | CapabilityActuator

  // Device types.
  const DevTypeStandard: bv32 := 0

  /** The session flag in the info block telling that input is intercepted. */
  const InfoIntercepted: bv32 := 0x0000_0001

  predicate SingleBit(b: bv32) {
    b != 0 && b & (b - 1) == 0
  }

  lemma CapabilityBitsDistinct()
    ensures SingleBit(CapabilityPs3Conformity) && SingleBit(CapabilityPressMode) && SingleBit(CapabilityActuator)
    ensures CapabilityPs3Conformity & CapabilityPressMode == 0
    ensures CapabilityPs3Conformity & CapabilityActuator == 0
    ensures CapabilityPressMode & CapabilityActuator == 0
    ensures SingleBit(InfoIntercepted)
  {
  }

  /** The backend kinds, in the order of their enumeration (which is also the
      iteration order of the handler map). */
  datatype PadHandlerKind = Null | Keyboard | Ds3 | Ds4 | XInput | Mm | Evdev

  const KindOrder: seq<PadHandlerKind> := [Null, Keyboard, Ds3, Ds4, XInput, Mm, Evdev]

  lemma KindOrderComplete(k: PadHandlerKind)
    ensures k in KindOrder
  {
  }

  /** The key order lists every kind exactly once. */
  lemma KindOrderOnce(k: PadHandlerKind)
    ensures multiset(KindOrder)[k] == 1
  {
  }

  /** The compile-time platform switches that decide which backends exist. */
  datatype Platform = Platform(win32: bool, libevdev: bool)

  /** A kind is supported when the reconfiguration either finds it already
      registered (the null handler always is) or has a switch case building it. */
  predicate Supported(k: PadHandlerKind, platform: Platform) {
    && (k == XInput || k == Mm ==> platform.win32)
    && (k == Evdev ==> platform.libevdev)
  }

  /** One player's entry of the input configuration profile. */
  datatype PlayerConfig = PlayerConfig(handler: PadHandlerKind, device: string)

  /** What the reconfiguration demands of a loaded profile: one entry per port,
      each naming a backend this platform can build. */
  predicate ValidConfig(cfg: seq<PlayerConfig>, platform: Platform) {
    |cfg| == NumPorts && forall i :: 0 <= i < |cfg| ==> Supported(cfg[i].handler, platform)
  }

  /** The aggregate info block. */
  datatype PadInfo = PadInfo(nowConnect: u32, systemInfo: bv32)

  /** The snapshot of a port taken before reconfiguration. */
  datatype PadSetting = PadSetting(portStatus: bv32, capability: bv32, deviceType: bv32)

  const DefaultSetting: PadSetting := PadSetting(StatusDisconnected, DefaultCapability, DevTypeStandard)

  datatype VibrateMotor = VibrateMotor(isLargeMotor: bool, value: u16)

  /** The per-port state, shared by reference between the manager and the
      backend bound to it. */
  class Pad {
    var status: bv32
    var capability: bv32
    var deviceType: bv32
    var motors: seq<VibrateMotor>

    constructor (portStatus: bv32, deviceCapability: bv32, devType: bv32)
      ensures status == portStatus && capability == deviceCapability && deviceType == devType
      ensures motors == []
    {
      status := portStatus;
      capability := deviceCapability;
      deviceType := devType;
      motors := [];
    }
  }

  /** A backend instance: its kind and its count of connected devices. */
  class PadHandler {
    const kind: PadHandlerKind
    var connected: nat

    constructor (k: PadHandlerKind)
      ensures kind == k && connected == 0
    {
      kind := k;
      connected := 0;
    }

    /** One poll step of the backend; the device I/O is outside the model and
        only its outcome, the new connected count, is an input. */
    method ThreadProc(polled: nat)
      modifies this
      ensures connected == polled
    {
      connected := polled;
    }
  }

  /** Does binding `device` through a backend of kind `k` succeed?  The null
      backend accepts every device; the others ask the oracle. */
  predicate Binds(bindOk: (PadHandlerKind, string) -> bool, k: PadHandlerKind, device: string) {
    k == Null || bindOk(k, device)
  }

  /** The kind of the backend that ends up holding port `i`: the configured one
      when its bind succeeds, the null backend otherwise. */
  function BoundKind(cfg: seq<PlayerConfig>, bindOk: (PadHandlerKind, string) -> bool, i: nat): (k: PadHandlerKind)
    requires i < |cfg|
    ensures k == cfg[i].handler || k == Null
    ensures k == cfg[i].handler <==> Binds(bindOk, cfg[i].handler, cfg[i].device)
  {
    if Binds(bindOk, cfg[i].handler, cfg[i].device) then cfg[i].handler else Null
  }

  /** The kinds configured for the first `n` ports. */
  function ConfiguredKinds(cfg: seq<PlayerConfig>, n: nat): (ks: set<PadHandlerKind>)
    requires n <= |cfg|
    ensures forall i :: 0 <= i < n ==> cfg[i].handler in ks
  {
    set i | 0 <= i < n :: cfg[i].handler
  }

  /** std::map::emplace: inserts `v` at `k` unless `k` is already present, in
      which case the map is returned unchanged. */
  function Emplace<K, V>(m: map<K, V>, k: K, v: V): (r: map<K, V>)
    ensures r.Keys == m.Keys + {k}
    ensures forall k' :: k' in m ==> r[k'] == m[k']
    ensures k !in m ==> r[k] == v
  {
    if k in m then m else m[k := v]
  }

  /** The intercepted flag set or cleared in `info`. */
  function WithIntercepted(info: bv32, intercepted: bool): (r: bv32)
    ensures (r & InfoIntercepted != 0) == intercepted
    ensures r & !InfoIntercepted == info & !InfoIntercepted
  {
    if intercepted then info | InfoIntercepted else info & !InfoIntercepted
  }

  lemma WithInterceptedIdempotent(info: bv32, intercepted: bool)
    ensures WithIntercepted(WithIntercepted(info, intercepted), intercepted) == WithIntercepted(info, intercepted)
  {
  }

  /** The motors after a rumble request: with at least two motors, the first
      takes the large motor's intensity and the second is fully on or off. */
  function Rumbled(motors: seq<VibrateMotor>, largeMotor: u8, smallMotor: bool): (r: seq<VibrateMotor>)
    ensures |r| == |motors|
    ensures |motors| < 2 ==> r == motors
    ensures |motors| >= 2 ==> r[0].value == largeMotor && r[1].value == (if smallMotor then 255 else 0)
    ensures forall j :: 0 <= j < |r| ==> r[j].isLargeMotor == motors[j].isLargeMotor
    ensures forall j :: 2 <= j < |r| ==> r[j] == motors[j]
  {
    if |motors| >= 2 then
      motors[0 := motors[0].(value := largeMotor)][1 := motors[1].(value := if smallMotor then 255 else 0)]
    else motors
  }

  /** The rumble index guard as written: it rejects only indices above the
      number of ports. */
  predicate RumbleGuardAsWritten(pad: u32) {
    !(pad > NumPorts)
  }

  /** The guard that keeps the index inside the port array. */
  predicate RumbleGuardCorrected(pad: u32) {
    !(pad >= NumPorts)
  }

  lemma RumbleGuardCorrectedInBounds(pad: u32)
    ensures RumbleGuardCorrected(pad) <==> pad < NumPorts
    ensures RumbleGuardCorrected(pad) ==> RumbleGuardAsWritten(pad)
    ensures RumbleGuardAsWritten(pad) && !RumbleGuardCorrected(pad) <==> pad == NumPorts
  {
  }

  /** The sum of the connected counts reported by the registered kinds, taken
      in the order `order`. */
  function ConnectedSum(order: seq<PadHandlerKind>, keys: set<PadHandlerKind>, polled: PadHandlerKind -> nat): nat {
    if order == [] then 0
    else ConnectedSum(order[..|order| - 1], keys, polled)
         + (if order[|order| - 1] in keys then polled(order[|order| - 1]) else 0)
  }

  /** Only the registered kinds contribute to the sum. */
  lemma {:induction false} ConnectedSumOnlyKeys(order: seq<PadHandlerKind>, keys: set<PadHandlerKind>, p1: PadHandlerKind -> nat, p2: PadHandlerKind -> nat)
    requires forall k :: k in keys ==> p1(k) == p2(k)
    ensures ConnectedSum(order, keys, p1) == ConnectedSum(order, keys, p2)
  {
    if order != [] {
      ConnectedSumOnlyKeys(order[..|order| - 1], keys, p1, p2);
    }
  }

  /** With a single registered kind that occurs once in the order, the sum is
      that kind's count. */
  lemma {:induction false} ConnectedSumSingle(order: seq<PadHandlerKind>, k: PadHandlerKind, polled: PadHandlerKind -> nat)
    requires multiset(order)[k] <= 1
    ensures ConnectedSum(order, {k}, polled) == if k in order then polled(k) else 0
  {
    if order != [] {
      var init, last := order[..|order| - 1], order[|order| - 1];
      assert order == init + [last];
      assert multiset(order) == multiset(init) + multiset{last};
      ConnectedSumSingle(init, k, polled);
      if last == k {
        assert k !in init;
      }
    }
  }

  /** Registering one more kind that occurs at most once in the order adds
      exactly that kind's count. */
  lemma {:induction false} ConnectedSumInsert(order: seq<PadHandlerKind>, keys: set<PadHandlerKind>,
                                              k: PadHandlerKind, polled: PadHandlerKind -> nat)
    requires k !in keys && multiset(order)[k] <= 1
    ensures ConnectedSum(order, keys + {k}, polled)
            == ConnectedSum(order, keys, polled) + (if k in order then polled(k) else 0)
  {
    if order != [] {
      var init, last := order[..|order| - 1], order[|order| - 1];
      assert order == init + [last];
      assert multiset(order) == multiset(init) + multiset{last};
      ConnectedSumInsert(init, keys, k, polled);
      if last == k {
        assert k !in init;
      }
    }
  }

  /** Over the registry's key order, registering one more kind adds exactly
      that kind's count: every registered backend is counted once. */
  lemma RegistrySumInsert(keys: set<PadHandlerKind>, k: PadHandlerKind, polled: PadHandlerKind -> nat)
    requires k !in keys
    ensures ConnectedSum(KindOrder, keys + {k}, polled) == ConnectedSum(KindOrder, keys, polled) + polled(k)
  {
    KindOrderOnce(k);
    KindOrderComplete(k);
    ConnectedSumInsert(KindOrder, keys, k, polled);
  }

  /** With nothing registered, the sum is zero. */
  lemma {:induction false} ConnectedSumNoKeys(order: seq<PadHandlerKind>, polled: PadHandlerKind -> nat)
    ensures ConnectedSum(order, {}, polled) == 0
  {
    if order != [] {
      ConnectedSumNoKeys(order[..|order| - 1], polled);
    }
  }

  /** The total connected count the backends registered under `ks` report,
      with no order imposed. */
  ghost function RegisteredConnected(hs: map<PadHandlerKind, PadHandler>, ks: set<PadHandlerKind>): nat
    requires ks <= hs.Keys
    reads hs.Values
    decreases ks
  {
    if ks == {} then 0
    else
      var k :| k in ks;
      hs[k].connected + RegisteredConnected(hs, ks - {k})
  }

  /** When every registered backend reports its polled count, the sum over the
      registry's key order is the backends' own total: each backend is counted
      once, whatever the order. */
  lemma {:induction false} KeyOrderSumIsRegisteredTotal(hs: map<PadHandlerKind, PadHandler>, ks: set<PadHandlerKind>,
                                                        polled: PadHandlerKind -> nat)
    requires ks <= hs.Keys
    requires forall k :: k in ks ==> hs[k].connected == polled(k)
    ensures ConnectedSum(KindOrder, ks, polled) == RegisteredConnected(hs, ks)
    decreases ks
  {
    if ks == {} {
      ConnectedSumNoKeys(KindOrder, polled);
    } else {
      var k :| k in ks && RegisteredConnected(hs, ks) == hs[k].connected + RegisteredConnected(hs, ks - {k});
      KeyOrderSumIsRegisteredTotal(hs, ks - {k}, polled);
      RegistrySumInsert(ks - {k}, k, polled);
      assert ks - {k} + {k} == ks;
    }
  }

  /** A profile that puts the null backend on every port registers the null
      backend alone, and the polled count is the null backend's. */
  lemma NullProfile(cfg: seq<PlayerConfig>, polled: PadHandlerKind -> nat)
    requires |cfg| == NumPorts && forall i :: 0 <= i < NumPorts ==> cfg[i].handler == Null
    ensures {Null} + ConfiguredKinds(cfg, NumPorts) == {Null}
    ensures ConnectedSum(KindOrder, {Null} + ConfiguredKinds(cfg, NumPorts), polled) == polled(Null)
  {
    assert multiset(KindOrder)[Null] == 1;
    ConnectedSumSingle(KindOrder, Null, polled);
  }

  lemma ModAddRight(a: nat, c: nat)
    ensures (a % U32Modulus + c) % U32Modulus == (a + c) % U32Modulus
  {
    var q := a / U32Modulus;
    assert a == q * U32Modulus + a % U32Modulus;
    assert a + c == q * U32Modulus + (a % U32Modulus + c);
  }
}
