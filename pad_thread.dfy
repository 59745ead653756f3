// The controller-port manager: the port array, the backend registry, the
// aggregate info block and the control flags, with the reconfiguration
// procedure, the control calls and one iteration of the polling loop, each an
// atomic sequential step.

module PadThreadCore {
  import opened PadTypes

  /** The setting a port contributes to the reconfiguration snapshot. */
  function Snapshot(p: Pad?): (s: PadSetting)
    reads p
  {
    if p == null then DefaultSetting else PadSetting(p.status, p.capability, p.deviceType)
  }

  /** A pad as the reconfiguration builds it from the port's snapshot `s`:
      disconnected, with the snapshot's capability and device type, and no
      motors. */
  predicate BuiltFrom(p: Pad, s: PadSetting)
    reads p
  {
    && p.status == StatusDisconnected
    && p.capability == s.capability
    && p.deviceType == s.deviceType
    && p.motors == []
  }

  /** Fills `pads[i]` with a fresh pad built from the port's snapshot. */
  method BuildPad(pads: array<Pad?>, i: nat, s: PadSetting)
    requires i < pads.Length
    modifies pads
    ensures pads[i] != null && fresh(pads[i]) && BuiltFrom(pads[i], s)
    ensures forall j :: 0 <= j < pads.Length && j != i ==> pads[j] == old(pads[j])
  {
    pads[i] := new Pad(StatusDisconnected, s.capability, s.deviceType);
  }

  /** The per-port pass of the reconfiguration: the null backend first, then
      for each port the backend of its kind (created on first use), a fresh
      pad built from the port's snapshot, and the bind with its fallback to
      the null backend.  Returns the registry and the backend claiming each
      port. */
  method BuildPorts(pads: array<Pad?>, cfg: seq<PlayerConfig>, bindOk: (PadHandlerKind, string) -> bool,
                    settings: seq<PadSetting>, platform: Platform)
      returns (registry: map<PadHandlerKind, PadHandler>, bound: seq<PadHandler>)
    requires pads.Length == NumPorts && ValidConfig(cfg, platform) && |settings| == NumPorts
    modifies pads
    ensures Null in registry
    ensures forall j :: 0 <= j < NumPorts ==> cfg[j].handler in registry
    ensures forall k :: k in registry ==> k == Null || k in ConfiguredKinds(cfg, NumPorts)
    ensures forall k :: k in registry ==> fresh(registry[k]) && registry[k].kind == k
    ensures |bound| == NumPorts
    ensures forall j :: 0 <= j < NumPorts ==>
              BoundKind(cfg, bindOk, j) in registry && bound[j] == registry[BoundKind(cfg, bindOk, j)]
    ensures forall j :: 0 <= j < NumPorts ==> pads[j] != null && fresh(pads[j]) && BuiltFrom(pads[j], settings[j])
    ensures forall j, j' :: 0 <= j < j' < NumPorts ==> pads[j] != pads[j']
  {
    registry := map[];
    bound := [];

    // The null backend is always registered first.
    var nullpad := new PadHandler(Null);
    registry := Emplace(registry, Null, nullpad);

    var i := 0;
    while i < NumPorts
      invariant 0 <= i <= NumPorts
      invariant Null in registry && registry[Null] == nullpad
      invariant forall j :: 0 <= j < i ==> cfg[j].handler in registry
      // The registry facts are stated per position of the kind enumeration,
      // which bounds them to the seven kinds.
      invariant forall t :: 0 <= t < |KindOrder| && KindOrder[t] in registry ==>
                  && (KindOrder[t] == Null || KindOrder[t] in ConfiguredKinds(cfg, i))
                  && fresh(registry[KindOrder[t]]) && registry[KindOrder[t]].kind == KindOrder[t]
      invariant |bound| == i
      invariant forall j :: 0 <= j < i ==>
                  BoundKind(cfg, bindOk, j) in registry && bound[j] == registry[BoundKind(cfg, bindOk, j)]
      invariant forall j :: 0 <= j < i ==> pads[j] != null && fresh(pads[j]) && BuiltFrom(pads[j], settings[j])
      invariant forall j, j' :: 0 <= j < j' < i ==> pads[j] != pads[j']
    {
      var kind := cfg[i].handler;
      var h: PadHandler;
      if kind in registry {
        h := registry[kind];
      } else {
        // Every configured kind has a case on this platform, so the switch's
        // default (which would register no backend) is not taken.
        assert Supported(kind, platform);
        h := new PadHandler(kind);
        registry := Emplace(registry, kind, h);
      }

      BuildPad(pads, i, settings[i]);

      // When the bind fails, the null backend, which accepts every device,
      // claims the pad instead.
      bound := bound + [if Binds(bindOk, kind, cfg[i].device) then h else nullpad];
      i := i + 1;
    }
    forall k | k in registry
      ensures k == Null || k in ConfiguredKinds(cfg, NumPorts)
      ensures fresh(registry[k]) && registry[k].kind == k
    {
      KindOrderComplete(k);
    }
  }

  class PadThread {
    const platform: Platform
    /** The port array; a slot is null until the first reconfiguration fills it. */
    const pads: array<Pad?>
    /** The backend registry, one instance per kind. */
    var handlers: map<PadHandlerKind, PadHandler>
    /** For each port, the backend instance that claimed its pad. */
    var boundTo: seq<PadHandler>
    var info: PadInfo
    /** The one-shot reconfiguration request. */
    var reset: bool
    /** The polling thread is running. */
    var active: bool
    /** Polling may progress. */
    var isEnabled: bool
    /** The session identity that selects the configuration profile. */
    var titleId: string
    /** How many reconfigurations have run. */
    ghost var reconfigurations: nat

    ghost predicate Valid()
      reads this`handlers, this`boundTo, pads
    {
      && pads.Length == NumPorts
      && (forall i, j :: 0 <= i < j < NumPorts && pads[i] != null ==> pads[i] != pads[j])
      && (forall k :: k in handlers ==> handlers[k].kind == k)
      && (forall i :: 0 <= i < |boundTo| ==> boundTo[i] in handlers.Values)
    }

    /** The state every reconfiguration leaves: the null backend is registered
        and every slot holds a pad. */
    ghost predicate Ready()
      reads this`handlers, this`boundTo, pads
    {
      && Valid() && Null in handlers && |boundTo| == NumPorts
      && forall i :: 0 <= i < NumPorts ==> pads[i] != null
    }

    /** What a reconfiguration with profile `cfg` does, relative to the state
        before it: fresh disconnected pads that keep the old capability and
        device type (or take the defaults for an empty slot), a fresh registry
        holding the null backend and one backend per configured kind, every port
        held by the backend of its configured kind when the bind succeeded and
        by the null backend otherwise. */
    twostate predicate Reconfigured(cfg: seq<PlayerConfig>, bindOk: (PadHandlerKind, string) -> bool)
      requires |cfg| == NumPorts
      reads this`handlers, this`boundTo, pads, pads[..]
    {
      && Ready()
      && (forall i :: 0 <= i < NumPorts ==> fresh(pads[i]) && BuiltFrom(pads[i], old(Snapshot(pads[i]))))
      && handlers.Keys == {Null} + ConfiguredKinds(cfg, NumPorts)
      && (forall k :: k in handlers ==> fresh(handlers[k]))
      && (forall i :: 0 <= i < NumPorts ==>
            BoundKind(cfg, bindOk, i) in handlers && boundTo[i] == handlers[BoundKind(cfg, bindOk, i)])
    }

    /** Builds the manager for session `title`: flags cleared, polling
        enabled, and a first reconfiguration over empty slots. */
    constructor (title: string, platform0: Platform, load: string -> seq<PlayerConfig>,
                 bindOk: (PadHandlerKind, string) -> bool)
      requires ValidConfig(load(title), platform0)
      ensures Ready() && fresh(pads)
      ensures forall i :: 0 <= i < NumPorts ==>
                pads[i].status == StatusDisconnected && pads[i].capability == DefaultCapability
                && pads[i].deviceType == DevTypeStandard
      ensures handlers.Keys == {Null} + ConfiguredKinds(load(title), NumPorts)
      ensures forall i :: 0 <= i < NumPorts ==>
                BoundKind(load(title), bindOk, i) in handlers
                && boundTo[i] == handlers[BoundKind(load(title), bindOk, i)]
      ensures info == PadInfo(0, 0)
      ensures titleId == title && platform == platform0
      ensures !reset && !active && isEnabled && reconfigurations == 1
      ensures forall i :: 0 <= i < NumPorts ==> fresh(pads[i])
      ensures forall k :: k in handlers ==> fresh(handlers[k])
    {
      platform := platform0;
      pads := new Pad?[NumPorts](_ => null);
      handlers := map[];
      boundTo := [];
      info := PadInfo(0, 0);
      reset, active, isEnabled := false, false, true;
      titleId := title;
      reconfigurations := 0;
      new;
      Init(load, bindOk);
    }

    /** The reconfiguration procedure. */
    method Init(load: string -> seq<PlayerConfig>, bindOk: (PadHandlerKind, string) -> bool)
      requires Valid()
      requires ValidConfig(load(titleId), platform)
      modifies this, pads
      ensures titleId == old(titleId)
      ensures reset == old(reset) && active == old(active) && isEnabled == old(isEnabled)
      ensures Reconfigured(load(titleId), bindOk)
      ensures info == PadInfo(0, old(info.systemInfo))
      ensures reconfigurations == old(reconfigurations) + 1
    {
      // Cache the old settings.
      var settings := SnapshotSettings();

      // Clear the info block, keeping the session flags.
      var systemInfo := info.systemInfo;
      info := PadInfo(0, 0);
      info := info.(nowConnect := 0);
      info := info.(systemInfo := info.systemInfo | systemInfo);

      var cfg := load(titleId);
      RebuildRegistry(cfg, bindOk, settings);
      reconfigurations := reconfigurations + 1;
    }

    /** The snapshot of every port, in port order. */
    method SnapshotSettings() returns (settings: seq<PadSetting>)
      requires Valid()
      ensures |settings| == NumPorts
      ensures forall j :: 0 <= j < NumPorts ==> settings[j] == Snapshot(pads[j])
    {
      settings := [];
      var i := 0;
      while i < NumPorts
        invariant 0 <= i <= NumPorts
        invariant |settings| == i
        invariant forall j :: 0 <= j < i ==> settings[j] == Snapshot(pads[j])
      {
        if pads[i] == null {
          settings := settings + [DefaultSetting];
        } else {
          settings := settings + [PadSetting(pads[i].status, pads[i].capability, pads[i].deviceType)];
        }
        i := i + 1;
      }
    }

    /** Replaces the registry, the port bindings and the pads with the ones
        the per-port pass builds from profile `cfg`. */
    method RebuildRegistry(cfg: seq<PlayerConfig>, bindOk: (PadHandlerKind, string) -> bool,
                           settings: seq<PadSetting>)
      requires pads.Length == NumPorts && ValidConfig(cfg, platform) && |settings| == NumPorts
      modifies this`handlers, this`boundTo, pads
      ensures Ready()
      ensures handlers.Keys == {Null} + ConfiguredKinds(cfg, NumPorts)
      ensures forall k :: k in handlers ==> fresh(handlers[k])
      ensures forall i :: 0 <= i < NumPorts ==>
                BoundKind(cfg, bindOk, i) in handlers && boundTo[i] == handlers[BoundKind(cfg, bindOk, i)]
      ensures forall j :: 0 <= j < NumPorts ==> fresh(pads[j]) && BuiltFrom(pads[j], settings[j])
    {
      var registry, bound := BuildPorts(pads, cfg, bindOk, settings, platform);
      handlers := registry;
      boundTo := bound;
      forall i | 0 <= i < NumPorts
        ensures boundTo[i] in handlers.Values
      {
        assert boundTo[i] == handlers[BoundKind(cfg, bindOk, i)];
      }
    }

    /** The rumble index guard as written admits index 7, which is past the
        end of the port array. */
    lemma RumbleGuardAsWrittenAdmitsPastEnd()
      requires Ready()
      ensures RumbleGuardAsWritten(NumPorts) && !(NumPorts < pads.Length)
    {
    }

    /** Writes the two motor intensities of one port.  An index outside the
        port array, or a pad with fewer than two motors, leaves everything as
        it was. */
    method SetRumble(pad: u32, largeMotor: u8, smallMotor: bool)
      requires Ready()
      modifies pads[..]
      ensures forall j :: 0 <= j < NumPorts && j != pad ==> unchanged(pads[j])
      ensures pad >= NumPorts ==> unchanged(pads[..])
      ensures pad < NumPorts ==>
                && pads[pad].motors == Rumbled(old(pads[pad].motors), largeMotor, smallMotor)
                && pads[pad].status == old(pads[pad].status)
                && pads[pad].capability == old(pads[pad].capability)
                && pads[pad].deviceType == old(pads[pad].deviceType)
    {
      if !RumbleGuardCorrected(pad) {
        return;
      }
      var p := pads[pad];
      if |p.motors| >= 2 {
        p.motors := p.motors[0 := p.motors[0].(value := largeMotor)];
        p.motors := p.motors[1 := p.motors[1].(value := if smallMotor then 255 else 0)];
      }
    }

    /** Switches to session `title` and requests a reconfiguration, but only
        while the polling thread runs; otherwise any pending request is
        dropped. */
    method Reset(title: string)
      modifies this`titleId, this`reset
      ensures titleId == title && reset == active
    {
      titleId := title;
      reset := active;
    }

    method SetEnabled(enabled: bool)
      modifies this`isEnabled
      ensures isEnabled == enabled
    {
      isEnabled := enabled;
    }

    /** Sets or clears the intercepted flag of the info block. */
    method SetIntercepted(intercepted: bool)
      modifies this`info
      ensures info.nowConnect == old(info.nowConnect)
      ensures info.systemInfo == WithIntercepted(old(info.systemInfo), intercepted)
    {
      if intercepted {
        info := info.(systemInfo := info.systemInfo | InfoIntercepted);
      } else {
        info := info.(systemInfo := info.systemInfo & !InfoIntercepted);
      }
    }

    /** The start of the polling thread, which marks it running. */
    method Start()
      modifies this`active
      ensures active
    {
      active := true;
    }

    /** Polls every registered backend in key order and sums the connected
        counts they report into a 32-bit accumulator. */
    method PollHandlers(polled: PadHandlerKind -> nat) returns (connected: u32)
      requires Valid()
      modifies handlers.Values
      ensures connected == ConnectedSum(KindOrder, handlers.Keys, polled) % U32Modulus
      ensures forall k :: k in handlers ==> handlers[k].connected == polled(k)
    {
      connected := 0;
      var j := 0;
      while j < |KindOrder|
        invariant 0 <= j <= |KindOrder|
        invariant connected == ConnectedSum(KindOrder[..j], handlers.Keys, polled) % U32Modulus
        invariant forall k :: k in handlers && k in KindOrder[..j] ==> handlers[k].connected == polled(k)
      {
        var k := KindOrder[j];
        assert KindOrder[..j + 1][..j] == KindOrder[..j];
        if k in handlers {
          var h := handlers[k];
          h.ThreadProc(polled(k));
          ModAddRight(ConnectedSum(KindOrder[..j], handlers.Keys, polled), h.connected);
          connected := (connected + h.connected) % U32Modulus;
        }
        j := j + 1;
      }
      assert KindOrder[..|KindOrder|] == KindOrder;
      forall k | k in handlers ensures handlers[k].connected == polled(k) {
        KindOrderComplete(k);
      }
    }

    /** After a poll step, the published count is the total the registered
        backends themselves report, wrapped to 32 bits. */
    lemma PublishedCountIsRegisteredTotal(polled: PadHandlerKind -> nat)
      requires forall k :: k in handlers ==> handlers[k].connected == polled(k)
      requires info.nowConnect == ConnectedSum(KindOrder, handlers.Keys, polled) % U32Modulus
      ensures info.nowConnect == RegisteredConnected(handlers, handlers.Keys) % U32Modulus
    {
      KeyOrderSumIsRegisteredTotal(handlers, handlers.Keys, polled);
    }

    /** Consumes a pending reconfiguration request: the request is cleared,
        then the reconfiguration runs. */
    method ConsumeReset(load: string -> seq<PlayerConfig>, bindOk: (PadHandlerKind, string) -> bool)
      requires Valid()
      requires reset ==> ValidConfig(load(titleId), platform)
      modifies this, pads
      ensures Valid() && !reset
      ensures active == old(active) && isEnabled == old(isEnabled) && titleId == old(titleId)
      ensures reconfigurations == old(reconfigurations) + (if old(reset) then 1 else 0)
      ensures old(reset) ==> Reconfigured(load(titleId), bindOk) && info == PadInfo(0, old(info.systemInfo))
      ensures !old(reset) ==> unchanged(this, pads)
    {
      if reset {
        reset := false;
        label cleared:
        Init(load, bindOk);
        assert forall i :: 0 <= i < NumPorts ==> old@cleared(Snapshot(pads[i])) == old(Snapshot(pads[i]));
      }
    }

    /** The work of an enabled iteration: a pending reconfiguration request
        is consumed, then the backends are polled and their connected count
        published. */
    method Step(load: string -> seq<PlayerConfig>, bindOk: (PadHandlerKind, string) -> bool,
                polled: PadHandlerKind -> nat)
      requires Valid()
      requires reset ==> ValidConfig(load(titleId), platform)
      modifies this, pads, handlers.Values
      ensures Valid() && !reset
      ensures active == old(active) && isEnabled == old(isEnabled) && titleId == old(titleId)
      ensures reconfigurations == old(reconfigurations) + (if old(reset) then 1 else 0)
      ensures old(reset) ==> Reconfigured(load(titleId), bindOk)
      ensures !old(reset) ==> handlers == old(handlers) && boundTo == old(boundTo) && unchanged(pads)
      ensures info == PadInfo(ConnectedSum(KindOrder, handlers.Keys, polled) % U32Modulus, old(info.systemInfo))
      ensures forall k :: k in handlers ==> handlers[k].connected == polled(k)
    {
      ConsumeReset(load, bindOk);
      var connected := PollHandlers(polled);
      info := info.(nowConnect := connected);
    }

    /** One iteration of the polling loop.  `running` is the loop condition;
        a disabled iteration only sleeps; an enabled one does the work of
        `Step`. */
    method Tick(load: string -> seq<PlayerConfig>, bindOk: (PadHandlerKind, string) -> bool,
                polled: PadHandlerKind -> nat) returns (running: bool)
      requires Valid()
      requires active && isEnabled && reset ==> ValidConfig(load(titleId), platform)
      modifies this, pads, handlers.Values
      ensures Valid()
      ensures running == old(active)
      ensures active == old(active) && isEnabled == old(isEnabled) && titleId == old(titleId)
      ensures !(old(active) && old(isEnabled)) ==>
                unchanged(this, pads) && unchanged(old(handlers).Values)
      ensures old(active) && old(isEnabled) ==>
                && !reset
                && reconfigurations == old(reconfigurations) + (if old(reset) then 1 else 0)
                && (old(reset) ==> Reconfigured(load(titleId), bindOk))
                && (!old(reset) ==> handlers == old(handlers) && boundTo == old(boundTo) && unchanged(pads))
                && info == PadInfo(ConnectedSum(KindOrder, handlers.Keys, polled) % U32Modulus,
                                   old(info.systemInfo))
                && forall k :: k in handlers ==> handlers[k].connected == polled(k)
    {
      if !active {
        running := false;
        return;
      }
      running := true;
      if isEnabled {
        Step(load, bindOk, polled);
      }
    }
  }
}
