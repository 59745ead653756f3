# Controller-port manager of the emulator's input layer

This project models `pad_thread`, the object that owns the seven emulated
controller ports. It keeps:

- the port array: one `Pad` per slot, holding a status, a capability bitset,
  a device type and the rumble motors;
- the registry of device backends ("pad handlers"): one shared instance per
  backend kind, with the null backend always present;
- the aggregate info block: a connected count and the session flags;
- the control flags `reset`, `active` and `is_enabled`;
- the session (title) identity.

The model covers these operations:

- the reconfiguration procedure `Init`;
- the control calls `SetRumble`, `Reset`, `SetEnabled` and `SetIntercepted`;
- one iteration of the polling loop (`Tick`).

Each operation is modelled as one atomic, sequential step on a Dafny class.
Integer widths are explicit. The connected count is a 32-bit accumulator that
wraps modulo 2^32, and the capability and info flags are `bv32`.

The model has two modules:

- `PadTypes` (`pad_types.dfy`) holds the constants, the value types, the `Pad`
  and `PadHandler` classes, and the pure helpers with their lemmas: the bind
  outcome, the registry's key set, `std::map::emplace`, the intercepted bit,
  the rumble update, the rumble index guard, and the connected-count sum.
- `PadThreadCore` (`pad_thread.dfy`) holds the class `PadThread`, its
  reconfiguration methods, the control calls and the polling step.

Everything outside the manager is an input:

- `load` maps a session identity to the per-port profile: one entry per port,
  each naming a backend kind and a device string.
- `bindOk(kind, device)` is the outcome of binding a device through a backend
  of that kind. The null backend always accepts.
- `polled(kind)` is the connected count a backend reports after its poll step.
- `Platform` holds the two compile-time switches: the Windows backends, and the
  evdev backend.

A backend records which pads it drives in its own bind list. The model keeps
that relation on the manager instead, as `boundTo[i]`: the backend instance
that claimed port `i`. This keeps object identity. "Ports of one kind share one
instance" becomes `boundTo[i] == handlers[kind]`.

The model departs from the code in two places:

- **Rumble index.** The code's rumble guard lets index 7 through, one past the
  end of the seven-slot array. The modelled `SetRumble` uses the corrected
  bound, so every index of 7 or more is a no-op (see Findings).
- **Unsupported kinds.** When a configured kind has no case on the platform, the
  code stores an empty handler pointer and then calls through it. The model
  requires every configured kind to be supported on the platform
  (`ValidConfig`).

The polling loop visits the backends in the registry's key order. The model
takes the registry to be an ordered `std::map` keyed by backend kind, so this
is the order of the backend-kind enumeration. That type is declared in the
header, which is not part of this model (see "## Left out").

## Model

| member | source | states |
|---|---|---|
| PadThreadCore.PadThread.constructor | rpcs3/pad_thread.cpp:27-34 | The new manager has every slot filled with a disconnected pad with the default capabilities (conformity, press mode, actuator) and the standard device type. The info block is zero. The registry holds the null backend plus each configured kind. Every port is held by the backend of its kind, or by the null backend when the bind fails. The pads and the backend instances are all fresh. The flags are cleared with polling enabled, and one reconfiguration has run; these starting values and the zero info block are the header's member initialisers, taken as given (see "## Left out"). |
| PadThreadCore.PadThread.Init | rpcs3/pad_thread.cpp:45-133 | After a reconfiguration, every slot holds a fresh disconnected pad (`Reconfigured`). The pad keeps the previous pad's capability and device type, or takes the defaults when the slot was empty; the old status is not used. The registry's key set is exactly {null} plus the configured kinds, and every instance in it is fresh. Port i is held by the backend of its configured kind when the bind succeeds, and by the null backend otherwise. The info block has connected count 0 and the old session flags. Flags and session are unchanged. |
| PadThreadCore.PadThread.SnapshotSettings | rpcs3/pad_thread.cpp:49-61 | Returns seven settings. Entry i is the default setting when slot i is empty, and otherwise that pad's status, capability and device type. |
| PadThreadCore.PadThread.RebuildRegistry | rpcs3/pad_thread.cpp:68-132 | Installs a fresh registry whose key set is {null} plus the configured kinds. Each port's claiming backend is the one its bind outcome selects. Every slot gets a fresh pad built from the port's snapshot. |
| PadThreadCore.BuildPorts | rpcs3/pad_thread.cpp:74-132 | The per-port loop. The null backend is registered first. Every configured kind gets exactly one instance, of that kind, and repeated kinds reuse it because `emplace` never replaces. No other kind is registered. Port j is claimed by the instance of `BoundKind(j)`. The seven new pads are fresh, pairwise distinct, disconnected, carry their snapshot's capability and device type, and have no motors. |
| PadThreadCore.BuildPad | rpcs3/pad_thread.cpp:124 | Slot i holds a fresh disconnected pad with the snapshot's capability and device type; the other slots are unchanged. |
| PadTypes.BoundKind | rpcs3/pad_thread.cpp:126-131 | The kind of the backend holding a port is the configured kind or null. It is the configured kind exactly when the bind succeeds, so no port is left unbound. |
| PadTypes.ConfiguredKinds | rpcs3/pad_thread.cpp:82-120 | Contains the configured kind of every one of the first n ports. |
| PadTypes.Emplace | rpcs3/pad_thread.cpp:76 | The key set grows by the new key. Existing entries are never replaced, and a missing key gets the new value. |
| PadTypes.PadHandler.constructor | rpcs3/pad_thread.cpp:75-115 | A new backend instance has the requested kind and reports no connected devices. |
| PadTypes.Pad.constructor | rpcs3/pad_thread.cpp:124 | A new pad has the given status, capability and device type, and no motors. |
| PadThreadCore.PadThread.SetRumble | rpcs3/pad_thread.cpp:135-145 | An index of 7 or more changes no pad. For a valid index, that pad's motors become `Rumbled` of the old motors, and its status, capability and device type are unchanged. Every other pad is unchanged, and the info block is outside the frame. |
| PadTypes.Rumbled | rpcs3/pad_thread.cpp:140-144 | With at least two motors, motor 0 gets the large intensity and motor 1 gets 255 or 0. Each motor's kind and every later motor are unchanged. With fewer than two motors nothing changes. The length is kept. |
| PadTypes.RumbleGuardCorrectedInBounds | rpcs3/pad_thread.cpp:137 | The corrected guard admits exactly the indices below 7. It admits only indices the code's guard admits, and the two guards differ only at 7. |
| PadThreadCore.PadThread.RumbleGuardAsWrittenAdmitsPastEnd | rpcs3/pad_thread.cpp:137 | For a ready manager, the code's guard admits index 7, which is not an index of the port array. |
| PadThreadCore.PadThread.Reset | rpcs3/pad_thread.cpp:147-151 | The session becomes the given one, and a reconfiguration is requested exactly when the polling thread is running. A Reset while inactive clears any pending request. |
| PadThreadCore.PadThread.SetEnabled | rpcs3/pad_thread.cpp:153-156 | The enabled flag becomes the argument. |
| PadThreadCore.PadThread.SetIntercepted | rpcs3/pad_thread.cpp:158-168 | The session flags become `WithIntercepted` of the old flags, and the connected count is unchanged. |
| PadTypes.WithIntercepted | rpcs3/pad_thread.cpp:160-167 | The intercepted bit is set exactly when requested, and every other bit is unchanged. |
| PadTypes.WithInterceptedIdempotent | rpcs3/pad_thread.cpp:158-168 | Setting or clearing the intercepted bit twice is the same as doing it once. |
| PadThreadCore.PadThread.Start | rpcs3/pad_thread.cpp:172 | The polling thread is marked running. |
| PadThreadCore.PadThread.Tick | rpcs3/pad_thread.cpp:173-192 | The loop continues exactly while the thread is active. An inactive or disabled iteration changes nothing: not the manager, not the ports, not any backend. An enabled iteration clears the request. It counts one more reconfiguration if the request was pending, and none otherwise, so any number of `Reset` calls lead to at most one reconfiguration. That reconfiguration satisfies `Reconfigured`; without one, the registry, the bindings and the ports are unchanged. The connected count is the registry's sum modulo 2^32, and the session flags are unchanged. |
| PadThreadCore.PadThread.Step | rpcs3/pad_thread.cpp:180-190 | The work of an enabled iteration: the request is consumed, a reconfiguration runs if and only if it was pending, then every backend is polled and the connected count is published. |
| PadThreadCore.PadThread.ConsumeReset | rpcs3/pad_thread.cpp:180-183 | A pending request is cleared and exactly one reconfiguration runs. Without a pending request nothing changes. |
| PadThreadCore.PadThread.PollHandlers | rpcs3/pad_thread.cpp:184-189 | Every registered backend has polled and reports its count. The result is the sum of the registered backends' counts, taken in key order, modulo 2^32. |
| PadTypes.PadHandler.ThreadProc | rpcs3/pad_thread.cpp:187 | After its poll step, a backend reports the count it observed. |
| PadTypes.ConnectedSumOnlyKeys | rpcs3/pad_thread.cpp:185-188 | The sum depends only on the counts of the registered kinds. |
| PadTypes.ConnectedSumInsert | rpcs3/pad_thread.cpp:185-188 | Registering one more kind that occurs once in the order adds exactly its count, so every registered backend is counted once. |
| PadTypes.RegistrySumInsert | rpcs3/pad_thread.cpp:185-188 | Over the registry's key order, registering one more kind adds exactly that kind's count, so the sum counts every registered backend exactly once. |
| PadTypes.ConnectedSumNoKeys | rpcs3/pad_thread.cpp:184 | With no backend registered, the count stays at its starting value 0. |
| PadTypes.KeyOrderSumIsRegisteredTotal | rpcs3/pad_thread.cpp:184-188 | When every registered backend reports its polled count, the sum in key order equals the backends' own total of `connected`, which imposes no order. |
| PadThreadCore.PadThread.PublishedCountIsRegisteredTotal | rpcs3/pad_thread.cpp:184-189 | After a poll step, the manager's published count is the total of `connected` over its registered backends, modulo 2^32. |
| PadTypes.ConnectedSumSingle | rpcs3/pad_thread.cpp:185-188 | With a single registered kind, the sum is that kind's count. |
| PadTypes.NullProfile | rpcs3/pad_thread.cpp:74-76 | A profile with the null backend on every port registers the null backend alone, and the polled count is the null backend's. |
| PadTypes.ModAddRight | rpcs3/pad_thread.cpp:188 | Adding to a 32-bit accumulator that wraps gives the same result as adding first and wrapping once. |
| PadTypes.KindOrderComplete | rpcs3/pad_thread.cpp:185 | The key order of the registry lists every backend kind. |
| PadTypes.KindOrderOnce | rpcs3/pad_thread.cpp:185 | The key order of the registry lists each backend kind exactly once. |
| PadTypes.CapabilityBitsDistinct | rpcs3/pad_thread.cpp:55 | The capability flags and the intercepted flag are single bits, and the capability flags are pairwise disjoint. |

## Left out

- Threads, the recursive mutex, atomics and sleeping are left out. Each operation is one atomic sequential step, and the polling loop is one `Tick` per iteration.
- The destructor and the process-wide current-instance pointer are left out; they are lifetime plumbing.
- The concrete backends are left out: keyboard, DualShock 3 and 4, XInput, MMJoystick and evdev. Their device I/O is foreign code. The bind outcome is the `bindOk` input, and the connected count a poll reports is the `polled` input.
- Each backend's own `Init` call, which runs once per port that uses it, is left out.
- The motor channels a backend installs when it binds a pad are left out, so a freshly built pad has no motors.
- Parsing the per-title input configuration is left out; the profile is the `load` input.
- The keyboard backend's thread and window hand-over is left out; it is a GUI side effect.
- The error log line written when a bind fails is left out.
- The empty-handler path for kinds the platform cannot build is left out. It stores a null pointer and then calls through it, which is undefined behaviour. `ValidConfig` requires supported kinds instead.
- The info block is modelled as its connected count and its session flags; any other field is not part of this model. Clearing the block with `memset` becomes setting both modelled fields to zero.
- The headers are not part of this model. The port count, the status, capability and info-flag values, and the order of the backend-kind enumeration follow the Cell pad interface and the handler enumeration as the code uses them.
- Also from the headers, and taken as given: the registry is an ordered `std::map` keyed by backend kind; a new manager starts with `active` and `reset` false, `is_enabled` true and the info block zeroed; and a new backend starts with `connected` 0.
- PadThreadCore.PadThread.constructor: its starting flags (`active` and `reset` false, `is_enabled` true) and its zero info block are the header's member initialisers, which the cited lines do not show; the contract states them as assumed values.
- PadTypes.PadHandler.constructor: its `connected == 0` is the header's member initialiser, taken as given.
- PadThreadCore.PadThread.Init: does not state the backends' connected counts after a reconfiguration; the next poll step sets them.

## Findings

| source | as written | input that shows it | evidently intended | confidence | as-written member | corrected member |
|---|---|---|---|---|---|---|
| rpcs3/pad_thread.cpp:137 | The rumble guard returns early only when the index is greater than the number of slots. | `SetRumble(7, …)` passes the guard and indexes slot 7 of a seven-slot array. | Reject every index of 7 or more, as a no-op. | not executed | PadThreadCore.PadThread.RumbleGuardAsWrittenAdmitsPastEnd | PadThreadCore.PadThread.SetRumble |
