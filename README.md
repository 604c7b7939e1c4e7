# EPOS digital-input configuration — Dafny model

This project models the digital-input module of the libepos driver for maxon
EPOS motion controllers, as declared in `drivers/vanilla/epos/input.h`. The
module keeps two things in memory:

- a **function table**: one descriptor for each of the five logical input
  functions (negative limit switch, positive limit switch, home switch,
  position marker, device enable). A descriptor holds a channel, a polarity,
  an execute flag and an enabled flag;
- a **packed image**: an eight-slot channel table that says which function
  each physical input line carries, and three 16-bit masks (polarity,
  execute, enabled).

`setup` pushes the image to the controller's object dictionary. Every setter
changes the table in memory and then re-runs `setup`.

`input.c` is not part of this model: the model follows the declarations and
doc comments of `input.h`. Where those leave a behaviour open, the model makes
these choices:

- **Masks.** Bit c of each of the three masks describes physical channel c,
  with channel 0 in the least significant bit. The bit records the polarity
  (low = 1), execute flag (non-zero = 1) or enabled flag (non-zero = 1) of the
  functions routed to channel c. The masks start at 0 and each function, in
  enumeration order, sets the bits of its channel for the flags it has; no
  bit is ever cleared. So when several functions share a channel, each bit is
  the or of their flags, even though the slot holds only the last of them. A
  channel no function is routed to has all three bits clear, and no bit above
  channel 7 is ever set.
- **Routing.** A function whose channel is 0..7 claims that slot. This
  happens whether or not the function is enabled. Functions are processed in
  enumeration order, so on a collision the later function wins. An unclaimed
  slot holds the dummy function 65535.
- **Reserved value.** The reserved function 7 is allowed as a slot value, but
  the packing never produces it. Channel 7 is treated as the eighth physical
  line, not as a sentinel.
- **Write targets.** The eight slots are written to object 0x2071, with
  sub-index c+1 for channel c. The enabled, polarity and execute masks are
  written to object 0x2070 at sub-indices 0x02 (mask), 0x03 and 0x04. The
  header defines these constants but does not say which sub-indices go with
  which object. The pairing of sub-indices with objects is the model's choice.
- **Failed writes.** Setup sends its eleven writes in order and stops at the
  first one the device refuses. In that case it returns `EPOS_INPUT_ERROR_SETUP`.
  The writes already sent stay sent, and the table is not rolled back.
- **Initial state.** Initialisation needs no I/O. Every descriptor starts out
  unassigned (channel 65535), high, with execute and enabled both 0.

The device connection (`device.h`) is not part of this model. It is reduced to
a `Device` object that logs every write it is handed and answers each one
nondeterministically with success or failure.

Files:

- `epos_types.dfy` (module `EposTypes`): the constants, the function-type and
  polarity enumerations, descriptors, the error codes and `InitFunc`.
- `epos_codec.dfy` (module `EposCodec`): bit masks, the routing of functions
  to channel slots, `Pack`, the write plan of a setup, and the object
  dictionary state the writes leave behind.
- `epos_input.dfy` (module `EposInput`): the device write log and the `Input`
  class. The class keeps `funcs: array<Descriptor>` (length 5),
  `channels: array<int>` (length 8) and the three mask fields. Its invariant
  `Valid()` says the cached image is always `Pack` of the function table.

## Model

| member | source | states |
|---|---|---|
| `EposTypes.FuncType.Ordinal` | drivers/vanilla/epos/input.h:48-54 | every function type's value lies in 0..4, so it indexes the five-entry table in bounds |
| `EposTypes.FuncTypeOf` | drivers/vanilla/epos/input.h:48-54 | a value names a function type exactly when it is in 0..4 |
| `EposTypes.FuncTypeRoundTrip` | drivers/vanilla/epos/input.h:48-54 | value and enumerator convert to each other losslessly, in both directions |
| `EposTypes.OrdinalInjective` | drivers/vanilla/epos/input.h:48-54 | distinct function types have distinct values, so each owns its own table entry |
| `EposTypes.Polarity.Code` | drivers/vanilla/epos/input.h:58-61 | polarity codes are 0 and 1, with low exactly when the code is 1 |
| `EposTypes.PolarityOf` | drivers/vanilla/epos/input.h:58-61 | only 0 and 1 are polarities, and decoding inverts `Code` |
| `EposTypes.DefaultTable` | drivers/vanilla/epos/input.h:86-92 | the table after initialisation: five entries, each unassigned (not a physical channel), high, flags 0 |
| `EposTypes.InitFunc` | drivers/vanilla/epos/input.h:94-105 | the descriptor it fills has channel, polarity, execute and enabled equal to the four arguments |
| `EposTypes.InputError.Code` | drivers/vanilla/epos/input.h:37-40 | the two error kinds have codes 0 (none) and 1 (setup), inside the description table's index range |
| `EposTypes.ErrorOf` | drivers/vanilla/epos/input.h:42-44 | the error description table has an entry for exactly the codes 0 and 1 |
| `EposTypes.ErrorRoundTrip` | drivers/vanilla/epos/input.h:37-44 | looking up an error's code gives back that error |
| `EposCodec.TestBitAbove` | drivers/vanilla/epos/input.h:79-81 | a mask below 2^n has no bit set at or above position n |
| `EposCodec.MaskFrom` | drivers/vanilla/epos/input.h:79-81 | packing per-channel flags gives a mask below 2^n whose bit c is flag c |
| `EposCodec.MaskRoundTrip` | drivers/vanilla/epos/input.h:79-81 | unpacking and repacking n bits gives back any mask below 2^n |
| `EposCodec.MaskBitsRoundTrip` | drivers/vanilla/epos/input.h:79-81 | packing and unpacking flags gives back the flags |
| `EposCodec.MaskFromSnoc` | drivers/vanilla/epos/input.h:79-81 | appending a flag for channel n adds 2^n when the flag is set, like setting bit n with a shift and an or |
| `EposCodec.MaskFromSet` | drivers/vanilla/epos/input.h:79-81 | setting flag c adds 2^c to the mask when that bit was clear and leaves the mask alone when it was already set, like or-ing in bit c |
| `EposCodec.RouteUpTo` | drivers/vanilla/epos/input.h:78 | after the first n functions are routed, the eight slots each hold the dummy function or one of those n ordinals |
| `EposCodec.RouteUpToSlot` | drivers/vanilla/epos/input.h:78 | slot c holds k exactly when function k claims c and no later function does; it holds the dummy exactly when no function claims c |
| `EposCodec.Pack` | drivers/vanilla/epos/input.h:28-29 | the packed image has 8 slots, each a function ordinal 0..4, reserved 7 or dummy 65535, and three masks below 256 |
| `EposCodec.PackSlot` | drivers/vanilla/epos/input.h:75-84 | a function sits in the slot of its own channel and in no other slot, exactly when no later function claims that channel; it sits in no slot when its channel is not a physical line |
| `EposCodec.LastWriterWins` | drivers/vanilla/epos/input.h:78 | when two functions claim one channel, the slot holds the later one (or a function even later in the enumeration) |
| `EposCodec.FlagBitsUpToAt` | drivers/vanilla/epos/input.h:79-81 | after the first n functions are processed, channel c's flag is set exactly when one of them is on channel c and has that flag |
| `EposCodec.CollisionOnChannelThree` | drivers/vanilla/epos/input.h:48-54 | negative and positive limit switch both on channel 3 and no other function there: slot 3 holds the positive switch, and each of bit 3's flags is set exactly when either switch has it |
| `EposCodec.PackFlags` | drivers/vanilla/epos/input.h:79-81 | bit c of each mask is set exactly when c is a physical channel and some function on channel c has that flag; no bit above channel 7 is set |
| `EposCodec.PackOwnerFlags` | drivers/vanilla/epos/input.h:79-83 | a function on a physical channel sets that channel's bit for each flag it has; when it is the only function there, the slot holds its ordinal and the channel's bits are exactly its flags |
| `EposCodec.PackDefault` | drivers/vanilla/epos/input.h:86-92 | the freshly initialised table packs to eight dummy slots and three zero masks |
| `EposCodec.SetupWrites` | drivers/vanilla/epos/input.h:31-35 | setup issues 11 writes, only to object 0x2071 (sub-indices 1..8) and object 0x2070 (sub-indices 0x02, 0x03, 0x04), and never writes one address twice |
| `EposCodec.ApplyDistinct` | drivers/vanilla/epos/input.h:113-118 | after acknowledged writes to distinct addresses, each address holds its value and no other address changes |
| `EposCodec.DecodeRegisters` | drivers/vanilla/epos/input.h:31-35 | decoding an image from a dictionary value yields eight channel slots |
| `EposCodec.SetupRoundTrip` | drivers/vanilla/epos/input.h:113-118 | whatever the dictionary held before, a fully acknowledged setup leaves it holding exactly the image, and repeating the setup changes nothing |
| `EposCodec.ApplyTwice` | drivers/vanilla/epos/input.h:113-118 | applying a plan of distinct-address writes twice leaves the dictionary as one pass does |
| `EposInput.Device.WriteObject` | drivers/vanilla/epos/input.h:76 | the borrowed device logs every write handed to it, together with its success or failure |
| `EposInput.PushedOutcome` | drivers/vanilla/epos/input.h:113-118 | a push returns 0 exactly when every planned write was sent and acknowledged; a push that returns 1 hit a refused write |
| `EposInput.Input.constructor` | drivers/vanilla/epos/input.h:86-92 | binds the given device, performs no I/O, leaves the default table and its packing: dummy slots and zero masks |
| `EposInput.Input.Setup` | drivers/vanilla/epos/input.h:113-118 | recomputes the image as `Pack` of the unchanged table. It then sends the image's writes in order, stopping at the first refusal, and returns 0 if all were acknowledged, otherwise 1 |
| `EposInput.Input.Repack` | drivers/vanilla/epos/input.h:75-84 | afterwards the channel table and the three masks are exactly `Pack` of the function table, which is unchanged |
| `EposInput.Input.RouteChannels` | drivers/vanilla/epos/input.h:78 | the in-place slot loop leaves the channel table equal to the routing of the function table |
| `EposInput.Input.ChannelMask` | drivers/vanilla/epos/input.h:79-81 | the loop over the functions returns the mask whose bit c is the or of that flag over the functions on channel c |
| `EposInput.Input.Push` | drivers/vanilla/epos/input.h:113-118 | writes go out in plan order, every write but the last was acknowledged, and the error code says whether the last was refused |
| `EposInput.Input.GetFunc` | drivers/vanilla/epos/input.h:120-130 | returns the cached descriptor of any of the five function types; it cannot fail |
| `EposInput.Input.SetFunc` | drivers/vanilla/epos/input.h:132-142 | afterwards `GetFunc(type)` returns the new descriptor, the other four are unchanged, and the image was repacked and pushed. Memory is updated whatever the device answers |
| `EposInput.Input.GetFuncChannel` | drivers/vanilla/epos/input.h:144-152 | the channel getter agrees with `GetFunc` |
| `EposInput.Input.SetFuncChannel` | drivers/vanilla/epos/input.h:154-164 | only the channel of that one function changes, the channel getter returns the new value, and the image is pushed |
| `EposInput.Input.GetFuncPolarity` | drivers/vanilla/epos/input.h:166-174 | the polarity getter agrees with `GetFunc` |
| `EposInput.Input.SetFuncPolarity` | drivers/vanilla/epos/input.h:176-186 | only the polarity of that one function changes, the polarity getter returns the new value, and the image is pushed |
| `EposInput.Input.GetFuncExecute` | drivers/vanilla/epos/input.h:188-197 | the execute getter agrees with `GetFunc` |
| `EposInput.Input.SetFuncExecute` | drivers/vanilla/epos/input.h:199-209 | only the execute flag of that one function changes, the execute getter returns the new value, and the image is pushed |
| `EposInput.Input.GetFuncEnabled` | drivers/vanilla/epos/input.h:211-220 | the enabled getter agrees with `GetFunc` |
| `EposInput.Input.SetFuncEnabled` | drivers/vanilla/epos/input.h:222-232 | only the enabled flag of that one function changes, the enabled getter returns the new value, and the image is pushed |
| `EposInput.CollisionScenario` | drivers/vanilla/epos/input.h:132-142 | through the class: two limit switches set to channel 3, both high, enabled and not executing, leave slot 3 holding the positive switch, with bit 3 set in the enabled mask and clear in the polarity and execute masks |
| `EposInput.SetupTwice` | drivers/vanilla/epos/input.h:113-118 | two setups with no change in between send the same plan of writes and leave the same image |

## Left out

- `epos_input_destroy` only releases the device binding. It has no other
  observable effect, so it is not modelled.
- The device transport (`device.h`) is foreign I/O. `Device.WriteObject`
  stands in for it with a logged write whose success is nondeterministic.
  Reads from the device are not modelled, since the module never needs them.
  `DecodeRegisters` is a pure decoder of an object-dictionary value, used only
  to state `SetupRoundTrip`; it does not read from the device.
- The text of the error descriptions in `epos_input_errors[]` is not
  modelled. Only its index domain, the codes 0 and 1, is modelled.
- Integer widths are not modelled. The model uses unbounded integers for C
  `int` channels and flags. It uses non-negative integers for the `short`
  masks, and proves those stay below 256, so the 16-bit signed width never
  matters. A channel value is only compared, never computed.
- Thread safety and timing are not modelled. The module has no concurrency.
- A re-push limited to the changed channel is not modelled. The setters
  always re-push the whole image; when every write is acknowledged, that
  leaves the same device state.
- SetFunc, SetFuncChannel, SetFuncPolarity, SetFuncExecute, SetFuncEnabled:
  these return the module's own code, 0 or 1, from `Setup`, not the
  device-level error code the header's doc comments mention. The module
  reduces every device failure to `EPOS_INPUT_ERROR_SETUP`, and the device
  error codes are not part of this model.
