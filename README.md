# Keyboard matrix scanner, key tracker and layers

A model of the core of a Raspberry Pi Pico USB keyboard firmware written in Rust. On every
tick the firmware does three things:

- it reads an 8 x 6 key matrix and a foot pedal;
- it keeps each key "held" while it reads pressed and for four ticks after it last did, so
  it is released during the fifth tick without a press (the debounce; the count-down runs
  before the matrix is read);
- it turns whatever is held into either a USB HID keyboard report or a stenotype packet
  (Gemini PR protocol).

Which key does what depends on the active layer. There are seven layers: normal,
Dvorak emulation, symbols, Dvorak-emulation symbols, navigation, function and stenotype.
Four selector flags and two mode flags pick the layer.

Modules, one concern each:

| module | file | models |
|---|---|---|
| `Basics` | basics.dfy | bytes, `u8` values, single-bit predicate, `Option` |
| `Steno` | steno.rs -> steno.dfy | the 27 Gemini PR keys and the packet cell (byte, flag) each sets |
| `Keymap` | keymap.rs -> keymap.dfy | `Thing`, modifier bits, `rev`, `k`, `shift`, the seven layer tables |
| `HeldSpec` | scan.rs -> held_spec.dfy | the held-keys array as a value: invariant, record, count-down |
| `Tracker` | scan.rs -> held_keys.dfy | class `HeldKeys` over an `array<KeyHold>` of 16 slots, proved against `HeldSpec` |
| `TickSpec` | scan.rs -> tick_spec.dfy | layer choice, the scan order, the fold over held Things, the tick as a function |
| `Engine` | scan.rs -> matrix.dfy | class `Matrix`, whose `Scan` is proved to compute `TickSpec.Tick` exactly |

The tracker's invariant comes from the doc comment on `HeldKeys`. The active holds come
first, in the order they were pressed, and the free slots follow. The model adds one
fact the code relies on: no key position is held twice.

A count-down pass lowers every active hold by one. A hold that reaches 0 is rotated to
the end of the array. The exact result is `survivors ++ old free slots ++ expired holds`,
each part in its old order.

## Model

| member | source | states |
|---|---|---|
| Steno.ToPacketCode | src/steno.rs:21-57 | every key maps to one of the six packet bytes and sets exactly one bit; no key of byte 0 sets the 0x80 lead marker |
| Steno.PacketCodeRoundTrip | src/steno.rs:21-57 | the key can be recovered from its packet cell (the inverse table gives it back) |
| Steno.ToPacketCodeInjective | src/steno.rs:21-57 | no two stenotype keys share a packet cell |
| Steno.NumberIsHashOne | src/steno.rs:55 | the number key is bit 0x20 of byte 0, the "#1" flag |
| Keymap.ModifierKeyBitRepr | src/keymap.rs:42-54 | the result is non-zero exactly for the eight modifier key codes |
| Keymap.ModifierBitIsShift | src/keymap.rs:42-54 | modifier usage 0xE0 + i owns bit i of the HID modifier byte |
| Keymap.ModifierBitsDistinct | src/keymap.rs:42-54 | each modifier's bit is a single bit, and distinct modifiers get distinct bits |
| Keymap.Rev | src/keymap.rs:60-62 | reverses a six-column row; the result has six columns (the mirror itself is RevMirrors) |
| Keymap.RevMirrors | src/keymap.rs:60-62 | column i of the reversed row is column 5 - i of the original |
| Keymap.RevRev | src/keymap.rs:60-62 | reversing a row twice gives the row back |
| Keymap.KMeaning | src/keymap.rs:65-74 | a modifier becomes key code 0 with its bit; any other code becomes itself with no modifier bits |
| Keymap.K | src/keymap.rs:65-74 | turns a key code into a RealKey: a modifier into code 0 with its bit, any other code into itself with no bits (proved in KMeaning) |
| Keymap.ShiftHoldsLeftShift | src/keymap.rs:77-80 | a shifted key is exactly `k`'s key code with `k`'s modifiers OR the left-shift bit 0x02 |
| Keymap.Shift | src/keymap.rs:77-80 | the Thing of `k` with the left-shift bit OR'd into its modifiers (proved in ShiftHoldsLeftShift) |
| Keymap.St | src/keymap.rs:157-159 | a stenotype Thing carrying the packet cell of its Gemini PR key |
| Keymap.SelectorKeysInEveryLayer | src/keymap.rs:85-171 | both symbol keys and the navigation key sit at the same positions in all seven layers, so they can be pressed from every layer |
| Keymap.ToggleKeyPositions | src/keymap.rs:151 | the Dvorak and stenotype toggles are on the function layer, and the stenotype layer has its own exit toggle (line 166) |
| Keymap.LetterLayersNoSteno | src/keymap.rs:85-106 | no key of the normal or Dvorak-emulation layer sends a stenotype code |
| Keymap.SymbolLayersNoSteno | src/keymap.rs:109-130 | no key of either symbols layer sends a stenotype code |
| Keymap.ControlLayersNoSteno | src/keymap.rs:133-154 | no key of the navigation or function layer sends a stenotype code |
| Keymap.StenoKeysOnlyInStenoLayer | src/keymap.rs:85-171 | stenotype codes are sent by the stenotype layer and by no other layer |
| Keymap.StenoLayerTypesNoKeys | src/keymap.rs:162-171 | no key looked up in the stenotype layer is an ordinary key; the pedal, which is outside every layer, still sends HID code 198 |
| TickSpec.ChooseLayerForState | src/scan.rs:95-107 | each of the seven layers is chosen exactly when its flags hold and no flag of higher priority does (an if-and-only-if per layer) |
| TickSpec.SelectorsOverrideSteno | src/scan.rs:95-107 | while a selector asks for a layer, the stenotype mode does not change the choice |
| TickSpec.SelectorKeysInChosenLayer | src/scan.rs:95-107 | whatever layer is chosen, the selector keys are at their fixed positions |
| TickSpec.RowPresses | src/scan.rs:119-125 | the pressed positions among the first columns of one driven row, in column order, each with its Thing from the layer |
| TickSpec.GridPresses | src/scan.rs:116-128 | the presses of the first rows, row after row, as the nested row and column loops record them |
| TickSpec.GridPressesAscending | src/scan.rs:116-128 | the presses of a scan come in reading order: row by row, and column by column within a row |
| TickSpec.GridPressesFaithful | src/scan.rs:116-128 | a position is among the presses, with its Thing in the layer, exactly when its column read low while its row was driven; the list holds nothing else |
| TickSpec.PedalPresses | src/scan.rs:130-133 | a pedal that reads pressed adds one press after all the keys: the fake scancode (8, 0) with the mic-mute key 198 |
| TickSpec.Presses | src/scan.rs:116-133 | all of one scan's presses: the grid's in reading order, then the pedal's |
| TickSpec.FoldReport | src/scan.rs:143-151 | the report holds the first six held RealKeys in press order, zero-filled, with their modifiers OR'd together |
| TickSpec.LaterKeysIgnored | src/scan.rs:145-151 | once six keys are in the report, later RealKeys change nothing |
| TickSpec.FoldSelectors | src/scan.rs:156-167 | after the fold a selector flag is set exactly when it was set before or its key is held |
| TickSpec.FoldPacket | src/scan.rs:152-155 | every packet byte gains exactly the flags of the held StenoKeys for that byte |
| TickSpec.FoldLatch | src/scan.rs:152-180 | the latch ends set exactly when it was set or a latching Thing is held; a mode flips only if the first latching Thing is its toggle and the latch was clear |
| TickSpec.StenoKeyBlocksLaterToggles | src/scan.rs:152-180 | a toggle held after a StenoKey flips nothing |
| TickSpec.FoldFlipsAtMostOnce | src/scan.rs:169-180 | one fold flips at most one mode, none while latched, and a flip leaves the latch set |
| TickSpec.StenoBitsOrderFree | src/scan.rs:152-155 | any reordering of the held Things (same multiset) gathers the same bits for a packet byte |
| TickSpec.FoldPacketIdempotent | src/scan.rs:152-155 | folding the same held keys into the packet again changes nothing |
| TickSpec.Step | src/scan.rs:144-181 | what one held Thing does: a RealKey fills the next of six report slots, a StenoKey ORs its flag into its packet byte and latches, a selector sets its flag, a toggle latches and flips its mode unless already latched |
| TickSpec.Fold | src/scan.rs:143-182 | the held Things applied one after another, in press order |
| TickSpec.ResetSelectors | src/scan.rs:138-141 | the flags with the four selector flags cleared and the modes and latch kept |
| TickSpec.Finish | src/scan.rs:184-192 | while latched: an empty report, and the packet only once every key is up (the stored packet zeroed and the latch cleared); unlatched: the report and a zero packet |
| TickSpec.Tick | src/scan.rs:110-193 | one scan: pick the layer, count the holds down, record the grid and the pedal, fold the held Things from cleared selectors, then finish |
| TickSpec.TickPreservesInv | src/scan.rs:110-141 | a tick keeps the tracker invariant and the array's size |
| TickSpec.ReobservedStaysHeld | src/scan.rs:110-133 | a held key with count above 1 that reads pressed again stays held through the tick with count 5, whatever else is pressed (at count 1 a key read earlier may take its freed slot) |
| TickSpec.TickSelectors | src/scan.rs:137-167 | after a tick a selector flag is set exactly when its key is among the held Things |
| TickSpec.TickReport | src/scan.rs:184-192 | while latched the report is empty; otherwise it is the first six held RealKeys with their modifiers |
| TickSpec.TickPacket | src/scan.rs:184-192 | the packet goes out, and the stored one is zeroed and the latch cleared, only on the tick where all keys are up; otherwise a zero packet is sent |
| TickSpec.TickToggles | src/scan.rs:169-192 | the modes after a tick are the old modes, flipped only by the first latching Thing when it is a toggle and the latch was clear |
| TickSpec.TickFlips | src/scan.rs:169-180 | one tick flips at most one mode and none while latched |
| TickSpec.AtMostOneFlipBetweenClears | src/scan.rs:169-192 | over any run of ticks that does not clear the latch before its last tick, at most one mode flips |
| HeldSpec.RecordRefresh | src/scan.rs:212-216 | a key already held gets its count reset to 5 in place; nothing else changes |
| HeldSpec.Recorded | src/scan.rs:210-226 | refreshes a held code in place, else claims the first free slot, else drops the press; the array keeps its size |
| HeldSpec.RecordClaim | src/scan.rs:217-224 | a new key takes the first free slot with count 5 and joins the end of the active holds |
| HeldSpec.RecordDropWhenFull | src/scan.rs:210-226 | with all 16 slots held by other keys, the press is dropped |
| HeldSpec.RecordPreservesInv | src/scan.rs:196-226 | recording keeps the tracker invariant |
| HeldSpec.RecordedHeld | src/scan.rs:210-226 | after recording, the key is held with a full count unless the array was full |
| HeldSpec.RecordAll | src/scan.rs:116-133 | the holds after recording a run of presses one after another, in order, as `record_pressed` is called for each |
| HeldSpec.RecordAllPreservesInv | src/scan.rs:116-133 | recording a whole scan's presses keeps the invariant |
| HeldSpec.SurviveLookup | src/scan.rs:240-259 | after a count-down a hold is lowered by one, or is gone if it reached 0 |
| HeldSpec.Decremented | src/scan.rs:240-259 | the survivors lowered by one in their old order, then the old free slots, then the holds that reached 0 in their old order |
| HeldSpec.DecrementedHolds | src/scan.rs:240-259 | the active holds after a count-down are the survivors, in their old order |
| HeldSpec.DecrementPreservesInv | src/scan.rs:196-259 | the count-down keeps the tracker invariant |
| HeldSpec.DecrementLookup | src/scan.rs:240-259 | per key, the count-down lowers its count by one or releases it |
| HeldSpec.CountdownToRelease | src/scan.rs:240-259 | a key held with count c stays held with count c - j for j < c count-downs and is released after c |
| HeldSpec.PressReleasedAfterFiveCountdowns | src/scan.rs:210-259 | a recorded press is still held after four count-downs and released after the fifth |
| HeldSpec.RepressKeepsHeld | src/scan.rs:210-259 | one count-down followed by a press of the same key, and no other press, leaves it held with count 5, whatever its count was |
| HeldSpec.RecordOtherKeeps | src/scan.rs:210-226 | a press of another key leaves what is held for a key exactly as it was; recording never evicts a hold |
| HeldSpec.RecordKeepsHeld | src/scan.rs:210-226 | one press keeps a held key held: its own press resets its count to 5, any other press leaves its hold alone |
| HeldSpec.RecordAllKeepsHeld | src/scan.rs:116-133 | a held key stays held through a whole run of presses, ending with count 5 if one of them is its own and untouched otherwise |
| Tracker.HeldKeys.constructor | src/scan.rs:196-207 | all 16 slots start free, so nothing is held |
| Tracker.HeldKeys.RecordPressed | src/scan.rs:210-226 | the array after the call is `Recorded` of the array before, and the invariant holds |
| Tracker.HeldKeys.PressedThings | src/scan.rs:228-234 | the Things of the active holds, in press order |
| Tracker.HeldKeys.IsAllReleased | src/scan.rs:236-238 | true exactly when no slot is active; checking the first slot suffices because of the invariant |
| Tracker.HeldKeys.DecrementHolds | src/scan.rs:240-259 | the array after the call is `Decremented` of the array before, and the invariant holds |
| Tracker.HeldKeys.CountDownPass | src/scan.rs:241-258 | the labelled two-loop pass leaves survivors, then the old free slots, then the expired holds |
| Tracker.HeldKeys.CountDownAt | src/scan.rs:242-256 | one visit: a free slot ends the pass; an active one is lowered, and rotated to the end once it reaches 0 so the next hold comes under the cursor |
| Tracker.HeldKeys.RotateSuffixLeft | src/scan.rs:247 | the slice from the cursor is rotated left by one, its first slot moving to the end |
| Engine.Matrix.constructor | src/scan.rs:69-76 | no key held, an all-zero packet, every flag false, and the firmware's layer tables |
| Engine.Matrix.Scan | src/scan.rs:110-193 | the new state and the three outputs are exactly those of `TickSpec.Tick` |
| Engine.Matrix.RecordGrid | src/scan.rs:116-128 | the holds have recorded every pressed position of the grid in reading order |
| Engine.Matrix.RecordRow | src/scan.rs:117-127 | the holds have recorded every pressed position of one row, column by column |
| Engine.Matrix.FoldHeld | src/scan.rs:135-182 | after clearing the selectors, the report, packet and flags are the fold of the held Things |
| Engine.Matrix.Apply | src/scan.rs:144-181 | one held Thing acts on the report being filled, the stored packet and the flags as `TickSpec.Step` says |

## Left out

- GPIO, PWM and the status LED are left out. `block_for` and the LED that lights during a scan are left out too. Driving row pins and reading column pins becomes a `Grid` of eight rows of six booleans, "column read low while this row was driven", plus one boolean for the pedal. The LED brightness branch of `choose_layer_for_state` has no effect on the layer and is omitted.
- usb.rs, main.rs and lib.rs are not part of this model: the USB device, the report and packet transport, and the main loop.
- Concurrency and timing between ticks are not modelled. A tick is one call of `Scan`.
- The rmk `KeyCode` enum is not available. Key codes are modelled as a `newtype` carrying the USB HID usage-table values. The modifiers are 0xE0 to 0xE7, as the modifier byte layout requires.
- Keymap.K: the source rejects codes outside 1..255 with a compile-time `assert!`. The model makes this a precondition, and every layer entry meets it.
- `KeyHold`'s derived default mapping is not shown in the source. The model uses `Inactive`; it is never read for a free slot.
- The `reserved` byte and the `leds` field of the USB `KeyboardReport` are constant in the core and are not modelled. The report is the modifier byte and six key codes.
- The byte position of a `StenoKey` is typed below 6. Every `StenoKey` in the layers is built by `to_packet_code`, whose positions are 0..5, so the indexing in `scan` cannot panic.
- `iter_pressed_things` returns a lazy iterator. The model returns the sequence it yields.
- The seven layer tables are static constants in the source. In the model, `Matrix` holds them in a constant field, which its constructor sets to the firmware's tables. The tick specification takes them as a parameter.
- Values the source types `u8` but only compares, counts or uses as indices (scancodes, counts, key codes) are integers in 0..255. Values that are OR'd (modifier bytes, flags, packet bytes) are `bv8`.
