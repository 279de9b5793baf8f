/**
 * The scanner itself (Matrix in src/scan.rs), with the pins replaced by the grid of
 * key readings and the pedal reading that a tick takes as input. Its one operation,
 * Scan, is proved to compute exactly TickSpec.Tick; what a tick means is proved there.
 */
module Engine {
  import Steno
  import opened Keymap
  import opened HeldSpec
  import opened Tracker
  import opened TickSpec

  class Matrix {
    /** The seven layer tables; the constructor installs the firmware's. */
    const layers: Layers
    const heldKeys: HeldKeys
    var stenoPacket: Steno.Packet
    var state: MatrixState

    ghost predicate Valid()
      reads this, heldKeys, heldKeys.slots
    {
      heldKeys.Valid()
    }

    /** What the scanner keeps between ticks, as a value. */
    ghost function Snap(): Snapshot
      reads this, heldKeys, heldKeys.slots
    {
      Snapshot(heldKeys.slots[..], stenoPacket, state)
    }

    /** No key held, an all-zero packet and every flag false. */
    constructor ()
      ensures Valid() && fresh(heldKeys) && fresh(heldKeys.slots)
      ensures layers == FirmwareLayers
      ensures Snap() == Snapshot(seq(HeldKeysLimit, _ => EmptyHold), Steno.ZeroPacket, DefaultState)
    {
      layers := FirmwareLayers;
      heldKeys := new HeldKeys();
      stenoPacket := Steno.ZeroPacket;
      state := DefaultState;
    }

    /**
     * One tick: choose the layer from the flags of the previous tick, count the holds
     * down, record every key that reads pressed and then the pedal, fold over the held
     * Things, and pick the output.
     */
    method Scan(grid: Grid, pedal: bool) returns (report: KeyboardReport, packet: Steno.Packet, st: MatrixState)
      requires Valid()
      modifies this, heldKeys.slots
      ensures Valid()
      ensures (Snap(), Output(report, packet, st)) == Tick(layers, old(Snap()), grid, pedal)
    {
      ghost var t := Snap();
      var layer := Select(layers, ChooseLayerForState(state));

      heldKeys.DecrementHolds();
      ghost var counted := heldKeys.slots[..];
      RecordGrid(layer, grid);
      ghost var scanned := GridPresses(layer, grid, Rows);
      RecordAllSnoc(counted, scanned, PedalPresses(pedal));
      if pedal {
        heldKeys.RecordPressed(PedalFakeScancode, RealKey((MicMuteKey, 0)));
      }
      assert heldKeys.slots[..] == TickSlots(layers, t, grid, pedal);

      var things := heldKeys.PressedThings();
      report := FoldHeld(things);
      assert Acc(state, stenoPacket, report, 0) == TickFold(layers, t, grid, pedal).(nextKeycodeIdx := 0);

      if state.awaitingClear {
        if heldKeys.IsAllReleased() {
          state := state.(awaitingClear := false);
          packet := stenoPacket;
          stenoPacket := Steno.ZeroPacket;
          return EmptyReport, packet, state;
        } else {
          return EmptyReport, Steno.ZeroPacket, state;
        }
      }
      return report, Steno.ZeroPacket, state;
    }

    /** Record every position of the grid that reads pressed, row by row. */
    method RecordGrid(layer: Layer, grid: Grid)
      requires heldKeys.Valid()
      modifies heldKeys.slots
      ensures heldKeys.Valid()
      ensures heldKeys.slots[..] == RecordAll(old(heldKeys.slots[..]), GridPresses(layer, grid, Rows))
    {
      ghost var counted := heldKeys.slots[..];
      for rowIdx := 0 to Rows
        invariant heldKeys.Valid()
        invariant heldKeys.slots[..] == RecordAll(counted, GridPresses(layer, grid, rowIdx))
      {
        RecordAllAppend(counted, GridPresses(layer, grid, rowIdx), RowPresses(layer, grid, rowIdx, Columns));
        RecordRow(layer, grid, rowIdx);
      }
    }

    /** Drive row `rowIdx` and record, column by column, each position that reads pressed. */
    method RecordRow(layer: Layer, grid: Grid, rowIdx: nat)
      requires rowIdx < Rows && heldKeys.Valid()
      modifies heldKeys.slots
      ensures heldKeys.Valid()
      ensures heldKeys.slots[..] == RecordAll(old(heldKeys.slots[..]), RowPresses(layer, grid, rowIdx, Columns))
    {
      ghost var before := heldKeys.slots[..];
      for columnIdx := 0 to Columns
        invariant heldKeys.Valid()
        invariant heldKeys.slots[..] == RecordAll(before, RowPresses(layer, grid, rowIdx, columnIdx))
      {
        ghost var done := RowPresses(layer, grid, rowIdx, columnIdx);
        if grid[rowIdx][columnIdx] {
          RecordAllSnoc(before, done, [PressAt(layer, rowIdx, columnIdx)]);
          heldKeys.RecordPressed((rowIdx, columnIdx), layer[rowIdx][columnIdx]);
        } else {
          RecordAllSnoc(before, done, []);
        }
      }
    }

    /**
     * Clear the four selector flags, then fold over the held Things: fill the report,
     * OR steno bits into the stored packet, set the flags and apply the toggles.
     */
    method FoldHeld(things: seq<Thing>) returns (report: KeyboardReport)
      modifies this
      ensures Acc(state, stenoPacket, report, 0) ==
        Fold(Acc(ResetSelectors(old(state)), old(stenoPacket), EmptyReport, 0), things).(nextKeycodeIdx := 0)
    {
      report := EmptyReport;
      var reportNextKeycodeIdx := 0;

      state := state.(leftSymbolKey := false);
      state := state.(rightSymbolKey := false);
      state := state.(navKey := false);
      state := state.(functionKey := false);

      ghost var start := Acc(state, stenoPacket, report, reportNextKeycodeIdx);
      for i := 0 to |things|
        invariant Acc(state, stenoPacket, report, reportNextKeycodeIdx) == Fold(start, things[..i])
      {
        FoldNext(start, things, i);
        report, reportNextKeycodeIdx := Apply(things[i], report, reportNextKeycodeIdx);
      }
      assert things[..|things|] == things;
    }

    /** What one held Thing does to the report being filled, the stored packet and the flags. */
    method Apply(thing: Thing, report: KeyboardReport, reportNextKeycodeIdx: nat)
      returns (report': KeyboardReport, reportNextKeycodeIdx': nat)
      modifies this
      ensures Acc(state, stenoPacket, report', reportNextKeycodeIdx') ==
        Step(Acc(old(state), old(stenoPacket), report, reportNextKeycodeIdx), thing)
    {
      report', reportNextKeycodeIdx' := report, reportNextKeycodeIdx;
      match thing
      case RealKey(key) =>
        if reportNextKeycodeIdx' < ReportKeycodes {
          report' := report'.(modifier := report'.modifier | key.1);
          report' := report'.(keycodes := report'.keycodes[reportNextKeycodeIdx' := key.0]);
          reportNextKeycodeIdx' := reportNextKeycodeIdx' + 1;
        }
      case StenoKey(code) =>
        state := state.(awaitingClear := true);
        stenoPacket := stenoPacket[code.0 := stenoPacket[code.0] | code.1];
      case LeftSymbolKey =>
        state := state.(leftSymbolKey := true);
      case RightSymbolKey =>
        state := state.(rightSymbolKey := true);
      case NavKey =>
        state := state.(navKey := true);
      case FunctionKey =>
        state := state.(functionKey := true);
      case Inactive =>
      case DvorakToggle =>
        if !state.awaitingClear {
          state := state.(emulatingDvorak := !state.emulatingDvorak);
        }
        state := state.(awaitingClear := true);
      case StenoToggle =>
        if !state.awaitingClear {
          state := state.(stenotype := !state.stenotype);
        }
        state := state.(awaitingClear := true);
    }
  }
}
