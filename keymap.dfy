/**
 * Key functions ("Things") and the seven layers that map a physical key position to
 * one (src/keymap.rs). The layers are constant 8 x 6 grids built with three small
 * helpers: K turns a keyboard key code into a Thing, Shift adds left shift, and Rev
 * mirrors a row of the left half.
 */
module Keymap {
  import opened Basics
  import Steno

  /**
   * A keyboard key code as the firmware's key-code enum stores it (a 16-bit value).
   * The values below are the usages of the Keyboard/Keypad page of the USB HID Usage
   * Tables; the eight modifiers are the usages 0xE0 to 0xE7.
   */
  newtype KeyCode = x: int | 0 <= x < 0x1_0000

  const A: KeyCode := 0x04
  const B: KeyCode := 0x05
  const C: KeyCode := 0x06
  const D: KeyCode := 0x07
  const E: KeyCode := 0x08
  const F: KeyCode := 0x09
  const G: KeyCode := 0x0A
  const H: KeyCode := 0x0B
  const I: KeyCode := 0x0C
  const J: KeyCode := 0x0D
  const K_: KeyCode := 0x0E  // the letter K; the bare name is taken by the function K
  const L: KeyCode := 0x0F
  const M: KeyCode := 0x10
  const N: KeyCode := 0x11
  const O: KeyCode := 0x12
  const P: KeyCode := 0x13
  const Q: KeyCode := 0x14
  const R: KeyCode := 0x15
  const S: KeyCode := 0x16
  const T: KeyCode := 0x17
  const U: KeyCode := 0x18
  const V: KeyCode := 0x19
  const W: KeyCode := 0x1A
  const X: KeyCode := 0x1B
  const Y: KeyCode := 0x1C
  const Z: KeyCode := 0x1D
  const Kc1: KeyCode := 0x1E
  const Kc2: KeyCode := 0x1F
  const Kc3: KeyCode := 0x20
  const Kc4: KeyCode := 0x21
  const Kc5: KeyCode := 0x22
  const Kc6: KeyCode := 0x23
  const Kc7: KeyCode := 0x24
  const Kc8: KeyCode := 0x25
  const Kc9: KeyCode := 0x26
  const Kc0: KeyCode := 0x27
  const Enter: KeyCode := 0x28
  const Escape: KeyCode := 0x29
  const Backspace: KeyCode := 0x2A
  const Tab: KeyCode := 0x2B
  const Space: KeyCode := 0x2C
  const Minus: KeyCode := 0x2D
  const Equal: KeyCode := 0x2E
  const LeftBracket: KeyCode := 0x2F
  const RightBracket: KeyCode := 0x30
  const Backslash: KeyCode := 0x31
  const Semicolon: KeyCode := 0x33
  const Quote: KeyCode := 0x34
  const Grave: KeyCode := 0x35
  const Comma: KeyCode := 0x36
  const Dot: KeyCode := 0x37
  const Slash: KeyCode := 0x38
  const F1: KeyCode := 0x3A
  const F2: KeyCode := 0x3B
  const F3: KeyCode := 0x3C
  const F4: KeyCode := 0x3D
  const F5: KeyCode := 0x3E
  const F6: KeyCode := 0x3F
  const F7: KeyCode := 0x40
  const F8: KeyCode := 0x41
  const F9: KeyCode := 0x42
  const F10: KeyCode := 0x43
  const F11: KeyCode := 0x44
  const F12: KeyCode := 0x45
  const Home: KeyCode := 0x4A
  const PageUp: KeyCode := 0x4B
  const Delete: KeyCode := 0x4C
  const End: KeyCode := 0x4D
  const PageDown: KeyCode := 0x4E
  const Right: KeyCode := 0x4F
  const Left: KeyCode := 0x50
  const Down: KeyCode := 0x51
  const UP: KeyCode := 0x52
  const F13: KeyCode := 0x68
  const F14: KeyCode := 0x69
  const F15: KeyCode := 0x6A
  const KbMute: KeyCode := 0x7F
  const KbVolumeUp: KeyCode := 0x80
  const KbVolumeDown: KeyCode := 0x81
  const LCtrl: KeyCode := 0xE0
  const LShift: KeyCode := 0xE1
  const LAlt: KeyCode := 0xE2
  const LGui: KeyCode := 0xE3
  const RCtrl: KeyCode := 0xE4
  const RShift: KeyCode := 0xE5
  const RAlt: KeyCode := 0xE6
  const RGui: KeyCode := 0xE7

  /** A key code as the report's u8 carries it. */
  type HidKeyCode = U8
  type Modifiers = Byte
  type Key = (HidKeyCode, Modifiers)

  /**
   * The packet cell a stenotype Thing sets. Every such Thing is built from
   * Steno.ToPacketCode, so its byte position always indexes the 6-byte packet.
   */
  type StenoCode = c: Steno.PacketCode | c.0 < Steno.PacketLength witness (0, 1)

  /** A Thing which a key press should do. */
  datatype Thing =
    | RealKey(key: Key)
    | StenoKey(code: StenoCode)
    | LeftSymbolKey
    | RightSymbolKey
    | NavKey
    | FunctionKey
    | DvorakToggle
    | StenoToggle
    | Inactive

  /** How many physical rows there are. */
  const Rows: nat := 8
  /** How many physical columns there are. */
  const Columns: nat := 6

  /** The Things that one row of keys do. */
  type Row = r: seq<Thing> | |r| == Columns witness [Inactive, Inactive, Inactive, Inactive, Inactive, Inactive]
  /** The Things that the whole set of keys do. */
  type Layer = l: seq<Row> | |l| == Rows witness seq(Rows, _ => [Inactive, Inactive, Inactive, Inactive, Inactive, Inactive])

  /** The eight modifier keys, LCtrl to RGui. */
  predicate IsModifier(code: KeyCode) {
    LCtrl <= code <= RGui
  }

  /**
   * The bit of the HID modifier byte a key code stands for, or 0 for any other key.
   * Modifier usage 0xE0 + i owns bit i, so the eight modifiers get the eight distinct
   * single bits 0x01 to 0x80.
   */
  function ModifierKeyBitRepr(code: KeyCode): (r: Byte)
    ensures r != 0 <==> IsModifier(code)
  {
    if code == LCtrl then 0x01
    else if code == LShift then 0x02
    else if code == LAlt then 0x04
    else if code == LGui then 0x08
    else if code == RCtrl then 0x10
    else if code == RShift then 0x20
    else if code == RAlt then 0x40
    else if code == RGui then 0x80
    else 0
  }

  /** Modifier usage 0xE0 + i owns bit i of the modifier byte. */
  lemma ModifierBitIsShift(code: KeyCode)
    requires IsModifier(code)
    ensures ModifierKeyBitRepr(code) == (1 as Byte) << ((code - LCtrl) as int)
  {
  }

  /** Each modifier bit is a single bit, and two modifiers never share one. */
  lemma ModifierBitsDistinct(a: KeyCode, b: KeyCode)
    requires IsModifier(a) && IsModifier(b)
    ensures IsSingleBit(ModifierKeyBitRepr(a))
    ensures ModifierKeyBitRepr(a) == ModifierKeyBitRepr(b) ==> a == b
  {
  }

  /**
   * Mirror a row, as the left rows have their columns wired in the opposite direction
   * from the right rows (column 0 is next to the controller).
   */
  function Rev<T>(r: seq<T>): (s: seq<T>)
    requires |r| == Columns
    ensures |s| == Columns
  {
    [r[5], r[4], r[3], r[2], r[1], r[0]]
  }

  /** Column i of a mirrored row is column 5 - i of the row as written. */
  lemma RevMirrors<T>(r: seq<T>)
    requires |r| == Columns
    ensures forall i :: 0 <= i < Columns ==> Rev(r)[i] == r[Columns - 1 - i]
  {
  }

  /** Mirroring twice gives the row back. */
  lemma RevRev<T>(r: seq<T>)
    requires |r| == Columns
    ensures Rev(Rev(r)) == r
  {
  }

  /** The key codes K accepts: a modifier, or a code that fits the report's byte and is not 0. */
  predicate KeyCodeFits(kc: KeyCode) {
    IsModifier(kc) || 0 < kc <= 255
  }

  /**
   * Turn a key code into a Thing. A modifier becomes the empty key code with that
   * modifier's bit; any other code becomes itself with no modifiers (codes outside
   * 1..255 are rejected when the layers are built).
   */
  function K(kc: KeyCode): Thing
    requires KeyCodeFits(kc)
  {
    var maybeModifierKey := ModifierKeyBitRepr(kc);
    if maybeModifierKey != 0 then
      RealKey((0, maybeModifierKey))
    else
      RealKey((kc as int, 0))
  }

  /**
   * A modifier presses no key code and sets its own bit; any other key sends its own
   * code with no modifier bits.
   */
  lemma KMeaning(kc: KeyCode)
    requires KeyCodeFits(kc)
    ensures K(kc).RealKey?
    ensures K(kc).key.1 == ModifierKeyBitRepr(kc)
    ensures IsModifier(kc) ==> K(kc).key.0 == 0
    ensures !IsModifier(kc) ==> K(kc).key.0 == kc as int
  {
  }

  /** Like K, but the key is also typed with left shift held. */
  function Shift(kc: KeyCode): Thing
    requires KeyCodeFits(kc)
  {
    var RealKey((code, mods)) := K(kc);
    RealKey((code, mods | ModifierKeyBitRepr(LShift)))
  }

  /** Shift is K's key with the left-shift bit added to K's modifiers, and nothing else. */
  lemma ShiftHoldsLeftShift(kc: KeyCode)
    requires KeyCodeFits(kc)
    ensures ModifierKeyBitRepr(LShift) == 0x02
    ensures Shift(kc) == RealKey((K(kc).key.0, K(kc).key.1 | 0x02))
  {
  }

  /** A stenotype Thing: the cell its Gemini PR key sets. */
  function St(k: Steno.KeyCode): Thing {
    StenoKey(Steno.ToPacketCode(k))
  }

  const DFA: Thing := Inactive

  /** The eight rows of a layer, top to bottom: the four left rows, then the four right rows. */
  function LayerOfRows(r0: Row, r1: Row, r2: Row, r3: Row, r4: Row, r5: Row, r6: Row, r7: Row): Layer {
    [r0, r1, r2, r3, r4, r5, r6, r7]
  }


  /** Regular layer for typing words. */
  const LayerNormal: Layer := LayerOfRows(
    Rev([K(Tab), K(Q), K(W), K(E), K(R), K(T)]),
    Rev([K(Backspace), K(A), K(S), K(D), K(F), K(G)]),
    Rev([K(Escape), K(Z), K(X), K(C), K(V), K(B)]),
    Rev([K(LShift), FunctionKey, K(RGui), K(LAlt), K(LCtrl), LeftSymbolKey]),
    [K(Y), K(U), K(I), K(O), K(P), K(LeftBracket)],
    [K(H), K(J), K(K_), K(L), K(Semicolon), K(Quote)],
    [K(N), K(M), K(Comma), K(Dot), K(Slash), NavKey],
    [RightSymbolKey, K(Space), K(LGui), K(RCtrl), K(RAlt), K(RShift)]
  )

  /** Emulates the Dvorak layout on a host configured for QWERTY. */
  const LayerDvorakEmu: Layer := LayerOfRows(
    Rev([K(Tab), K(Quote), K(Comma), K(Dot), K(P), K(Y)]),
    Rev([K(Backspace), K(A), K(O), K(E), K(U), K(I)]),
    Rev([K(Escape), K(Semicolon), K(Q), K(J), K(K_), K(X)]),
    Rev([K(LShift), FunctionKey, K(RGui), K(LAlt), K(LCtrl), LeftSymbolKey]),
    [K(F), K(G), K(C), K(R), K(L), K(Slash)],
    [K(D), K(H), K(T), K(N), K(S), K(Minus)],
    [K(B), K(M), K(W), K(V), K(Z), NavKey],
    [RightSymbolKey, K(Space), K(LGui), K(RCtrl), K(RAlt), K(RShift)]
  )

  /** Layer for typing numbers and symbols. */
  const LayerSymbols: Layer := LayerOfRows(
    Rev([K(Grave), Shift(Kc8), K(Kc9), K(Kc8), K(Kc7), Shift(RightBracket)]),
    Rev([K(Backspace), K(Backslash), K(Kc6), K(Kc5), K(Kc4), Shift(Kc5)]),
    Rev([Shift(Kc2), K(Kc0), K(Kc3), K(Kc2), K(Kc1), K(Quote)]),
    Rev([K(LShift), FunctionKey, K(RGui), K(LAlt), K(LCtrl), LeftSymbolKey]),
    [Shift(Kc4), K(Minus), K(Equal), Shift(Kc6), Shift(Kc7), Shift(Kc1)],
    [K(RightBracket), Shift(Kc9), Shift(Kc0), Shift(Kc3), K(LeftBracket), K(Enter)],
    [DFA, Shift(Minus), Shift(Equal), Shift(Grave), Shift(Backslash), NavKey],
    [RightSymbolKey, K(Space), K(LGui), K(RCtrl), K(RAlt), K(RShift)]
  )

  /** The symbol layer with the changes needed under Dvorak emulation. */
  const LayerDvorakEmuSymbols: Layer := LayerOfRows(
    Rev([K(Grave), Shift(Kc8), K(Kc9), K(Kc8), K(Kc7), Shift(Equal)]),
    Rev([K(Backspace), K(Backslash), K(Kc6), K(Kc5), K(Kc4), Shift(Kc5)]),
    Rev([Shift(Kc2), K(Kc0), K(Kc3), K(Kc2), K(Kc1), K(Minus)]),
    Rev([K(LShift), FunctionKey, K(RGui), K(LAlt), K(LCtrl), LeftSymbolKey]),
    [Shift(Kc4), K(LeftBracket), K(RightBracket), Shift(Kc6), Shift(Kc7), Shift(Kc1)],
    [K(Equal), Shift(Kc9), Shift(Kc0), Shift(Kc3), K(Slash), K(Enter)],
    [DFA, Shift(LeftBracket), Shift(RightBracket), Shift(Grave), Shift(Backslash), NavKey],
    [RightSymbolKey, K(Space), K(LGui), K(RCtrl), K(RAlt), K(RShift)]
  )

  /** Layer for F-keys, arrows and other navigation keys. */
  const LayerNavigation: Layer := LayerOfRows(
    Rev([K(F15), K(F12), K(F9), K(F8), K(F7), DFA]),
    Rev([K(F14), K(F11), K(F6), K(F5), K(F4), DFA]),
    Rev([K(F13), K(F10), K(F3), K(F2), K(F1), DFA]),
    Rev([K(LShift), FunctionKey, K(RGui), K(LAlt), K(LCtrl), LeftSymbolKey]),
    [K(Delete), K(U), K(I), K(O), K(P), DFA],
    [DFA, K(Left), K(Down), K(UP), K(Right), K(Enter)],
    [DFA, K(Home), K(PageDown), K(PageUp), K(End), NavKey],
    [RightSymbolKey, K(Space), K(LGui), K(RCtrl), K(RAlt), K(RShift)]
  )

  /** Layer for changing modes, and special keys such as volume. */
  const LayerFunction: Layer := LayerOfRows(
    Rev([DFA, DFA, DFA, DFA, DFA, DFA]),
    Rev([DFA, DFA, DFA, DFA, DFA, DFA]),
    Rev([DFA, DFA, DFA, DFA, DFA, DFA]),
    Rev([DFA, FunctionKey, DFA, DFA, DFA, LeftSymbolKey]),
    [DFA, DFA, DFA, DFA, DFA, DFA],
    [DvorakToggle, K(KbMute), K(KbVolumeDown), K(KbVolumeUp), StenoToggle, DFA],
    [DFA, DFA, DFA, DFA, DFA, NavKey],
    [RightSymbolKey, DFA, DFA, DFA, DFA, DFA]
  )

  /** Layer that sends serial codes like a stenotype machine (Gemini PR protocol). */
  const LayerSteno: Layer := LayerOfRows(
    Rev([DFA, St(Steno.S1), St(Steno.TL), St(Steno.PL), St(Steno.HL), St(Steno.ST1)]),
    Rev([DFA, St(Steno.S2), St(Steno.KL), St(Steno.WL), St(Steno.RL), St(Steno.ST2)]),
    Rev([DFA, DFA, DFA, DFA, DFA, DFA]),
    Rev([St(Steno.Number), StenoToggle, DFA, St(Steno.A), St(Steno.O), LeftSymbolKey]),
    [St(Steno.ST3), St(Steno.FR), St(Steno.PR), St(Steno.LR), St(Steno.TR), St(Steno.DR)],
    [St(Steno.ST4), St(Steno.RR), St(Steno.BR), St(Steno.GR), St(Steno.SR), St(Steno.ZR)],
    [DFA, DFA, DFA, DFA, DFA, NavKey],
    [RightSymbolKey, St(Steno.E), St(Steno.U), DFA, DFA, St(Steno.Number)]
  )

  /** The seven layers by name. */
  datatype LayerName = Normal | DvorakEmu | Symbols | DvorakEmuSymbols | Navigation | Function | StenoLayer

  /** One table per layer name; FirmwareLayers holds the seven tables above. */
  datatype Layers = Layers(normal: Layer, dvorakEmu: Layer, symbols: Layer, dvorakEmuSymbols: Layer,
                           navigation: Layer, functions: Layer, steno: Layer)

  const FirmwareLayers: Layers :=
    Layers(LayerNormal, LayerDvorakEmu, LayerSymbols, LayerDvorakEmuSymbols, LayerNavigation, LayerFunction, LayerSteno)

  /** The table a layer name stands for. */
  function Select(layers: Layers, name: LayerName): Layer {
    match name
    case Normal => layers.normal
    case DvorakEmu => layers.dvorakEmu
    case Symbols => layers.symbols
    case DvorakEmuSymbols => layers.dvorakEmuSymbols
    case Navigation => layers.navigation
    case Function => layers.functions
    case StenoLayer => layers.steno
  }

  /** The firmware's table for a layer name. */
  function LayerOf(name: LayerName): Layer {
    Select(FirmwareLayers, name)
  }

  /**
   * Whatever layer is active, the two symbol keys and the navigation key stay where
   * they are (positions counted after mirroring), so they can be pressed from every layer.
   */
  lemma SelectorKeysInEveryLayer(name: LayerName)
    ensures LayerOf(name)[3][0] == LeftSymbolKey
    ensures LayerOf(name)[7][0] == RightSymbolKey
    ensures LayerOf(name)[6][5] == NavKey
  {
  }

  /** The two mode toggles sit on the function layer; the stenotype layer has its own exit toggle. */
  lemma ToggleKeyPositions()
    ensures LayerFunction[5][0] == DvorakToggle
    ensures LayerFunction[5][4] == StenoToggle
    ensures LayerSteno[3][4] == StenoToggle
  {
  }

  /** No key of the layer sends a stenotype code. */
  predicate NoStenoKeys(l: Layer) {
    forall r, c :: 0 <= r < Rows && 0 <= c < Columns ==> !l[r][c].StenoKey?
  }

  /** The normal and Dvorak-emulation layers send no stenotype code. */
  lemma LetterLayersNoSteno()
    ensures NoStenoKeys(LayerNormal) && NoStenoKeys(LayerDvorakEmu)
  {
  }

  /** Neither symbols layer sends a stenotype code. */
  lemma SymbolLayersNoSteno()
    ensures NoStenoKeys(LayerSymbols) && NoStenoKeys(LayerDvorakEmuSymbols)
  {
  }

  /** The navigation and function layers send no stenotype code. */
  lemma ControlLayersNoSteno()
    ensures NoStenoKeys(LayerNavigation) && NoStenoKeys(LayerFunction)
  {
  }

  /** Stenotype keys appear only in the stenotype layer, so no other layer adds to a packet. */
  lemma StenoKeysOnlyInStenoLayer(name: LayerName)
    ensures name != StenoLayer ==> NoStenoKeys(LayerOf(name))
    ensures !NoStenoKeys(LayerOf(StenoLayer))
  {
    LetterLayersNoSteno();
    SymbolLayersNoSteno();
    ControlLayersNoSteno();
    assert LayerSteno[7][1].StenoKey?;
  }

  /**
   * No key looked up in the stenotype layer is an ordinary key. The pedal is not part of
   * any layer and still sends its HID code 198 while this layer is active.
   */
  lemma StenoLayerTypesNoKeys()
    ensures forall r, c :: 0 <= r < Rows && 0 <= c < Columns ==> !LayerSteno[r][c].RealKey?
  {
  }
}
