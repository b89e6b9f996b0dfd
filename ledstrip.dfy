/**
 * The per-LED configuration record of the LED-strip subsystem and the
 * shift-and-mask helpers that pack and unpack it.
 *
 * Each LED is described by six unsigned bit fields: a grid position (x in
 * the high nibble, y in the low nibble), a base function, an overlay mask,
 * an index into the configurable color palette, a direction mask and a small
 * parameter. Storing into a bit field keeps the low bits of the value, as a
 * C bit-field assignment does. The enumerations fix the ids that the masks
 * and tables are indexed with.
 */
module LedStrip {
  import opened CBits

  // ---------------------------------------------------------------------------
  // Sizes, offsets and field widths

  const LED_MAX_STRIP_LENGTH: nat := 32
  const LED_CONFIGURABLE_COLOR_COUNT: nat := 16
  const LED_MODE_COUNT: nat := 6
  const LED_DIRECTION_COUNT: nat := 6
  const LED_BASEFUNCTION_COUNT: nat := 8
  const LED_OVERLAY_COUNT: nat := 7
  const LED_SPECIAL_COLOR_COUNT: nat := 9

  const LED_FUNCTION_OFFSET: nat := 8
  const LED_OVERLAY_OFFSET: nat := 16

  const LED_POS_BITCNT: nat := 8
  const LED_FUNCTION_BITCNT: nat := 8
  const LED_OVERLAY_BITCNT: nat := 8
  const LED_COLOR_BITCNT: nat := 4
  const LED_DIRECTION_BITCNT: nat := 6
  const LED_PARAMS_BITCNT: nat := 6

  const LED_X_BIT_OFFSET: nat := 4
  const LED_Y_BIT_OFFSET: nat := 0
  const LED_XY_MASK: nat := 0x0F

  /** Width of C's `int` on the flight-controller targets; shifting an `int`
      by this much or more is undefined. */
  const INT_BITS: nat := 32

  // ---------------------------------------------------------------------------
  // Enumerations

  /** `colorId_e`: the default colors of the configurable palette. */
  datatype ColorId =
    | Black | White | Red | Orange | Yellow | LimeGreen | Green
    | MintGreen | Cyan | LightBlue | Blue | DarkViolet | Magenta | DeepPink
  {
    /** The enumerator's value; every color names a palette slot. */
    function Id(): (r: nat)
      ensures r < LED_CONFIGURABLE_COLOR_COUNT
    {
      match this
      case Black => 0
      case White => 1
      case Red => 2
      case Orange => 3
      case Yellow => 4
      case LimeGreen => 5
      case Green => 6
      case MintGreen => 7
      case Cyan => 8
      case LightBlue => 9
      case Blue => 10
      case DarkViolet => 11
      case Magenta => 12
      case DeepPink => 13
    }
  }

  /** `ledModeIndex_e`: the six flight modes that own a row of direction
      colors, followed by the special-color pseudo mode. */
  datatype ModeIndex = Orientation | Headfree | Horizon | Angle | Mag | Baro | Special
  {
    /** The enumerator's value; exactly the real modes index the
        `LED_MODE_COUNT` rows of mode colors, and the pseudo mode comes
        right after them. */
    function Id(): (r: nat)
      ensures r <= LED_MODE_COUNT
      ensures r < LED_MODE_COUNT <==> !Special?
    {
      match this
      case Orientation => 0
      case Headfree => 1
      case Horizon => 2
      case Angle => 3
      case Mag => 4
      case Baro => 5
      case Special => 6
    }
  }

  /** `ledSpecialColorIds_e`: the slots of the special colors. */
  datatype SpecialColorId =
    | Disarmed | Armed | Animation | Background | BlinkBackground
    | GpsNoSats | GpsNoLock | GpsLocked | StrobeColor
  {
    /** The enumerator's value; every id indexes a `specialColorIndexes_t`
        in bounds. */
    function Id(): (r: nat)
      ensures r < LED_SPECIAL_COLOR_COUNT
    {
      match this
      case Disarmed => 0
      case Armed => 1
      case Animation => 2
      case Background => 3
      case BlinkBackground => 4
      case GpsNoSats => 5
      case GpsNoLock => 6
      case GpsLocked => 7
      case StrobeColor => 8
    }
  }

  /** `ledDirectionId_e`: the bit positions of the direction mask. */
  datatype DirectionId = North | East | South | West | Up | Down
  {
    function Id(): (r: nat)
      ensures r < LED_DIRECTION_COUNT
    {
      match this
      case North => 0
      case East => 1
      case South => 2
      case West => 3
      case Up => 4
      case Down => 5
    }
  }

  /** `ledBaseFunctionId_e`: what an LED shows before overlays. */
  datatype BaseFunctionId = Color | FlightMode | ArmState | Battery | Rssi | Gps | ThrustRing | Channel
  {
    function Id(): (r: nat)
      ensures r < LED_BASEFUNCTION_COUNT
    {
      match this
      case Color => 0
      case FlightMode => 1
      case ArmState => 2
      case Battery => 3
      case Rssi => 4
      case Gps => 5
      case ThrustRing => 6
      case Channel => 7
    }
  }

  /** `ledOverlayId_e`: the bit positions of the overlay mask. */
  datatype OverlayId = Throttle | LarsonScanner | Blink | LandingFlash | Indicator | Warning | Strobe
  {
    function Id(): (r: nat)
      ensures r < LED_OVERLAY_COUNT
    {
      match this
      case Throttle => 0
      case LarsonScanner => 1
      case Blink => 2
      case LandingFlash => 3
      case Indicator => 4
      case Warning => 5
      case Strobe => 6
    }
  }

  /** The enumerators of each enumeration in declaration order. */
  const COLOR_IDS: seq<ColorId> :=
    [Black, White, Red, Orange, Yellow, LimeGreen, Green,
     MintGreen, Cyan, LightBlue, Blue, DarkViolet, Magenta, DeepPink]
  const MODE_INDEXES: seq<ModeIndex> := [Orientation, Headfree, Horizon, Angle, Mag, Baro, Special]
  const SPECIAL_COLOR_IDS: seq<SpecialColorId> :=
    [Disarmed, Armed, Animation, Background, BlinkBackground, GpsNoSats, GpsNoLock, GpsLocked, StrobeColor]
  const DIRECTION_IDS: seq<DirectionId> := [North, East, South, West, Up, Down]
  const BASE_FUNCTION_IDS: seq<BaseFunctionId> :=
    [Color, FlightMode, ArmState, Battery, Rssi, Gps, ThrustRing, Channel]
  const OVERLAY_IDS: seq<OverlayId> := [Throttle, LarsonScanner, Blink, LandingFlash, Indicator, Warning, Strobe]

  // ---------------------------------------------------------------------------
  // Flag words and single-bit masks

  const LED_FLAG_OVERLAY_MASK: nat := Pow2(LED_OVERLAY_BITCNT) - 1

  /** `LED_MOV_FUNCTION`: moves a function byte to bits 8..15 of a flag word.
      The bound keeps the `int` shift defined. */
  function MovFunction(func: nat): (r: nat)
    requires func < 0x80_0000
    ensures r == func * Pow2(LED_FUNCTION_OFFSET)
  {
    ShlIsMul(func, LED_FUNCTION_OFFSET);
    Shl(func, LED_FUNCTION_OFFSET)
  }

  /** `LED_MOV_OVERLAY`: moves an overlay byte to bits 16..23 of a flag word. */
  function MovOverlay(overlay: nat): (r: nat)
    requires overlay < 0x8000
    ensures r == overlay * Pow2(LED_OVERLAY_OFFSET)
  {
    ShlIsMul(overlay, LED_OVERLAY_OFFSET);
    Shl(overlay, LED_OVERLAY_OFFSET)
  }

  const LED_FUNCTION_MASK: nat := MovFunction(Pow2(LED_FUNCTION_BITCNT) - 1)
  const LED_OVERLAY_MASK: nat := MovOverlay(LED_FLAG_OVERLAY_MASK)

  /** `LED_FLAG_OVERLAY(id)`: the mask with bit `id` set and no other. */
  function FlagOverlay(id: nat): (r: nat)
    requires id < INT_BITS - 1
    ensures forall i: nat :: Bit(r, i) <==> i == id
  {
    ShlOne(id);
    forall i: nat ensures Bit(Pow2(id), i) <==> i == id {
      BitOfPow2(id, i);
    }
    Shl(1, id)
  }

  /** `LED_FLAG_DIRECTION(id)`: the mask with bit `id` set and no other. */
  function FlagDirection(id: nat): (r: nat)
    requires id < INT_BITS - 1
    ensures forall i: nat :: Bit(r, i) <==> i == id
  {
    ShlOne(id);
    forall i: nat ensures Bit(Pow2(id), i) <==> i == id {
      BitOfPow2(id, i);
    }
    Shl(1, id)
  }

  /** `CALCULATE_LED_XY(x, y)`: the low nibbles of x and y, x above y. */
  function CalculateXY(x: int, y: int): (r: nat)
    ensures r < Pow2(LED_POS_BITCNT)
    ensures r == (x % 16) * 16 + y % 16
  {
    LowMasks(x);
    LowMasks(y);
    var hi: nat := And(x, LED_XY_MASK);
    var lo: nat := And(y, LED_XY_MASK);
    OffsetShifts(hi);
    Pow2Values();
    OrShiftedDisjoint(hi, Shl(lo, LED_Y_BIT_OFFSET), LED_X_BIT_OFFSET);
    Or(Shl(hi, LED_X_BIT_OFFSET), Shl(lo, LED_Y_BIT_OFFSET))
  }

  /** Storing v into an unsigned bit field `width` bits wide keeps its low
      `width` bits: the result is v reduced modulo 2^width. */
  function StoreBits(v: int, width: nat): (r: nat)
    ensures r < Pow2(width)
    ensures r == v % Pow2(width)
  {
    AndLowMask(v, width);
    And(v, Pow2(width) - 1)
  }

  /** The header's masks as remainders. */
  lemma LowMasks(x: int)
    ensures And(x, 1) == x % 2 && And(x, LED_XY_MASK) == x % 16
  {
    Pow2Values();
    AndLowMask(x, 1);
    AndLowMask(x, 4);
  }

  /** The header's shift amounts as multiplications and divisions. */
  lemma OffsetShifts(v: nat)
    ensures Shl(v, 4) == 16 * v && Shl(v, 8) == 256 * v && Shl(v, 16) == 65536 * v
    ensures Shr(v, 4) == v / 16 && Shr(v, 8) == v / 256 && Shr(v, 16) == v / 65536
  {
    Pow2Values();
    ShiftsBy(v, 4, 16);
    ShiftsBy(v, 8, 256);
    ShiftsBy(v, 16, 65536);
  }

  lemma ShiftsBy(v: nat, k: nat, p: nat)
    requires Pow2(k) == p
    ensures Shl(v, k) == v * p && Shr(v, k) == v / p
  {
    ShlIsMul(v, k);
    ShrIsDiv(v, k);
  }

  /** The record's field widths as remainders. */
  lemma FieldWidths(v: int)
    ensures StoreBits(v, 4) == v % 16 && StoreBits(v, 6) == v % 64 && StoreBits(v, 8) == v % 256
  {
    Pow2Values();
  }

  // ---------------------------------------------------------------------------
  // The record

  type UInt8 = v: int | 0 <= v < 0x100
  type UInt6 = v: int | 0 <= v < 0x40
  type UInt4 = v: int | 0 <= v < 0x10

  /** `ledConfig_t`: one LED's configuration, six unsigned bit fields. */
  class LedConfig {
    var position: UInt8
    var baseFunction: UInt8
    var overlay: UInt8
    var color: UInt4
    var direction: UInt6
    var params: UInt6

    /** A zero-initialised record, as static storage starts out. */
    constructor ()
      ensures position == 0 && baseFunction == 0 && overlay == 0
      ensures color == 0 && direction == 0 && params == 0
    {
      position, baseFunction, overlay := 0, 0, 0;
      color, direction, params := 0, 0, 0;
    }

    /** `ledGetXY`: the whole position byte, which is the x nibble above the
        y nibble. */
    function GetXY(): (r: UInt8)
      reads this
      ensures r == GetX() * 16 + GetY()
    {
      position
    }

    /** `ledGetX`: the high nibble of the position. */
    function GetX(): (r: UInt8)
      reads this
      ensures r < 16 && r == position / 16
    {
      OffsetShifts(position);
      LowMasks(position / 16);
      DivModUnique(position / 16, 16, 0, position / 16);
      And(Shr(position, LED_X_BIT_OFFSET), LED_XY_MASK)
    }

    /** `ledGetY`: the low nibble of the position. */
    function GetY(): (r: UInt8)
      reads this
      ensures r < 16 && r == position % 16
    {
      LowMasks(position);
      And(Shr(position, LED_Y_BIT_OFFSET), LED_XY_MASK)
    }

    /** `ledGetFunction`: the function byte as stored. */
    function GetFunction(): UInt8
      reads this
    {
      baseFunction
    }

    /** `ledGetOverlay`: the overlay mask as stored. */
    function GetOverlay(): UInt8
      reads this
    {
      overlay
    }

    /** `ledGetColor`: the palette index, always a slot of the palette. */
    function GetColor(): (r: UInt8)
      reads this
      ensures r < LED_CONFIGURABLE_COLOR_COUNT
    {
      color
    }

    /** `ledGetDirection`: the direction mask, no wider than its field. */
    function GetDirection(): (r: UInt8)
      reads this
      ensures r < Pow2(LED_DIRECTION_BITCNT)
    {
      Pow2Values();
      direction
    }

    /** `ledGetParams`: the parameter, no wider than its field. */
    function GetParams(): (r: UInt8)
      reads this
      ensures r < Pow2(LED_PARAMS_BITCNT)
    {
      Pow2Values();
      params
    }

    /** `ledGetOverlayBit`: whether bit `id` of the overlay mask is set. */
    function GetOverlayBit(id: nat): (r: bool)
      reads this
      requires id < INT_BITS
      ensures r <==> Bit(overlay, id)
    {
      var shifted := Shr(GetOverlay(), id);
      LowMasks(shifted);
      BitIsShiftedParity(overlay, id);
      And(shifted, 1) != 0
    }

    /** `ledGetDirectionBit`: whether bit `id` of the direction mask is set. */
    function GetDirectionBit(id: nat): (r: bool)
      reads this
      requires id < INT_BITS
      ensures r <==> Bit(direction, id)
    {
      var shifted := Shr(GetDirection(), id);
      LowMasks(shifted);
      BitIsShiftedParity(direction, id);
      And(shifted, 1) != 0
    }

    // One bit-field assignment each; every one writes its own field only.

    method SetPosition(v: int)
      modifies this
      ensures position == StoreBits(v, LED_POS_BITCNT)
      ensures baseFunction == old(baseFunction) && overlay == old(overlay) && color == old(color)
      ensures direction == old(direction) && params == old(params)
    {
      Pow2Values();
      position := StoreBits(v, LED_POS_BITCNT);
    }

    method SetFunction(v: int)
      modifies this
      ensures baseFunction == StoreBits(v, LED_FUNCTION_BITCNT)
      ensures position == old(position) && overlay == old(overlay) && color == old(color)
      ensures direction == old(direction) && params == old(params)
    {
      Pow2Values();
      baseFunction := StoreBits(v, LED_FUNCTION_BITCNT);
    }

    method SetOverlay(v: int)
      modifies this
      ensures overlay == StoreBits(v, LED_OVERLAY_BITCNT)
      ensures position == old(position) && baseFunction == old(baseFunction) && color == old(color)
      ensures direction == old(direction) && params == old(params)
    {
      Pow2Values();
      overlay := StoreBits(v, LED_OVERLAY_BITCNT);
    }

    method SetColor(v: int)
      modifies this
      ensures color == StoreBits(v, LED_COLOR_BITCNT)
      ensures position == old(position) && baseFunction == old(baseFunction) && overlay == old(overlay)
      ensures direction == old(direction) && params == old(params)
    {
      Pow2Values();
      color := StoreBits(v, LED_COLOR_BITCNT);
    }

    method SetDirection(v: int)
      modifies this
      ensures direction == StoreBits(v, LED_DIRECTION_BITCNT)
      ensures position == old(position) && baseFunction == old(baseFunction) && overlay == old(overlay)
      ensures color == old(color) && params == old(params)
    {
      Pow2Values();
      direction := StoreBits(v, LED_DIRECTION_BITCNT);
    }

    method SetParams(v: int)
      modifies this
      ensures params == StoreBits(v, LED_PARAMS_BITCNT)
      ensures position == old(position) && baseFunction == old(baseFunction) && overlay == old(overlay)
      ensures color == old(color) && direction == old(direction)
    {
      Pow2Values();
      params := StoreBits(v, LED_PARAMS_BITCNT);
    }

    /** `DEFINE_LED`: fills all six fields, each with its argument reduced to
        the field's width; the coordinates come back as their low nibbles. */
    method Define(x: int, y: int, col: int, dir: int, func: int, ol: int, par: int)
      modifies this
      ensures GetXY() == CalculateXY(x, y)
      ensures GetX() == x % 16 && GetY() == y % 16
      ensures GetColor() == col % 16
      ensures GetDirection() == dir % 64
      ensures GetFunction() == func % 256
      ensures GetOverlay() == ol % 256
      ensures GetParams() == par % 64
    {
      var pos := CalculateXY(x, y);
      Pow2Values();
      FieldWidths(pos);
      FieldWidths(col);
      FieldWidths(dir);
      FieldWidths(func);
      FieldWidths(ol);
      FieldWidths(par);
      DivModUnique(pos, 256, 0, pos);
      SetPosition(pos);
      assert position == pos;
      SetColor(col);
      SetDirection(dir);
      SetFunction(func);
      SetOverlay(ol);
      SetParams(par);
      PositionRoundTrip(this, x, y);
    }
  }

  // ---------------------------------------------------------------------------
  // Properties of the position byte

  /** Reading back a position built from x and y gives their low nibbles,
      so in-range coordinates come back unchanged. */
  lemma PositionRoundTrip(l: LedConfig, x: int, y: int)
    requires l.position == CalculateXY(x, y)
    ensures l.GetX() == x % 16 && l.GetY() == y % 16
    ensures 0 <= x < 16 && 0 <= y < 16 ==> l.GetX() == x && l.GetY() == y
  {
    var hx, ly := x % 16, y % 16;
    DivModUnique(l.position, 16, hx, ly);
    if 0 <= x < 16 && 0 <= y < 16 {
      DivModUnique(x, 16, 0, x);
      DivModUnique(y, 16, 0, y);
    }
  }

  /** The position byte is its two coordinates, x above y, and packing them
      again rebuilds it. */
  lemma PositionSplit(l: LedConfig)
    ensures l.GetXY() == l.GetX() * 16 + l.GetY()
    ensures CalculateXY(l.GetX(), l.GetY()) == l.GetXY()
  {
    var p := l.position;
    DivModUnique(p / 16, 16, 0, p / 16);
    DivModUnique(p % 16, 16, 0, p % 16);
  }

  // ---------------------------------------------------------------------------
  // Properties of the single-bit tests

  /** A record whose overlay mask is `LED_FLAG_OVERLAY(id)` has exactly the
      overlay bit `id`. */
  lemma OverlayFlagSelects(l: LedConfig, id: nat, q: nat)
    requires id < LED_OVERLAY_BITCNT && l.overlay == FlagOverlay(id) && q < INT_BITS
    ensures l.GetOverlayBit(q) <==> q == id
  {
  }

  /** A record whose direction mask is `LED_FLAG_DIRECTION(d)` has exactly the
      direction bit of d, so it faces exactly direction d. */
  lemma DirectionFlagSelects(l: LedConfig, d: DirectionId, q: nat)
    requires l.direction == FlagDirection(d.Id()) && q < INT_BITS
    ensures l.GetDirectionBit(q) <==> q == d.Id()
    ensures forall e: DirectionId :: l.GetDirectionBit(e.Id()) <==> e == d
  {
    DirectionIdsNumbered();
  }

  /** Bits beyond a mask field's width always read as clear. */
  lemma BitsAboveFieldClear(l: LedConfig, id: nat)
    requires id < INT_BITS
    ensures LED_OVERLAY_BITCNT <= id ==> !l.GetOverlayBit(id)
    ensures LED_DIRECTION_BITCNT <= id ==> !l.GetDirectionBit(id)
  {
    Pow2Values();
    if LED_OVERLAY_BITCNT <= id {
      BitAboveWidth(l.overlay, LED_OVERLAY_BITCNT, id);
    }
    if LED_DIRECTION_BITCNT <= id {
      BitAboveWidth(l.direction, LED_DIRECTION_BITCNT, id);
    }
  }

  /** A flag for an id at or beyond the overlay field's width is lost when
      stored into the field. */
  lemma OverlayFlagBeyondField(id: nat)
    requires LED_OVERLAY_BITCNT <= id < INT_BITS - 1
    ensures StoreBits(FlagOverlay(id), LED_OVERLAY_BITCNT) == 0
  {
    Pow2Values();
    ShlOne(id);
    Pow2Add(id - LED_OVERLAY_BITCNT, LED_OVERLAY_BITCNT);
    FieldWidths(Pow2(id));
    DivModUnique(Pow2(id), 256, Pow2(id - LED_OVERLAY_BITCNT), 0);
  }

  // ---------------------------------------------------------------------------
  // Properties of the combined flag word

  /** The function and overlay masks are bytes 1 and 2 of the flag word and
      share no bit. */
  lemma FlagMasksDisjoint()
    ensures LED_FUNCTION_MASK == 0xFF00 && LED_OVERLAY_MASK == 0xFF_0000
    ensures And(LED_FUNCTION_MASK, LED_OVERLAY_MASK) == 0
  {
    FlagMaskValues();
    Pow2Values();
    AndShiftedApart(0xFF00, 0xFF, 16);
  }

  lemma FlagMaskValues()
    ensures LED_FUNCTION_MASK == 0xFF00 && LED_OVERLAY_MASK == 0xFF_0000
    ensures LED_FUNCTION_MASK == Shl(Pow2(8) - 1, 8) && LED_OVERLAY_MASK == Shl(Pow2(8) - 1, 16)
  {
    Pow2Values();
    OffsetShifts(0xFF);
  }

  /** A flag word built from a function byte and an overlay byte gives each
      back through its mask and offset. */
  lemma FlagWordRoundTrip(f: nat, o: nat)
    requires f < 0x100 && o < 0x100
    ensures Shr(And(Or(MovFunction(f), MovOverlay(o)), LED_FUNCTION_MASK), LED_FUNCTION_OFFSET) == f
    ensures Shr(And(Or(MovFunction(f), MovOverlay(o)), LED_OVERLAY_MASK), LED_OVERLAY_OFFSET) == o
  {
    FlagWordValue(f, o);
    FunctionFromFlagWord(f, o);
    OverlayFromFlagWord(f, o);
  }

  lemma FunctionFromFlagWord(f: nat, o: nat)
    requires f < 0x100 && o < 0x100
    ensures Shr(And(o * 65536 + f * 256, LED_FUNCTION_MASK), LED_FUNCTION_OFFSET) == f
  {
    var word := o * 65536 + f * 256;
    ExtractField(word, 8, 8);
    Pow2Values();
    ShrIsDiv(word, 8);
    DivModUnique(word, 256, o * 256 + f, 0);
    DivModUnique(o * 256 + f, 256, o, f);
  }

  lemma OverlayFromFlagWord(f: nat, o: nat)
    requires f < 0x100 && o < 0x100
    ensures Shr(And(o * 65536 + f * 256, LED_OVERLAY_MASK), LED_OVERLAY_OFFSET) == o
  {
    var word := o * 65536 + f * 256;
    ExtractField(word, 8, 16);
    Pow2Values();
    ShrIsDiv(word, 16);
    DivModUnique(word, 65536, o, f * 256);
    DivModUnique(o, 256, 0, o);
  }

  /** The flag word of a function byte and an overlay byte is their sum at
      their offsets. */
  lemma FlagWordValue(f: nat, o: nat)
    requires f < 0x100 && o < 0x100
    ensures Or(MovFunction(f), MovOverlay(o)) == o * 65536 + f * 256
  {
    Pow2Values();
    OffsetShifts(f);
    OffsetShifts(o);
    OrCommutes(MovFunction(f), MovOverlay(o));
    OrShiftedDisjoint(o, Shl(f, 8), 16);
  }

  // ---------------------------------------------------------------------------
  // Properties of the enumerations

  /** `colorId_e` lists its fourteen colours numbered 0, 1, 2, ... in
      declaration order. */
  lemma ColorIdsNumbered()
    ensures |COLOR_IDS| == 14
    ensures forall i | 0 <= i < |COLOR_IDS| :: COLOR_IDS[i].Id() == i
    ensures forall c: ColorId :: COLOR_IDS[c.Id()] == c
  {
  }

  /** `ledModeIndex_e` numbers its modes 0 .. LED_MODE_COUNT - 1 in
      declaration order, with the special slot right after them. */
  lemma ModeIndexesNumbered()
    ensures |MODE_INDEXES| == LED_MODE_COUNT + 1
    ensures forall i | 0 <= i < |MODE_INDEXES| :: MODE_INDEXES[i].Id() == i
    ensures forall m: ModeIndex :: MODE_INDEXES[m.Id()] == m
  {
  }

  /** `ledSpecialColorIds_e` numbers its LED_SPECIAL_COLOR_COUNT entries
      0, 1, 2, ... in declaration order. */
  lemma SpecialColorIdsNumbered()
    ensures |SPECIAL_COLOR_IDS| == LED_SPECIAL_COLOR_COUNT
    ensures forall i | 0 <= i < |SPECIAL_COLOR_IDS| :: SPECIAL_COLOR_IDS[i].Id() == i
    ensures forall c: SpecialColorId :: SPECIAL_COLOR_IDS[c.Id()] == c
  {
  }

  /** `ledDirectionId_e` numbers its LED_DIRECTION_COUNT directions 0, 1, 2,
      ... in declaration order. */
  lemma DirectionIdsNumbered()
    ensures |DIRECTION_IDS| == LED_DIRECTION_COUNT
    ensures forall i | 0 <= i < |DIRECTION_IDS| :: DIRECTION_IDS[i].Id() == i
    ensures forall d: DirectionId :: DIRECTION_IDS[d.Id()] == d
  {
  }

  /** `ledBaseFunctionId_e` numbers its LED_BASEFUNCTION_COUNT functions
      0, 1, 2, ... in declaration order. */
  lemma BaseFunctionIdsNumbered()
    ensures |BASE_FUNCTION_IDS| == LED_BASEFUNCTION_COUNT
    ensures forall i | 0 <= i < |BASE_FUNCTION_IDS| :: BASE_FUNCTION_IDS[i].Id() == i
    ensures forall f: BaseFunctionId :: BASE_FUNCTION_IDS[f.Id()] == f
  {
  }

  /** `ledOverlayId_e` numbers its LED_OVERLAY_COUNT overlays 0, 1, 2, ...
      in declaration order. */
  lemma OverlayIdsNumbered()
    ensures |OVERLAY_IDS| == LED_OVERLAY_COUNT
    ensures forall i | 0 <= i < |OVERLAY_IDS| :: OVERLAY_IDS[i].Id() == i
    ensures forall o: OverlayId :: OVERLAY_IDS[o.Id()] == o
  {
  }

  /** Every overlay id has a bit in the overlay field, and its flag is
      stored unchanged. */
  lemma OverlayFlagFits(o: OverlayId)
    ensures o.Id() < LED_OVERLAY_BITCNT
    ensures FlagOverlay(o.Id()) <= LED_FLAG_OVERLAY_MASK
    ensures StoreBits(FlagOverlay(o.Id()), LED_OVERLAY_BITCNT) == FlagOverlay(o.Id())
  {
    var id := o.Id();
    Pow2Monotone(id, LED_OVERLAY_BITCNT);
    Pow2Values();
    ShlOne(id);
    FieldWidths(Pow2(id));
    DivModUnique(Pow2(id), 256, 0, Pow2(id));
  }

  /** Every direction id has a bit in the direction field, and its flag is
      stored unchanged. */
  lemma DirectionFlagFits(d: DirectionId)
    ensures d.Id() < LED_DIRECTION_BITCNT
    ensures StoreBits(FlagDirection(d.Id()), LED_DIRECTION_BITCNT) == FlagDirection(d.Id())
  {
    var id := d.Id();
    Pow2Monotone(id, LED_DIRECTION_BITCNT);
    Pow2Values();
    ShlOne(id);
    FieldWidths(Pow2(id));
    DivModUnique(Pow2(id), 64, 0, Pow2(id));
  }

  /** Every base function id fits the function field, both as a value and as
      a single-bit flag. */
  lemma FunctionIdFits(f: BaseFunctionId)
    ensures f.Id() < Pow2(LED_FUNCTION_BITCNT)
    ensures Pow2(f.Id()) < Pow2(LED_FUNCTION_BITCNT)
  {
    Pow2Monotone(f.Id(), LED_FUNCTION_BITCNT);
    Pow2Values();
  }

  /** The color field addresses exactly the configurable palette, and every
      default color has a slot in it. */
  lemma ColorFieldAddressesPalette(c: ColorId)
    ensures Pow2(LED_COLOR_BITCNT) == LED_CONFIGURABLE_COLOR_COUNT
    ensures c.Id() < Pow2(LED_COLOR_BITCNT)
  {
    Pow2Values();
  }
}
