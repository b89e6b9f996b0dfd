# LED-strip configuration record (inav `ledstrip.h`)

A model of the per-LED configuration record of inav's LED-strip subsystem and
of the shift-and-mask helpers that pack and unpack it, with proofs of the
properties those helpers exist for.

Every LED of the strip is described by a `ledConfig_t`. It has six unsigned
bit fields:

- a grid position: x in the high nibble, y in the low nibble;
- a base function;
- an overlay mask;
- an index into the 16-slot configurable color palette;
- a direction mask;
- a 6-bit parameter.

The header builds these fields with `CALCULATE_LED_XY` and `DEFINE_LED`. It
reads them back with the `ledGet*` accessors. It composes single-bit flags and
a combined function/overlay flag word with the `LED_FLAG_*`, `LED_MOV_*` and
`*_MASK` macros. Its enumerations fix the ids that these masks and the color
tables are indexed with.

The project has two modules:

- `CBits` (`cbits.dfy`) gives C's `&`, `|`, `<<` and `>>` on unbounded
  integers, defined bit by bit.
  - `And` follows the two's-complement representation for negative operands,
    as C's `&` on `int` does.
  - `Bit(v, i)` is the digit-by-digit reading of a binary numeral. It is the
    reference that the bit tests are proved against.
  - The lemmas connect the operators to arithmetic: masking with `2^n - 1` is
    reduction modulo `2^n`; shifts multiply and divide by powers of two;
    extracting a field works; OR of non-overlapping values is their sum.
- `LedStrip` (`ledstrip.dfy`) holds:
  - the header's constants under their C names;
  - one datatype per enumeration, with its numeric `Id()`;
  - the macros, as functions;
  - `LedConfig`, a class with one field per bit field;
  - the lemmas about all of these.

  `DEFINE_LED` assigns the six fields of a record in place through a pointer.
  It is therefore a method, `LedConfig.Define`, that calls one setter per
  assignment in the C order, on argument values computed before the first
  assignment (see "Left out" for what this does not cover). Each setter stores its value as a C bit-field
  assignment does: it keeps the low `width` bits (`StoreBits`), and it says
  that the other five fields do not change.

Three facts about the header shape the model:

- The function field is a plain 8-bit value. The header has no per-bit
  accessor for it: `DEFINE_LED` stores it and `ledGetFunction` returns it
  whole. The model proves that every base function id fits the field both as
  a value below 256 and as the single-bit flag `1 << id` (`FunctionIdFits`).
- The overlay field is 8 bits wide (`LED_OVERLAY_BITCNT`), although only
  seven overlay ids exist. The model uses the 8 bits, and it proves that all
  seven overlay flags fit.
- The six fields are declared as `uint16_t` bit fields whose widths total
  8+8+8+4+6+6 = 40 bits, in a packed struct. The model keeps the six logical
  fields and their widths, not a memory layout.

## Model

| member | source | states |
|---|---|---|
| `LedStrip.CalculateXY` | src/main/io/ledstrip.h:53-56 | the packed position is below 2^8, so it fits the 8-bit position field, and it equals (x mod 16)·16 + (y mod 16): x's low nibble above y's |
| `LedStrip.StoreBits` | src/main/io/ledstrip.h:135-142 | storing a value into an unsigned bit field of width w keeps exactly its value reduced modulo 2^w, negative values included, and the result fits the field |
| `LedStrip.FlagOverlay` | src/main/io/ledstrip.h:50 | `LED_FLAG_OVERLAY(id)` has bit `id` set and no other bit, for every id whose shift is defined on a 32-bit `int` |
| `LedStrip.FlagDirection` | src/main/io/ledstrip.h:51 | `LED_FLAG_DIRECTION(id)` has bit `id` set and no other bit |
| `LedStrip.MovFunction` | src/main/io/ledstrip.h:44 | `LED_MOV_FUNCTION(func)` is func multiplied by 2^`LED_FUNCTION_OFFSET`, that is, func moved up to bit 8 |
| `LedStrip.MovOverlay` | src/main/io/ledstrip.h:45 | `LED_MOV_OVERLAY(overlay)` is overlay multiplied by 2^`LED_OVERLAY_OFFSET`, that is, overlay moved up to bit 16 |
| `LedStrip.LedConfig.GetXY` | src/main/io/ledstrip.h:169 | `ledGetXY` is the position byte, which equals `ledGetX * 16 + ledGetY` |
| `LedStrip.LedConfig.GetFunction` | src/main/io/ledstrip.h:172 | `ledGetFunction` returns the stored function byte; its value after `DEFINE_LED` is stated by `LedStrip.LedConfig.Define` |
| `LedStrip.LedConfig.GetOverlay` | src/main/io/ledstrip.h:173 | `ledGetOverlay` returns the stored overlay mask; its value after `DEFINE_LED` is stated by `LedStrip.LedConfig.Define` |
| `LedStrip.LedConfig.GetColor` | src/main/io/ledstrip.h:174 | `ledGetColor` is always below `LED_CONFIGURABLE_COLOR_COUNT`, so it names a palette slot; its value after `DEFINE_LED` is stated by `LedStrip.LedConfig.Define` |
| `LedStrip.LedConfig.GetDirection` | src/main/io/ledstrip.h:175 | `ledGetDirection` is always below 2^`LED_DIRECTION_BITCNT`; its value after `DEFINE_LED` is stated by `LedStrip.LedConfig.Define` |
| `LedStrip.LedConfig.GetParams` | src/main/io/ledstrip.h:176 | `ledGetParams` is always below 2^`LED_PARAMS_BITCNT`; its value after `DEFINE_LED` is stated by `LedStrip.LedConfig.Define` |
| `LedStrip.LedConfig.GetX` | src/main/io/ledstrip.h:170 | `ledGetX` is below 16 and is the high nibble of the position byte |
| `LedStrip.LedConfig.GetY` | src/main/io/ledstrip.h:171 | `ledGetY` is below 16 and is the low nibble of the position byte |
| `LedStrip.LedConfig.GetOverlayBit` | src/main/io/ledstrip.h:178 | `ledGetOverlayBit(l, id)` is true exactly when binary digit `id` of the stored overlay mask is 1 |
| `LedStrip.LedConfig.GetDirectionBit` | src/main/io/ledstrip.h:179 | `ledGetDirectionBit(l, id)` is true exactly when binary digit `id` of the stored direction mask is 1 |
| `LedStrip.LedConfig.SetPosition` | src/main/io/ledstrip.h:136 | assigning the position field stores the value modulo 2^8 and leaves the other five fields unchanged |
| `LedStrip.LedConfig.SetFunction` | src/main/io/ledstrip.h:137 | assigning the function field stores the value modulo 2^8 and leaves the other five fields unchanged |
| `LedStrip.LedConfig.SetOverlay` | src/main/io/ledstrip.h:138 | assigning the overlay field stores the value modulo 2^8 and leaves the other five fields unchanged |
| `LedStrip.LedConfig.SetColor` | src/main/io/ledstrip.h:139 | assigning the color field stores the value modulo 2^4 and leaves the other five fields unchanged |
| `LedStrip.LedConfig.SetDirection` | src/main/io/ledstrip.h:140 | assigning the direction field stores the value modulo 2^6 and leaves the other five fields unchanged |
| `LedStrip.LedConfig.SetParams` | src/main/io/ledstrip.h:141 | assigning the params field stores the value modulo 2^6 and leaves the other five fields unchanged |
| `LedStrip.LedConfig.Define` | src/main/io/ledstrip.h:161-167 | after `DEFINE_LED`, `ledGetXY` is `CALCULATE_LED_XY(x, y)`, `ledGetX`/`ledGetY` give x and y mod 16, and color, direction, function, overlay and params each read back as their argument reduced modulo 2^width of their field |
| `LedStrip.PositionRoundTrip` | src/main/io/ledstrip.h:169-171 | a position built by `CALCULATE_LED_XY(x, y)` reads back through `ledGetX`/`ledGetY` as x & 0x0F and y & 0x0F for all integers, and as x and y themselves when both are in 0..15 |
| `LedStrip.PositionSplit` | src/main/io/ledstrip.h:169-171 | for every position byte, `ledGetXY == ledGetX * 16 + ledGetY`, and `CALCULATE_LED_XY(ledGetX, ledGetY)` rebuilds the byte |
| `LedStrip.OverlayFlagSelects` | src/main/io/ledstrip.h:50 | for a record whose overlay is `LED_FLAG_OVERLAY(id)`, `ledGetOverlayBit(q)` is true if and only if q == id |
| `LedStrip.DirectionFlagSelects` | src/main/io/ledstrip.h:51 | for a record whose direction is `LED_FLAG_DIRECTION(d)`, `ledGetDirectionBit(q)` is true if and only if q is d's id, for every defined query q; among the direction ids, exactly d's reads true |
| `LedStrip.BitsAboveFieldClear` | src/main/io/ledstrip.h:178-179 | querying an overlay bit at or above bit 8, or a direction bit at or above bit 6, always gives false |
| `LedStrip.OverlayFlagBeyondField` | src/main/io/ledstrip.h:37-50 | the flag of an id at or above `LED_OVERLAY_BITCNT` is lost entirely when stored into the overlay field |
| `LedStrip.FlagMaskValues` | src/main/io/ledstrip.h:42-48 | `LED_FUNCTION_MASK` is 0xFF00 and `LED_OVERLAY_MASK` is 0xFF0000, and each is a block of eight one-bits moved to its offset |
| `LedStrip.FlagMasksDisjoint` | src/main/io/ledstrip.h:47-48 | `LED_FUNCTION_MASK & LED_OVERLAY_MASK` is 0: the two masks share no bit |
| `LedStrip.FlagWordValue` | src/main/io/ledstrip.h:44-45 | for bytes f and o, the OR of `LED_MOV_FUNCTION(f)` and `LED_MOV_OVERLAY(o)` is o·2^16 + f·2^8 |
| `LedStrip.FunctionFromFlagWord` | src/main/io/ledstrip.h:47 | masking the word o·2^16 + f·2^8 with `LED_FUNCTION_MASK` and shifting right by `LED_FUNCTION_OFFSET` gives f |
| `LedStrip.OverlayFromFlagWord` | src/main/io/ledstrip.h:48 | masking the word o·2^16 + f·2^8 with `LED_OVERLAY_MASK` and shifting right by `LED_OVERLAY_OFFSET` gives o |
| `LedStrip.FlagWordRoundTrip` | src/main/io/ledstrip.h:32-48 | for any bytes f and o, the flag word built as the OR of `LED_MOV_FUNCTION(f)` and `LED_MOV_OVERLAY(o)` gives back f through the function mask and offset 8, and o through the overlay mask and offset 16 |
| `LedStrip.ColorId.Id` | src/main/io/ledstrip.h:58-73 | every `colorId_e` value indexes one of the `LED_CONFIGURABLE_COLOR_COUNT` palette slots |
| `LedStrip.ModeIndex.Id` | src/main/io/ledstrip.h:75-83 | a `ledModeIndex_e` value indexes one of the `LED_MODE_COUNT` rows of mode colors exactly when it is not `LED_SPECIAL`, which comes right after them |
| `LedStrip.SpecialColorId.Id` | src/main/io/ledstrip.h:85-95 | every `ledSpecialColorIds_e` value indexes `specialColorIndexes_t.color` (length `LED_SPECIAL_COLOR_COUNT`) in bounds |
| `LedStrip.DirectionId.Id` | src/main/io/ledstrip.h:97-104 | every `ledDirectionId_e` value is below `LED_DIRECTION_COUNT`, the length of `modeColorIndexes_t.color` |
| `LedStrip.BaseFunctionId.Id` | src/main/io/ledstrip.h:106-115 | every `ledBaseFunctionId_e` value is below `LED_BASEFUNCTION_COUNT` |
| `LedStrip.OverlayId.Id` | src/main/io/ledstrip.h:117-125 | every `ledOverlayId_e` value is below `LED_OVERLAY_COUNT` |
| `LedStrip.ColorIdsNumbered` | src/main/io/ledstrip.h:58-73 | the fourteen colors are numbered 0, 1, 2, ... in declaration order, and each color sits at its own number |
| `LedStrip.ModeIndexesNumbered` | src/main/io/ledstrip.h:75-83 | the modes are numbered 0 .. `LED_MODE_COUNT` - 1 in declaration order, with the special slot numbered `LED_MODE_COUNT` |
| `LedStrip.SpecialColorIdsNumbered` | src/main/io/ledstrip.h:85-95 | the special colors are exactly `LED_SPECIAL_COLOR_COUNT` = 9 entries, numbered in declaration order |
| `LedStrip.DirectionIdsNumbered` | src/main/io/ledstrip.h:97-104 | the directions are exactly `LED_DIRECTION_COUNT` entries, numbered in declaration order |
| `LedStrip.BaseFunctionIdsNumbered` | src/main/io/ledstrip.h:106-115 | the base functions are exactly `LED_BASEFUNCTION_COUNT` entries, numbered in declaration order |
| `LedStrip.OverlayIdsNumbered` | src/main/io/ledstrip.h:117-125 | the overlays are exactly `LED_OVERLAY_COUNT` entries, numbered in declaration order |
| `LedStrip.OverlayFlagFits` | src/main/io/ledstrip.h:117-125 | every overlay id is below `LED_OVERLAY_BITCNT`, its flag is within `LED_FLAG_OVERLAY_MASK`, and the flag is stored in the overlay field unchanged |
| `LedStrip.DirectionFlagFits` | src/main/io/ledstrip.h:97-104 | every direction id is below `LED_DIRECTION_BITCNT`, and its flag is stored in the 6-bit direction field unchanged |
| `LedStrip.FunctionIdFits` | src/main/io/ledstrip.h:106-115 | every base function id fits the 8-bit function field both as a value and as a single-bit flag |
| `LedStrip.ColorFieldAddressesPalette` | src/main/io/ledstrip.h:25-38 | the 4-bit color field addresses exactly the `LED_CONFIGURABLE_COLOR_COUNT` = 16 palette slots, and every default color has one |
| `CBits.AndLowMask` | src/main/io/ledstrip.h:55-56 | `x & (2^n - 1)` is x reduced modulo 2^n, for negative x too, so `x & LED_XY_MASK` is x mod 16 |
| `CBits.OrShiftedDisjoint` | src/main/io/ledstrip.h:56 | OR of a value shifted left by k with a value below 2^k is their sum, as in the two nibbles of `CALCULATE_LED_XY` |
| `CBits.ExtractField` | src/main/io/ledstrip.h:47-48 | masking with a block of w one-bits at bit k and shifting right by k extracts the w-bit field at bit k |
| `CBits.AndShiftedApart` | src/main/io/ledstrip.h:47-48 | a value below 2^k shares no bit with any value shifted left by k |
| `CBits.BitIsShiftedParity` | src/main/io/ledstrip.h:178-179 | the test `(v >> i) & 1` reads binary digit i of v |
| `CBits.BitOfPow2` | src/main/io/ledstrip.h:50-51 | `1 << n` (2^n) has digit n set and no other digit |

## Left out

- The functions declared without bodies (`parseColor`, `parseLedStripConfig`, `generateLedConfig`, `reevaluateLedConfig`, `ledStripInit`, `ledStripEnable`, `ledStripUpdate`, `setModeColor`, src/main/io/ledstrip.h:181-191) are not modelled. Their implementations are not part of this model, so the text grammar, rendering, overlay priority, animation timing and mode-color validation are not modelled either.
- `PG_DECLARE` and the parameter-group registration (src/main/io/ledstrip.h:20, 159) are storage plumbing and are not modelled.
- `hsvColor_t` and the receiver types come from `common/color.h` and `rx/rx.h`, which are not part of this model.
- `ledCounts_t`, `ledStripConfig_t`, `modeColorIndexes_t` and `specialColorIndexes_t` (src/main/io/ledstrip.h:127-157) hold no logic in this header. The model keeps only the array lengths that the enumerations index: `LED_MODE_COUNT`, `LED_DIRECTION_COUNT`, `LED_SPECIAL_COLOR_COUNT` and `LED_CONFIGURABLE_COLOR_COUNT`.
- The physical layout of `ledConfig_t` is not modelled. This covers `__attribute__((packed))`, the compiler's bit-field order and the host byte order. The fields are modelled by logical value and width.
- `LedStrip.LedConfig.Define` takes its seven arguments as values computed once, before any field is written. `DEFINE_LED` is a macro that evaluates each argument at its own assignment, after the earlier fields are written, and evaluates the record pointer once per assignment. Arguments that read the same record (such as `ledGetFunction(p)` passed as the direction), arguments with side effects, and a pointer expression with side effects are not modelled.
- `LedStrip.LedConfig.GetOverlayBit` takes a natural `id` below 32 rather than any `int`. A negative shift count, or one of 32 or more, is undefined behaviour in C, so those inputs have no C meaning to model. `GetDirectionBit` takes the same kind of `id`.
- `LedStrip.FlagOverlay` requires `id < 31` because `1 << 31` overflows a 32-bit `int`. `FlagDirection` has the same bound. The model assumes a 32-bit `int` (`INT_BITS`), as on the flight-controller targets.
- `LedStrip.MovFunction` requires a value below 2^23 so that the shift stays defined on a 32-bit `int`. `MovOverlay` requires one below 2^15 for the same reason.
- The C accessors return `uint8_t`. The model returns the stored field value. Since every field is at most 8 bits wide, the two are the same.
