# Resistor colour-code calculator (Dafny model)

This project models the logic of the four-band resistor calculator screen
in `resistencia.kt`. The user picks a colour for band 1, band 2 and the
multiplier from the `colores` list, and a tolerance label from
`tolerancias`. `calcularResistencia` then computes:

- the significand, which is band 1's position times ten plus band 2's position;
- the result, which is the significand times ten to the multiplier's position.

`formatearResistencia` renders the result with comma thousands separators and
the suffix " Ω". The result is narrowed through `Double.toInt()` first. The
screen also shows a swatch per band from `obtenerColor`. The tolerance swatch
is chosen from the tolerance label.

The project has four modules:

- `ColorTable` (`color_table.dfy`) holds the colour and tolerance enumerations and the `colores` and `tolerancias` lists. It defines the list `indexOf`, each colour's digit and the `obtenerColor` lookup with its transparent fallback.
- `Calculator` (`calculator.dfy`) holds the significand, the powers of ten and the resistance in exact whole ohms.
- `Formatting` (`formatting.dfy`) holds the `toInt()` saturation at `Int.MAX_VALUE`, the decimal numeral, the grouping by threes, the display text and a reader for the display text. The reader is the inverse the round-trip lemmas are stated against.
- `Selection` (`selection.dfy`) holds the class `Interfaz`. Its fields are the four selections and the display string. Each dropdown callback writes its own field and then recomputes the display. The invariant `Valid` is that the display equals `Format(Resistance(bands))`.

The `toInt()` narrowing is modelled as the code has it. A resistance above
2,147,483,647 Ω is displayed as "2,147,483,647 Ω".
`Calculator.ResistanceOverflowsExactly` pins down when that happens: for
multiplier 10^8 with a significand of 22 or more, and for multiplier 10^9
with a significand of 3 or more. With multiplier 10^9, a significand of 1 or 2
(1,000,000,000 Ω and 2,000,000,000 Ω) still fits and is displayed exactly.

## Model

| member | source | states |
|---|---|---|
| ColorTable.IndexOf | app/src/main/java/com/example/clasekotlin/items/resistencia.kt:58-60 | List `indexOf`: -1 exactly when the element is absent; otherwise a position holding it with no earlier occurrence |
| ColorTable.DigitValue | app/src/main/java/com/example/clasekotlin/items/resistencia.kt:15 | A colour's digit is in 0..9 and is a position of `colores` holding the colour's name |
| ColorTable.DigitValueIsIndexOf | app/src/main/java/com/example/clasekotlin/items/resistencia.kt:58-60 | `colores.indexOf(name)` of every band colour is its digit (never -1) |
| ColorTable.DigitValueInjective | app/src/main/java/com/example/clasekotlin/items/resistencia.kt:15 | Distinct colours have distinct digits |
| ColorTable.ColorOfDigit | app/src/main/java/com/example/clasekotlin/items/resistencia.kt:15 | The colour at position d of `colores` carries the name listed there |
| ColorTable.ColorOfDigitRoundTrip | app/src/main/java/com/example/clasekotlin/items/resistencia.kt:15 | Every digit 0..9 is the digit of exactly the colour listed at that position |
| ColorTable.DigitValueRoundTrip | app/src/main/java/com/example/clasekotlin/items/resistencia.kt:15 | A colour is recovered from its digit, so colours and digits 0..9 are in one-to-one correspondence |
| ColorTable.ObtenerColor | app/src/main/java/com/example/clasekotlin/items/resistencia.kt:19-34 | `obtenerColor` is total: Transparent exactly for names outside the twelve listed; Gold exactly for "Dorado", Silver exactly for "Plateado" |
| ColorTable.BandSwatchesDistinct | app/src/main/java/com/example/clasekotlin/items/resistencia.kt:19-30 | Every band colour's name gets an opaque swatch that is not gold or silver, and distinct colours get distinct swatches |
| ColorTable.ToleranceSwatchName | app/src/main/java/com/example/clasekotlin/items/resistencia.kt:110 | The name chosen for the tolerance box: "Dorado" exactly for the 5% label, "Plateado" exactly for the 10% label, and a name `obtenerColor` does not list for every other label |
| ColorTable.ToleranceSwatch | app/src/main/java/com/example/clasekotlin/items/resistencia.kt:110 | Tolerance swatch: Gold iff the label is "±5% Dorado", Silver iff "±10% Plateado", Transparent for every other label |
| ColorTable.ToleranceSwatchOfOptions | app/src/main/java/com/example/clasekotlin/items/resistencia.kt:16 | Each of the three `tolerancias` labels is in the list and gets gold, silver and no swatch respectively |
| Calculator.Significand | app/src/main/java/com/example/clasekotlin/items/resistencia.kt:58-59 | The significand is at most 99; its tens digit is band 1's digit and its units digit is band 2's digit (place value, not a product) |
| Calculator.SignificandInjective | app/src/main/java/com/example/clasekotlin/items/resistencia.kt:58-59 | Equal significands come from equal band 1 and band 2 colours |
| Calculator.SignificandOnto | app/src/main/java/com/example/clasekotlin/items/resistencia.kt:58-59 | Every number 0..99 is the significand of some colour pair |
| Calculator.Pow10 | app/src/main/java/com/example/clasekotlin/items/resistencia.kt:60 | `10.0.pow(e)` for a whole exponent: at least 1; `Pow10UpToNine` gives its ten values |
| Calculator.Pow10UpToNine | app/src/main/java/com/example/clasekotlin/items/resistencia.kt:60 | The multiplier factors for the ten exponents are exactly 1, 10, ..., 10^9 |
| Calculator.Resistance | app/src/main/java/com/example/clasekotlin/items/resistencia.kt:57-61 | `calcularResistencia`'s value, with no contract of its own: `ResistanceBound` states it is significand × 10^multiplier digit and at most 99 × 10^9, `ResistanceFactors`, `ResistanceZero`, `ResistanceNumeral` and `ResistanceOverflowsExactly` the rest |
| Calculator.ResistanceBound | app/src/main/java/com/example/clasekotlin/items/resistencia.kt:57-61 | The resistance equals significand × 10^multiplier digit, a whole number of at most 99 × 10^9 |
| Calculator.ResistanceFactors | app/src/main/java/com/example/clasekotlin/items/resistencia.kt:58-61 | The resistance is divisible by 10^multiplier digit and the quotient is the significand |
| Calculator.ResistanceZero | app/src/main/java/com/example/clasekotlin/items/resistencia.kt:58-61 | The resistance is zero exactly when both digit bands are black |
| Calculator.ResistanceNumeral | app/src/main/java/com/example/clasekotlin/items/resistencia.kt:58-61 | For a nonzero significand, the resistance's numeral is the significand's numeral followed by as many zeros as the multiplier's digit |
| Calculator.ResistanceOverflowsExactly | app/src/main/java/com/example/clasekotlin/items/resistencia.kt:50-61 | The resistance exceeds `Int.MAX_VALUE` iff the exponent is 8 with significand ≥ 22, or the exponent is 9 with significand ≥ 3 |
| Calculator.YellowVioletRed | app/src/main/java/com/example/clasekotlin/items/resistencia.kt:47-64 | Yellow, violet, red: significand 47, 4700 Ω, displayed "4,700 Ω" |
| Calculator.BrownBlackOrange | app/src/main/java/com/example/clasekotlin/items/resistencia.kt:47-64 | Brown, black, orange: 10000 Ω, displayed "10,000 Ω" |
| Calculator.AllBlack | app/src/main/java/com/example/clasekotlin/items/resistencia.kt:40-44 | Three black bands: 0 Ω, displayed "0 Ω", the initial display text |
| Calculator.RedRedGray | app/src/main/java/com/example/clasekotlin/items/resistencia.kt:50 | Red, red, gray is 2,200,000,000 Ω but is displayed saturated as "2,147,483,647 Ω" |
| Calculator.BlackBrownWhite | app/src/main/java/com/example/clasekotlin/items/resistencia.kt:50 | Black, brown, white is 10^9 Ω, which fits in an `Int` and is displayed "1,000,000,000 Ω" |
| Formatting.ToInt | app/src/main/java/com/example/clasekotlin/items/resistencia.kt:50 | `toInt()` on a whole non-negative value saturates: equal to the value exactly when it fits, and exactly `Int.MAX_VALUE` when it does not (never above either) |
| Formatting.DecimalDigits | app/src/main/java/com/example/clasekotlin/items/resistencia.kt:48-50 | The numeral of a value is a non-empty string of decimal digits |
| Formatting.DecimalDigitsCanonical | app/src/main/java/com/example/clasekotlin/items/resistencia.kt:48-50 | The numeral has no leading zero except for zero itself, and has one digit exactly for values below ten |
| Formatting.DecimalDigitsRoundTrip | app/src/main/java/com/example/clasekotlin/items/resistencia.kt:48-50 | Reading the numeral back gives the value |
| Formatting.Group | app/src/main/java/com/example/clasekotlin/items/resistencia.kt:48 | The `#,###` grouping leaves a numeral of at most three digits unchanged; its other properties are stated by `GroupLength`, `GroupShape`, `GroupRoundTrip` and `GroupKeepsLeadingDigit` |
| Formatting.GroupLength | app/src/main/java/com/example/clasekotlin/items/resistencia.kt:48 | Grouping n digits by threes inserts (n-1)/3 separators |
| Formatting.GroupRoundTrip | app/src/main/java/com/example/clasekotlin/items/resistencia.kt:48 | Removing the separators from a grouped numeral gives back its digits |
| Formatting.GroupShape | app/src/main/java/com/example/clasekotlin/items/resistencia.kt:48 | In a grouped numeral, a place holds ',' exactly when it is every fourth place counted from the right, i.e. groups of three from the right |
| Formatting.GroupKeepsLeadingDigit | app/src/main/java/com/example/clasekotlin/items/resistencia.kt:48 | A grouped numeral is non-empty and starts with the numeral's first digit |
| Formatting.Format | app/src/main/java/com/example/clasekotlin/items/resistencia.kt:47-50 | `formatearResistencia`'s integer branch: the text has at least three characters and ends with " Ω"; `FormatShape`, `FormatRoundTrip`, `FormatInjective` and `FormatSaturates` state the rest |
| Formatting.FormatShape | app/src/main/java/com/example/clasekotlin/items/resistencia.kt:47-50 | The display has at least three characters, starts with a decimal digit (so never with a separator) and ends with " Ω" |
| Formatting.FormatRoundTrip | app/src/main/java/com/example/clasekotlin/items/resistencia.kt:47-50 | Dropping " Ω" and the separators from the display reads back the narrowed value, hence the value itself whenever it fits in an `Int` |
| Formatting.FormatInjective | app/src/main/java/com/example/clasekotlin/items/resistencia.kt:47-50 | Distinct values up to `Int.MAX_VALUE` get distinct displays |
| Formatting.FormatSaturates | app/src/main/java/com/example/clasekotlin/items/resistencia.kt:50 | Every value above `Int.MAX_VALUE` is displayed exactly as `Int.MAX_VALUE` is, and reads back as it |
| Formatting.FormatZero | app/src/main/java/com/example/clasekotlin/items/resistencia.kt:48-50 | Zero is displayed "0 Ω" (the `#,###` pattern still prints one zero digit) |
| Formatting.FormatFourDigits | app/src/main/java/com/example/clasekotlin/items/resistencia.kt:48-50 | 4700 is displayed "4,700 Ω" |
| Formatting.FormatFiveDigits | app/src/main/java/com/example/clasekotlin/items/resistencia.kt:48-50 | 10000 is displayed "10,000 Ω" |
| Formatting.FormatIntMax | app/src/main/java/com/example/clasekotlin/items/resistencia.kt:48-50 | `Int.MAX_VALUE` is displayed "2,147,483,647 Ω" |
| Formatting.FormatBillion | app/src/main/java/com/example/clasekotlin/items/resistencia.kt:48-50 | 10^9 is displayed "1,000,000,000 Ω" |
| Selection.Interfaz.constructor | app/src/main/java/com/example/clasekotlin/items/resistencia.kt:40-44 | The initial state has all bands at the first colour (black), the first tolerance label and display "0 Ω", and that display already agrees with the bands |
| Selection.Interfaz.CalcularResistencia | app/src/main/java/com/example/clasekotlin/items/resistencia.kt:57-64 | Writes only the display, which afterwards is the formatted resistance of the current bands |
| Selection.Interfaz.SeleccionarBanda1 | app/src/main/java/com/example/clasekotlin/items/resistencia.kt:73-76 | Band 1 takes the new colour, the other selections stay, and the display matches the new bands |
| Selection.Interfaz.SeleccionarBanda2 | app/src/main/java/com/example/clasekotlin/items/resistencia.kt:78-81 | Band 2 takes the new colour, the other selections stay, and the display matches the new bands |
| Selection.Interfaz.SeleccionarMultiplicador | app/src/main/java/com/example/clasekotlin/items/resistencia.kt:83-86 | The multiplier takes the new colour, the other selections stay, and the display matches the new bands |
| Selection.Interfaz.SeleccionarTolerancia | app/src/main/java/com/example/clasekotlin/items/resistencia.kt:88-91 | The tolerance takes the new label, the bands stay, the display matches the bands, and on a consistent screen the display text is unchanged |
| Selection.Interfaz.ToleranceBox | app/src/main/java/com/example/clasekotlin/items/resistencia.kt:109-110 | The tolerance box is gold for the 5% option, silver for the 10% option and transparent for the 20% option |
| Selection.Interfaz.DisplayReadsBack | app/src/main/java/com/example/clasekotlin/items/resistencia.kt:44-64 | On a consistent screen the display text reads back as the narrowed resistance of the current bands |
| Selection.SelectAll | app/src/main/java/com/example/clasekotlin/items/resistencia.kt:73-91 | After choosing the tolerance, multiplier, band 2 and band 1 in turn, the display is that of the chosen bands, whatever came before |
| Selection.YellowVioletRedScreen | app/src/main/java/com/example/clasekotlin/items/resistencia.kt:40-91 | Starting from a fresh screen and choosing yellow, violet, red shows "4,700 Ω" |

## Left out

- The Compose layout and rendering (`Column`, `Row`, `Spacer`, `Text`, `DropdownSelector` with its `expanded` toggle, `ColorBox`) is not modelled; it holds no logic beyond passing values along. This includes the headline text at line 95, which only concatenates the display and the tolerance label.
- `remember`/`mutableStateOf` recomposition is not modelled. The selections are plain fields of `Selection.Interfaz`, and each callback is one method call.
- IEEE `Double` arithmetic and `10.0.pow` are replaced by exact `nat` arithmetic. Every reachable value is a whole number of at most 99 × 10^9, which a `Double` represents exactly, so no rounding is lost. The only floating-point effect kept is the saturation of `toInt()`.
- The fractional branch of `formatearResistencia` (line 52) is not modelled. It is unreachable because every value is whole. `Formatting.Format` models the integer branch only.
- `DecimalFormat` locale behaviour is not modelled: the grouping separator is fixed to ','.
- The RGB constants of `Color` are not modelled. Swatches form an enumeration of the twelve named colours plus Transparent.
- Selections are enumerations (`BandColor`, `Tolerance`), not free strings, because the dropdowns only offer entries of the fixed lists. The -1 result of `indexOf` therefore cannot arise for a band. `ColorTable.IndexOf` still models -1 for absent elements, and `ColorTable.DigitValueIsIndexOf` shows that a band never hits it.
