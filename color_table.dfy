/**
 The fixed colour configuration of the resistor calculator: the ordered list of
 the ten band colours (whose positions are the band digits), the list of the
 three tolerance labels, the lookup of a colour's digit by its position in the
 list, and the swatch lookup by name with its transparent fallback.
 */
module ColorTable {

  /** The ten band colours, in the order of the `colores` list. */
  datatype BandColor =
    | Negro | Marron | Rojo | Naranja | Amarillo
    | Verde | Azul | Violeta | Gris | Blanco

  /** The three tolerance options, in the order of the `tolerancias` list. */
  datatype Tolerance = Dorado5 | Plateado10 | Ninguno20

  /** The swatch colours `obtenerColor` can return; the RGB values are not modelled. */
  datatype Swatch =
    | Black | Brown | Red | Orange | Yellow | Green | Blue
    | Violet | Gray | White | Gold | Silver | Transparent

  /** The name a band colour is shown and selected by. */
  function Name(c: BandColor): string {
    match c
    case Negro => "Negro"
    case Marron => "Marrón"
    case Rojo => "Rojo"
    case Naranja => "Naranja"
    case Amarillo => "Amarillo"
    case Verde => "Verde"
    case Azul => "Azul"
    case Violeta => "Violeta"
    case Gris => "Gris"
    case Blanco => "Blanco"
  }

  /** The `colores` list: its order defines each colour's digit and exponent. */
  const Colores: seq<string> :=
    ["Negro", "Marrón", "Rojo", "Naranja", "Amarillo", "Verde", "Azul", "Violeta", "Gris", "Blanco"]

  /** The label a tolerance option is shown and selected by. */
  function Label(t: Tolerance): string {
    match t
    case Dorado5 => "±5% Dorado"
    case Plateado10 => "±10% Plateado"
    case Ninguno20 => "±20% Ninguno"
  }

  /** The `tolerancias` list. */
  const Tolerancias: seq<string> := ["±5% Dorado", "±10% Plateado", "±20% Ninguno"]

  /**
   List `indexOf`: the position of the first occurrence of `x` in `s`, or -1
   when `x` does not occur.
   */
  function IndexOf<T(==)>(s: seq<T>, x: T): (i: int)
    ensures -1 <= i < |s|
    ensures i == -1 <==> x !in s
    ensures 0 <= i ==> s[i] == x && forall j :: 0 <= j < i ==> s[j] != x
  {
    if s == [] then -1
    else if s[0] == x then 0
    else
      var k := IndexOf(s[1..], x);
      if k == -1 then -1 else k + 1
  }

  /**
   A band colour's digit: its position in `colores`, 0 for Negro up to 9 for
   Blanco (`DigitValueIsIndexOf` shows it is what `colores.indexOf` finds).
   */
  function DigitValue(c: BandColor): (d: nat)
    ensures d <= 9 && Colores[d] == Name(c)
  {
    match c
    case Negro => 0
    case Marron => 1
    case Rojo => 2
    case Naranja => 3
    case Amarillo => 4
    case Verde => 5
    case Azul => 6
    case Violeta => 7
    case Gris => 8
    case Blanco => 9
  }

  /** The band colour whose digit is `d`. */
  function ColorOfDigit(d: nat): (c: BandColor)
    requires d <= 9
    ensures Name(c) == Colores[d]
  {
    [Negro, Marron, Rojo, Naranja, Amarillo, Verde, Azul, Violeta, Gris, Blanco][d]
  }

  /** Only the colour's own position in `colores` holds its name. */
  lemma NameAtPosition(c: BandColor, d: nat)
    requires d <= 9 && Colores[d] == Name(c)
    ensures d == DigitValue(c)
  {
  }

  /**
   The digit is what `colores.indexOf(name)` returns for the colour's name:
   never -1, since every band colour's name is in the list, and the first
   (indeed the only) position holding that name.
   */
  lemma DigitValueIsIndexOf(c: BandColor)
    ensures IndexOf(Colores, Name(c)) == DigitValue(c)
  {
    assert Colores[DigitValue(c)] == Name(c);
    var i := IndexOf(Colores, Name(c));
    NameAtPosition(c, i);
  }

  /** Distinct colours have distinct digits. */
  lemma DigitValueInjective(c1: BandColor, c2: BandColor)
    ensures DigitValue(c1) == DigitValue(c2) ==> c1 == c2
  {
    if DigitValue(c1) == DigitValue(c2) {
      NameAtPosition(c2, DigitValue(c1));
      NamesDistinct(c1, c2);
    }
  }

  lemma NamesDistinct(c1: BandColor, c2: BandColor)
    ensures Name(c1) == Name(c2) ==> c1 == c2
  {
  }

  /** Every digit 0..9 is the digit of the colour `ColorOfDigit` gives. */
  lemma ColorOfDigitRoundTrip(d: nat)
    requires d <= 9
    ensures DigitValue(ColorOfDigit(d)) == d
  {
    NameAtPosition(ColorOfDigit(d), d);
  }

  /** A colour is recovered from its digit. */
  lemma DigitValueRoundTrip(c: BandColor)
    ensures ColorOfDigit(DigitValue(c)) == c
  {
    NameAtPosition(ColorOfDigit(DigitValue(c)), DigitValue(c));
    NamesDistinct(ColorOfDigit(DigitValue(c)), c);
  }

  /** The twelve names `obtenerColor` recognises. */
  const SwatchNames: set<string> :=
    {"Negro", "Marrón", "Rojo", "Naranja", "Amarillo", "Verde", "Azul", "Violeta", "Gris", "Blanco",
     "Dorado", "Plateado"}

  /**
   `obtenerColor`: the swatch for a colour name, `Transparent` for every name
   it does not list.
   */
  function ObtenerColor(nombre: string): (r: Swatch)
    ensures r == Transparent <==> nombre !in SwatchNames
    ensures r == Gold <==> nombre == "Dorado"
    ensures r == Silver <==> nombre == "Plateado"
  {
    match nombre
    case "Negro" => Black
    case "Marrón" => Brown
    case "Rojo" => Red
    case "Naranja" => Orange
    case "Amarillo" => Yellow
    case "Verde" => Green
    case "Azul" => Blue
    case "Violeta" => Violet
    case "Gris" => Gray
    case "Blanco" => White
    case "Dorado" => Gold
    case "Plateado" => Silver
    case _ => Transparent
  }

  /**
   Every band colour gets an opaque swatch of its own: never transparent, gold
   or silver, and distinct colours get distinct swatches.
   */
  lemma BandSwatchesDistinct(c1: BandColor, c2: BandColor)
    ensures ObtenerColor(Name(c1)) !in {Transparent, Gold, Silver}
    ensures c1 != c2 ==> ObtenerColor(Name(c1)) != ObtenerColor(Name(c2))
  {
  }

  /** The swatch name chosen for the tolerance box from the selected label. */
  function ToleranceSwatchName(tolerancia: string): (nombre: string)
    ensures nombre == "Dorado" <==> tolerancia == "±5% Dorado"
    ensures nombre == "Plateado" <==> tolerancia == "±10% Plateado"
    ensures nombre !in SwatchNames <==> tolerancia != "±5% Dorado" && tolerancia != "±10% Plateado"
  {
    if tolerancia == "±5% Dorado" then "Dorado"
    else if tolerancia == "±10% Plateado" then "Plateado"
    else "Transparente"
  }

  /**
   The tolerance swatch: gold exactly for the 5% label, silver exactly for the
   10% label, transparent for anything else ("Transparente" is not a name
   `obtenerColor` lists, so it falls through to its fallback).
   */
  function ToleranceSwatch(tolerancia: string): (r: Swatch)
    ensures r == Gold <==> tolerancia == "±5% Dorado"
    ensures r == Silver <==> tolerancia == "±10% Plateado"
    ensures r == Transparent <==> tolerancia != "±5% Dorado" && tolerancia != "±10% Plateado"
  {
    ObtenerColor(ToleranceSwatchName(tolerancia))
  }

  /** The three labels in `tolerancias` get gold, silver and no swatch. */
  lemma ToleranceSwatchOfOptions(t: Tolerance)
    ensures Label(t) in Tolerancias
    ensures ToleranceSwatch(Label(t)) == match t
      case Dorado5 => Gold
      case Plateado10 => Silver
      case Ninguno20 => Transparent
  {
  }
}
