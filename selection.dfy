/**
 The calculator screen's state: the four current selections and the displayed
 resistance text, each selection change writing its own field and then
 recomputing the display. The object invariant `Valid` is that the display
 always shows the formatted resistance of the current bands.
 */
module Selection {
  import opened ColorTable
  import opened Formatting
  import opened Calculator

  class Interfaz {
    var banda1: BandColor
    var banda2: BandColor
    var multiplicador: BandColor
    var tolerancia: Tolerance
    var resistencia: string

    /** The display text agrees with the three value bands. */
    ghost predicate Valid()
      reads this
    {
      resistencia == Format(Resistance(banda1, banda2, multiplicador))
    }

    /**
     Every selection starts at the first entry of its list and the display
     starts as the literal "0 Ω", which is already the display of three black
     bands.
     */
    constructor ()
      ensures banda1 == Negro && banda2 == Negro && multiplicador == Negro
      ensures tolerancia == Dorado5 && Label(tolerancia) == Tolerancias[0]
      ensures resistencia == "0 Ω"
      ensures Valid()
    {
      banda1 := Negro;
      banda2 := Negro;
      multiplicador := Negro;
      tolerancia := Dorado5;
      resistencia := "0 Ω";
      AllBlack();
    }

    /** `calcularResistencia`: rewrites the display from the current bands only. */
    method CalcularResistencia()
      modifies this`resistencia
      ensures Valid()
    {
      var resultado := Resistance(banda1, banda2, multiplicador);
      resistencia := Format(resultado);
    }

    /** The band 1 dropdown: stores the new colour and recomputes. */
    method SeleccionarBanda1(nuevoValor: BandColor)
      modifies this`banda1, this`resistencia
      ensures banda1 == nuevoValor
      ensures banda2 == old(banda2) && multiplicador == old(multiplicador)
      ensures tolerancia == old(tolerancia)
      ensures Valid()
    {
      banda1 := nuevoValor;
      CalcularResistencia();
    }

    /** The band 2 dropdown: stores the new colour and recomputes. */
    method SeleccionarBanda2(nuevoValor: BandColor)
      modifies this`banda2, this`resistencia
      ensures banda2 == nuevoValor
      ensures banda1 == old(banda1) && multiplicador == old(multiplicador)
      ensures tolerancia == old(tolerancia)
      ensures Valid()
    {
      banda2 := nuevoValor;
      CalcularResistencia();
    }

    /** The multiplier dropdown: stores the new colour and recomputes. */
    method SeleccionarMultiplicador(nuevoValor: BandColor)
      modifies this`multiplicador, this`resistencia
      ensures multiplicador == nuevoValor
      ensures banda1 == old(banda1) && banda2 == old(banda2)
      ensures tolerancia == old(tolerancia)
      ensures Valid()
    {
      multiplicador := nuevoValor;
      CalcularResistencia();
    }

    /**
     The tolerance dropdown: stores the new option and recomputes; the
     tolerance does not enter the value, so on a valid screen the display text
     stays exactly as it was.
     */
    method SeleccionarTolerancia(nuevoValor: Tolerance)
      modifies this`tolerancia, this`resistencia
      ensures tolerancia == nuevoValor
      ensures banda1 == old(banda1) && banda2 == old(banda2) && multiplicador == old(multiplicador)
      ensures Valid()
      ensures old(Valid()) ==> resistencia == old(resistencia)
    {
      tolerancia := nuevoValor;
      CalcularResistencia();
    }

    /**
     The tolerance box's swatch: gold for the 5% option, silver for the 10%
     option and no colour for the 20% option.
     */
    function ToleranceBox(): (r: Swatch)
      reads this
      ensures r == Gold <==> tolerancia == Dorado5
      ensures r == Silver <==> tolerancia == Plateado10
      ensures r == Transparent <==> tolerancia == Ninguno20
    {
      ToleranceSwatch(Label(tolerancia))
    }

    /**
     The display of a valid screen reads back as the resistance of its bands,
     narrowed to `Int`; in particular two valid screens whose values fit in an
     `Int` show the same text exactly when their values are equal.
     */
    lemma DisplayReadsBack()
      requires Valid()
      ensures ParseDisplay(resistencia) == Some(ToInt(Resistance(banda1, banda2, multiplicador)))
    {
      FormatRoundTrip(Resistance(banda1, banda2, multiplicador));
    }
  }

  /**
   Last write wins: after any sequence of dropdown changes ending with the
   three value bands set to `b1`, `b2`, `m`, the display is that of `b1`,
   `b2`, `m`, whatever was selected before.
   */
  method SelectAll(screen: Interfaz, b1: BandColor, b2: BandColor, m: BandColor, t: Tolerance)
    modifies screen
    ensures screen.banda1 == b1 && screen.banda2 == b2 && screen.multiplicador == m
    ensures screen.tolerancia == t
    ensures screen.resistencia == Format(Resistance(b1, b2, m))
  {
    screen.SeleccionarTolerancia(t);
    screen.SeleccionarMultiplicador(m);
    screen.SeleccionarBanda2(b2);
    screen.SeleccionarBanda1(b1);
  }

  /** The scenario of selecting yellow, violet, red on a fresh screen shows "4,700 Ω". */
  method YellowVioletRedScreen() returns (display: string)
    ensures display == "4,700 Ω"
  {
    var screen := new Interfaz();
    screen.SeleccionarBanda1(Amarillo);
    screen.SeleccionarBanda2(Violeta);
    screen.SeleccionarMultiplicador(Rojo);
    YellowVioletRed();
    display := screen.resistencia;
  }
}
