/**
 * The vacation-proration rule of app.js: how many of the month's 30 notional days are paid
 * when an employee returns from, or leaves on, vacation during the reference month, and the
 * form field `diasTrab` that the rule fills in.
 */
module Ferias {
  import opened Wrappers

  // ---------------------------------------------------------------- Calendar

  /** The Gregorian leap-year rule. */
  predicate Bissexto(ano: int) {
    (ano % 4 == 0 && ano % 100 != 0) || ano % 400 == 0
  }

  /** Number of days of month `mes` (1 to 12) of year `ano` in the proleptic Gregorian calendar. */
  function DaysInMonth(ano: int, mes: int): (d: int)
    requires 1 <= mes <= 12
    ensures 28 <= d <= 31
  {
    if mes == 2 then (if Bissexto(ano) then 29 else 28)
    else if mes == 4 || mes == 6 || mes == 9 || mes == 11 then 30
    else 31
  }

  /** Days in months 1 to `m` of year `ano`. */
  function DiasAteOMes(ano: int, m: int): int
    requires 0 <= m <= 12
  {
    if m == 0 then 0 else DiasAteOMes(ano, m - 1) + DaysInMonth(ano, m)
  }

  /** The twelve month lengths add up to a year of 365 days, or 366 in a leap year. */
  lemma {:induction false} MonthsFillTheYear(ano: int)
    ensures DiasAteOMes(ano, 12) == if Bissexto(ano) then 366 else 365
  {
    var b := if Bissexto(ano) then 1 else 0;
    assert DiasAteOMes(ano, 1) == 31;
    assert DiasAteOMes(ano, 2) == 59 + b;
    assert DiasAteOMes(ano, 3) == 90 + b;
    assert DiasAteOMes(ano, 4) == 120 + b;
    assert DiasAteOMes(ano, 5) == 151 + b;
    assert DiasAteOMes(ano, 6) == 181 + b;
    assert DiasAteOMes(ano, 7) == 212 + b;
    assert DiasAteOMes(ano, 8) == 243 + b;
    assert DiasAteOMes(ano, 9) == 273 + b;
    assert DiasAteOMes(ano, 10) == 304 + b;
    assert DiasAteOMes(ano, 11) == 334 + b;
  }

  /**
   * `new Date(ano, mes, 0).getDate()`: day 0 of the month after `mes` is the last day of `mes`.
   * JavaScript reads a year 0 to 99 as 1900 to 1999, and rolls a month outside 1 to 12 into a
   * neighbouring year (Dafny's `/` and `%` round toward minus infinity here, as the Date
   * arithmetic does).
   */
  function UltimoDiaMes(ano: int, mes: int): (d: int)
    ensures 28 <= d <= 31
    ensures 1 <= mes <= 12 && !(0 <= ano <= 99) ==> d == DaysInMonth(ano, mes)
  {
    var anoCompleto := if 0 <= ano <= 99 then 1900 + ano else ano;
    var indice := mes - 1;
    DaysInMonth(anoCompleto + indice / 12, indice % 12 + 1)
  }

  /** February 2026 has 28 days and February 2028 has 29. */
  lemma FebruaryLengths()
    ensures UltimoDiaMes(2026, 2) == 28 && UltimoDiaMes(2028, 2) == 29
  {
  }

  // ---------------------------------------------------------------- Proration

  /** The checked `tipoDias` radio: full month, return from vacation, departure on vacation. */
  datatype TipoDias = Completo | RetornoFerias | SaidaFerias

  /** The parsed reference month "YYYY-MM". */
  datatype MesReferencia = MesReferencia(ano: int, mes: int)

  /** The chosen day clamped to the month's last day. */
  function DiaValidado(diaSel: int, ref: MesReferencia): (d: int)
    ensures d <= diaSel && d <= UltimoDiaMes(ref.ano, ref.mes)
    ensures d == diaSel || d == UltimoDiaMes(ref.ano, ref.mes)
  {
    var ultimo := UltimoDiaMes(ref.ano, ref.mes);
    if diaSel <= ultimo then diaSel else ultimo
  }

  /** Payable days for a mode and a validated day, clamped to the 30-day month. */
  function DiasAPagar(opcao: TipoDias, diaValidado: int): (d: int)
    ensures 0 <= d <= 30
    ensures opcao == Completo ==> d == 30
  {
    var diasPagar := match opcao
      case RetornoFerias => 30 - (diaValidado - 1)
      case SaidaFerias => diaValidado - 1
      case Completo => 30;
    if diasPagar > 30 then 30 else if diasPagar < 0 then 0 else diasPagar
  }

  /** For a day of the month, returning pays the 30 days less the days missed before the return. */
  lemma ReturnPaysFromReturnDay(diaValidado: int)
    requires 1 <= diaValidado <= 31
    ensures DiasAPagar(RetornoFerias, diaValidado) == 30 - (diaValidado - 1)
  {
  }

  /** For a day of the month, departing pays the days before the departure. */
  lemma DeparturePaysDaysBefore(diaValidado: int)
    requires 1 <= diaValidado <= 31
    ensures DiasAPagar(SaidaFerias, diaValidado) == diaValidado - 1
  {
  }

  /** Returning and departing on the same day split the 30-day month between them. */
  lemma ReturnAndDepartureComplement(diaValidado: int)
    requires 1 <= diaValidado <= 31
    ensures DiasAPagar(RetornoFerias, diaValidado) + DiasAPagar(SaidaFerias, diaValidado) == 30
  {
  }

  /** Returning on day 10 of any month pays 21 days. */
  lemma ReturnOnDay10Pays21(ref: MesReferencia)
    ensures DiasAPagar(RetornoFerias, DiaValidado(10, ref)) == 21
  {
  }

  /** Departing on day 1 of any month pays nothing. */
  lemma DepartureOnDay1PaysNothing(ref: MesReferencia)
    ensures DiasAPagar(SaidaFerias, DiaValidado(1, ref)) == 0
  {
  }

  /** Day 31 in February 2026 is read as the 28th: returning then pays 3 days, departing 27. */
  lemma Day31ClampedInFebruary()
    ensures DiaValidado(31, MesReferencia(2026, 2)) == 28
    ensures DiasAPagar(RetornoFerias, DiaValidado(31, MesReferencia(2026, 2))) == 3
    ensures DiasAPagar(SaidaFerias, DiaValidado(31, MesReferencia(2026, 2))) == 27
  {
    FebruaryLengths();
  }

  // ---------------------------------------------------------------- The form

  /**
   * The form fields the rule reads and writes. `inicioFerias` is the result of `parseInt`
   * (None for NaN); `tipoDias` is None when no radio button is checked.
   */
  class FormularioFerias {
    var mesReferencia: Option<MesReferencia>
    var inicioFerias: Option<int>
    var tipoDias: Option<TipoDias>
    var diasTrab: int

    constructor (mesReferencia: Option<MesReferencia>, inicioFerias: Option<int>,
                 tipoDias: Option<TipoDias>, diasTrab: int)
      ensures this.mesReferencia == mesReferencia && this.inicioFerias == inicioFerias
      ensures this.tipoDias == tipoDias && this.diasTrab == diasTrab
    {
      this.mesReferencia := mesReferencia;
      this.inicioFerias := inicioFerias;
      this.tipoDias := tipoDias;
      this.diasTrab := diasTrab;
    }

    /** A mode is checked, the month is filled in and the day is a non-zero number. */
    predicate EntradaCompleta()
      reads this
    {
      tipoDias.Some? && mesReferencia.Some? && inicioFerias.Some? && inicioFerias.value != 0
    }

    /** The day count the rule writes for complete input. */
    function DiasProporcionais(): (d: int)
      reads this
      requires EntradaCompleta()
      ensures 0 <= d <= 30
    {
      DiasAPagar(tipoDias.value, DiaValidado(inicioFerias.value, mesReferencia.value))
    }

    /**
     * calcularDiasProporcionaisFerias: on complete input, writes the payable days into
     * `diasTrab`; otherwise leaves it as it was (with no mode checked the handler fails
     * before writing anything).
     */
    method CalcularDiasProporcionaisFerias()
      modifies this`diasTrab
      ensures EntradaCompleta() ==> diasTrab == DiasProporcionais() && 0 <= diasTrab <= 30
      ensures !EntradaCompleta() ==> diasTrab == old(diasTrab)
    {
      if tipoDias.None? {
        return;
      }
      var opcao := tipoDias.value;
      if mesReferencia.None? || inicioFerias.None? || inicioFerias.value == 0 {
        return;
      }
      var ano, mes := mesReferencia.value.ano, mesReferencia.value.mes;
      var diaSel := inicioFerias.value;
      var ultimoDiaMes := UltimoDiaMes(ano, mes);
      var diaValidado := if diaSel <= ultimoDiaMes then diaSel else ultimoDiaMes;

      var diasPagar := 30;
      if opcao == RetornoFerias {
        diasPagar := 30 - (diaValidado - 1);
      } else if opcao == SaidaFerias {
        diasPagar := diaValidado - 1;
      }
      diasTrab := if diasPagar > 30 then 30 else if diasPagar < 0 then 0 else diasPagar;
    }

    /**
     * alternarModoDias: the full-month mode writes 30; the other modes recompute the
     * proration; with no mode checked nothing changes.
     */
    method AlternarModoDias()
      modifies this`diasTrab
      ensures tipoDias.None? ==> diasTrab == old(diasTrab)
      ensures tipoDias == Some(Completo) ==> diasTrab == 30
      ensures tipoDias.Some? && tipoDias.value != Completo ==>
        if EntradaCompleta() then diasTrab == DiasProporcionais() else diasTrab == old(diasTrab)
    {
      if tipoDias.None? {
        return;
      }
      if tipoDias.value == Completo {
        diasTrab := 30;
      } else {
        CalcularDiasProporcionaisFerias();
      }
    }
  }
}
