/**
 * The payroll engine of calculadora-regras.js: the progressive INSS contribution, the
 * 2026 IRRF rule (Lei 15.270) and the full monthly breakdown built from them.
 * Money is exact `real`; the engine's double-precision rounding is not modelled.
 */
module CalculadoraRegras {
  import opened Wrappers
  import opened Regras

  // ---------------------------------------------------------------- INSS

  /** Index of the first INSS row whose bound is at or above `base`; |t| when none is. */
  function FaixaINSSIndex(base: real, t: seq<FaixaINSS>): (k: nat)
    ensures k <= |t|
    ensures forall j :: 0 <= j < k ==> t[j].ate < base
    ensures k < |t| ==> base <= t[k].ate
  {
    if t == [] then 0
    else if base <= t[0].ate then 0
    else 1 + FaixaINSSIndex(base, t[1..])
  }

  /** The base clamped to the contribution ceiling. */
  function BaseINSS(base: real, r: RuleSet): real {
    if base > r.tetoINSS then r.tetoINSS else base
  }

  /** The row that charges a clamped base: the first fitting one, else the last row. */
  function FaixaAplicada(b: real, t: seq<FaixaINSS>): (f: FaixaINSS)
    requires |t| > 0
    ensures f in t
  {
    var k := FaixaINSSIndex(b, t);
    if k < |t| then t[k] else t[|t| - 1]
  }

  /** A row's formula applied to a (clamped) base. */
  function ValorFaixa(b: real, f: FaixaINSS): real {
    b * f.aliquota - f.deduzir
  }

  /**
   * The contribution calcularINSS returns for `base`: some row's formula on the clamped base.
   * Which row is stated by InssFirstFittingRow and InssFallbackToLastRow.
   */
  function Inss(base: real, r: RuleSet): (v: real)
    requires |r.tabelaINSS| > 0
    ensures exists f :: f in r.tabelaINSS && v == ValorFaixa(BaseINSS(base, r), f)
  {
    var b := BaseINSS(base, r);
    ValorFaixa(b, FaixaAplicada(b, r.tabelaINSS))
  }

  /** calcularINSS: clamp, scan the rows in order, return on the first that fits. */
  method CalcularINSS(baseDeCalculo: real, regras: RuleSet) returns (inss: real)
    requires |regras.tabelaINSS| > 0
    ensures inss == Inss(baseDeCalculo, regras)
  {
    var base := baseDeCalculo;
    if base > regras.tetoINSS {
      base := regras.tetoINSS;
    }
    assert base == BaseINSS(baseDeCalculo, regras);
    var t := regras.tabelaINSS;
    var i := 0;
    while i < |t|
      invariant 0 <= i <= |t|
      invariant forall j :: 0 <= j < i ==> t[j].ate < base
    {
      if base <= t[i].ate {
        assert FaixaINSSIndex(base, t) == i;
        return ValorFaixa(base, t[i]);
      }
      i := i + 1;
    }
    assert FaixaINSSIndex(base, t) == |t|;
    var ultimaFaixa := t[|t| - 1];
    return ValorFaixa(base, ultimaFaixa);
  }

  /** Every base at or above the ceiling pays exactly what the ceiling pays. */
  lemma InssAboveCeiling(base: real, r: RuleSet)
    requires |r.tabelaINSS| > 0
    requires base >= r.tetoINSS
    ensures Inss(base, r) == Inss(r.tetoINSS, r)
  {
  }

  /** First match wins: a clamped base is charged by the first row whose bound it does not exceed. */
  lemma {:induction false} InssFirstFittingRow(base: real, r: RuleSet, i: nat)
    requires i < |r.tabelaINSS|
    requires BaseINSS(base, r) <= r.tabelaINSS[i].ate
    requires forall j :: 0 <= j < i ==> r.tabelaINSS[j].ate < BaseINSS(base, r)
    ensures Inss(base, r) == BaseINSS(base, r) * r.tabelaINSS[i].aliquota - r.tabelaINSS[i].deduzir
  {
  }

  /** `<=` semantics: with ascending bounds, a base equal to a row's bound is charged by that row. */
  lemma InssBoundaryUsesThatRow(r: RuleSet, i: nat)
    requires InssAscending(r.tabelaINSS)
    requires i < |r.tabelaINSS|
    requires r.tabelaINSS[i].ate <= r.tetoINSS
    ensures Inss(r.tabelaINSS[i].ate, r)
         == r.tabelaINSS[i].ate * r.tabelaINSS[i].aliquota - r.tabelaINSS[i].deduzir
  {
    InssFirstFittingRow(r.tabelaINSS[i].ate, r, i);
  }

  /** A clamped base above every bound falls back to the last row. */
  lemma InssFallbackToLastRow(base: real, r: RuleSet)
    requires |r.tabelaINSS| > 0
    requires forall j :: 0 <= j < |r.tabelaINSS| ==> r.tabelaINSS[j].ate < BaseINSS(base, r)
    ensures var f := r.tabelaINSS[|r.tabelaINSS| - 1];
      Inss(base, r) == BaseINSS(base, r) * f.aliquota - f.deduzir
  {
  }

  /** When the last bound is the ceiling, the fallback row choice is never needed. */
  lemma InssFallbackUnreachable(base: real, r: RuleSet)
    requires InssCeilingIsLastBound(r)
    ensures FaixaINSSIndex(BaseINSS(base, r), r.tabelaINSS) < |r.tabelaINSS|
  {
  }

  /** Within one row, a larger base never contributes less (for a non-negative rate). */
  lemma InssMonotoneWithinRow(b1: real, b2: real, r: RuleSet, k: nat)
    requires k < |r.tabelaINSS|
    requires b1 <= b2 <= r.tetoINSS
    requires FaixaINSSIndex(b1, r.tabelaINSS) == k && FaixaINSSIndex(b2, r.tabelaINSS) == k
    requires r.tabelaINSS[k].aliquota >= 0.0
    ensures Inss(b1, r) <= Inss(b2, r)
  {
    var f := r.tabelaINSS[k];
    assert Inss(b1, r) == ValorFaixa(b1, f);
    assert Inss(b2, r) == ValorFaixa(b2, f);
    ValorFaixaMonotone(b1, b2, f);
  }

  lemma ValorFaixaMonotone(b1: real, b2: real, f: FaixaINSS)
    requires b1 <= b2 && f.aliquota >= 0.0
    ensures ValorFaixa(b1, f) <= ValorFaixa(b2, f)
  {
    assert (b2 - b1) * f.aliquota >= 0.0;
  }

  /** Under the 2026 table a non-negative base contributes between 0 and the ceiling's 951.6274. */
  lemma Inss2026Range(base: real)
    requires base >= 0.0
    ensures 0.0 <= Inss(base, Regras2026) <= 951.6274
  {
    var t := Regras2026.tabelaINSS;
    var b := BaseINSS(base, Regras2026);
    InssFallbackUnreachable(base, Regras2026);
    var k := FaixaINSSIndex(b, t);
    assert 0.0 <= b <= 8157.41;
    if k == 0 {
      assert Inss(base, Regras2026) == b * 0.075;
    } else if k == 1 {
      assert 1518.00 < b <= 2793.88;
      assert Inss(base, Regras2026) == b * 0.09 - 22.77;
    } else if k == 2 {
      assert 2793.88 < b <= 4190.83;
      assert Inss(base, Regras2026) == b * 0.12 - 106.59;
    } else {
      assert k == 3;
      assert 4190.83 < b;
      assert Inss(base, Regras2026) == b * 0.14 - 190.41;
    }
  }

  // ---------------------------------------------------------------- IRRF

  /** A base fits under a bound when the bound is "acima" or the base does not exceed it. */
  predicate Cabe(base: real, ate: Bound) {
    ate.Above? || base <= ate.value
  }

  /** Index of the first IRRF row the base fits under; |t| when none does. */
  function FaixaIRRFIndex(base: real, t: seq<FaixaIRRF>): (k: nat)
    ensures k <= |t|
    ensures forall j :: 0 <= j < k ==> !Cabe(base, t[j].ate)
    ensures k < |t| ==> Cabe(base, t[k].ate)
  {
    if t == [] then 0
    else if Cabe(base, t[0].ate) then 0
    else 1 + FaixaIRRFIndex(base, t[1..])
  }

  /** The table tax on `base`: the first fitting row's formula, or 0 when no row fits. */
  function ImpostoTabela(base: real, t: seq<FaixaIRRF>): real {
    var k := FaixaIRRFIndex(base, t);
    if k < |t| then base * t[k].aliquota - t[k].deduzir else 0.0
  }

  /** First match wins in the IRRF scan: the first row the base fits under sets the table tax. */
  lemma {:induction false} ImpostoTabelaFirstFittingRow(base: real, t: seq<FaixaIRRF>, i: nat)
    requires i < |t| && Cabe(base, t[i].ate)
    requires forall j :: 0 <= j < i ==> !Cabe(base, t[j].ate)
    ensures ImpostoTabela(base, t) == base * t[i].aliquota - t[i].deduzir
  {
  }

  /** When the base fits under no row, the scan keeps its initial value 0. */
  lemma ImpostoTabelaNoRowFits(base: real, t: seq<FaixaIRRF>)
    requires forall j :: 0 <= j < |t| ==> !Cabe(base, t[j].ate)
    ensures ImpostoTabela(base, t) == 0.0
  {
  }

  /** The legal base: gross less INSS and the per-dependent deductions. */
  function BaseLegal(baseBruta: real, inss: real, dependentes: real, r: RuleSet): real {
    baseBruta - inss - dependentes * r.deducaoPorDependenteIRRF
  }

  /** The simplified base: gross less the fixed simplified discount. */
  function BaseSimplificada(baseBruta: real, r: RuleSet): real {
    baseBruta - r.descontoSimplificado
  }

  /** The bracket input: the smaller of the legal and the simplified base, floored at 0. */
  function BaseFinalIRRF(baseBruta: real, inss: real, dependentes: real, r: RuleSet): (b: real)
    ensures b >= 0.0
    ensures b <= BaseLegal(baseBruta, inss, dependentes, r) || b == 0.0
    ensures b <= BaseSimplificada(baseBruta, r) || b == 0.0
    ensures b == 0.0 || b == BaseLegal(baseBruta, inss, dependentes, r) || b == BaseSimplificada(baseBruta, r)
    ensures b >= BaseLegal(baseBruta, inss, dependentes, r) || b >= BaseSimplificada(baseBruta, r)
  {
    var baseLegal := BaseLegal(baseBruta, inss, dependentes, r);
    var baseSimplificada := BaseSimplificada(baseBruta, r);
    var m := if baseLegal <= baseSimplificada then baseLegal else baseSimplificada;
    if m < 0.0 then 0.0 else m
  }

  /** The 2026 rule is present and switched on. */
  predicate RegraAtiva(r: RuleSet) {
    r.novaRegra2026.Some? && r.novaRegra2026.value.ativo
  }

  /** Gross income at or below the exemption limit, under the active 2026 rule. */
  predicate Isento(totalBruto: real, r: RuleSet) {
    RegraAtiva(r) && totalBruto <= r.novaRegra2026.value.limiteIsencaoBruto
  }

  /** The linear reducer `parcelaFixa - fator * totalBruto`. */
  function Redutor(totalBruto: real, n: NovaRegra): real {
    n.parcelaFixaRedutor - n.fatorRedutor * totalBruto
  }

  /** The reducer is subtracted: active rule, gross inside the band, positive reducer. */
  predicate RedutorAplica(totalBruto: real, r: RuleSet) {
    && RegraAtiva(r)
    && r.novaRegra2026.value.limiteIsencaoBruto < totalBruto <= r.novaRegra2026.value.faixaTransicaoFim
    && Redutor(totalBruto, r.novaRegra2026.value) > 0.0
  }

  /** The tax calcularIRRF returns. */
  function Irrf(baseBruta: real, inss: real, dependentes: real, totalBruto: real, r: RuleSet): (imposto: real)
    ensures imposto >= 0.0
    ensures Isento(totalBruto, r) ==> imposto == 0.0
  {
    if Isento(totalBruto, r) then 0.0
    else
      var provisorio := ImpostoTabela(BaseFinalIRRF(baseBruta, inss, dependentes, r), r.tabelaIRRF);
      var reduzido := if RedutorAplica(totalBruto, r)
                      then provisorio - Redutor(totalBruto, r.novaRegra2026.value)
                      else provisorio;
      if reduzido < 0.0 then 0.0 else reduzido
  }

  /** calcularIRRF: exemption test, best base, first-match scan with break, reducer, floor at 0. */
  method CalcularIRRF(baseBruta: real, inssCalculado: real, dependentes: real, totalBruto: real,
                      regras: RuleSet) returns (irrf: real)
    ensures irrf == Irrf(baseBruta, inssCalculado, dependentes, totalBruto, regras)
  {
    if regras.novaRegra2026.Some? && regras.novaRegra2026.value.ativo {
      if totalBruto <= regras.novaRegra2026.value.limiteIsencaoBruto {
        assert Isento(totalBruto, regras);
        return 0.0;
      }
    }

    assert !Isento(totalBruto, regras);
    var baseLegal := baseBruta - inssCalculado - dependentes * regras.deducaoPorDependenteIRRF;
    var baseSimplificada := baseBruta - regras.descontoSimplificado;
    assert baseLegal == BaseLegal(baseBruta, inssCalculado, dependentes, regras);
    assert baseSimplificada == BaseSimplificada(baseBruta, regras);
    var baseFinal := if baseLegal <= baseSimplificada then baseLegal else baseSimplificada;
    if baseFinal < 0.0 {
      baseFinal := 0.0;
    }

    assert baseFinal == BaseFinalIRRF(baseBruta, inssCalculado, dependentes, regras);
    var t := regras.tabelaIRRF;
    var impostoCalculado := 0.0;
    var i := 0;
    while i < |t|
      invariant 0 <= i <= |t|
      invariant forall j :: 0 <= j < i ==> !Cabe(baseFinal, t[j].ate)
      invariant impostoCalculado == 0.0
    {
      if t[i].ate.Above? || baseFinal <= t[i].ate.value {
        impostoCalculado := baseFinal * t[i].aliquota - t[i].deduzir;
        break;
      }
      i := i + 1;
    }
    assert impostoCalculado == ImpostoTabela(baseFinal, t) by {
      var k := FaixaIRRFIndex(baseFinal, t);
      if i < |t| {
        assert k == i;
      }
    }

    ghost var provisorio := impostoCalculado;
    if regras.novaRegra2026.Some? && regras.novaRegra2026.value.ativo {
      var n := regras.novaRegra2026.value;
      if totalBruto > n.limiteIsencaoBruto && totalBruto <= n.faixaTransicaoFim {
        var valorRedutor := n.parcelaFixaRedutor - n.fatorRedutor * totalBruto;
        assert valorRedutor == Redutor(totalBruto, n);
        if valorRedutor > 0.0 {
          impostoCalculado := impostoCalculado - valorRedutor;
        }
      }
    }
    assert impostoCalculado == if RedutorAplica(totalBruto, regras)
                               then provisorio - Redutor(totalBruto, regras.novaRegra2026.value)
                               else provisorio;

    irrf := if 0.0 >= impostoCalculado then 0.0 else impostoCalculado;
  }

  /** With the 2026 rule off or absent, IRRF is the table tax floored at 0 (the legacy rule). */
  lemma IrrfLegacyRule(baseBruta: real, inss: real, dependentes: real, totalBruto: real, r: RuleSet)
    requires !RegraAtiva(r)
    ensures var t := ImpostoTabela(BaseFinalIRRF(baseBruta, inss, dependentes, r), r.tabelaIRRF);
      Irrf(baseBruta, inss, dependentes, totalBruto, r) == if t < 0.0 then 0.0 else t
  {
  }

  /**
   * Above the exemption limit the reducer only ever lowers the table tax: when it applies and
   * does not exceed the tax it comes off exactly, when it exceeds the tax nothing is due, and
   * when it does not apply the table tax stands, floored at 0.
   */
  lemma IrrfReducer(baseBruta: real, inss: real, dependentes: real, totalBruto: real, r: RuleSet)
    requires !Isento(totalBruto, r)
    ensures var t := ImpostoTabela(BaseFinalIRRF(baseBruta, inss, dependentes, r), r.tabelaIRRF);
      Irrf(baseBruta, inss, dependentes, totalBruto, r) <= (if t < 0.0 then 0.0 else t)
    ensures var t := ImpostoTabela(BaseFinalIRRF(baseBruta, inss, dependentes, r), r.tabelaIRRF);
      RedutorAplica(totalBruto, r) && t >= Redutor(totalBruto, r.novaRegra2026.value) ==>
        Irrf(baseBruta, inss, dependentes, totalBruto, r) == t - Redutor(totalBruto, r.novaRegra2026.value) < t
    ensures var t := ImpostoTabela(BaseFinalIRRF(baseBruta, inss, dependentes, r), r.tabelaIRRF);
      RedutorAplica(totalBruto, r) && t <= Redutor(totalBruto, r.novaRegra2026.value) ==>
        Irrf(baseBruta, inss, dependentes, totalBruto, r) == 0.0
    ensures var t := ImpostoTabela(BaseFinalIRRF(baseBruta, inss, dependentes, r), r.tabelaIRRF);
      !RedutorAplica(totalBruto, r) ==> Irrf(baseBruta, inss, dependentes, totalBruto, r) == (if t < 0.0 then 0.0 else t)
  {
  }

  /** Within one IRRF row, a larger bracket input never owes less table tax (non-negative rate). */
  lemma IrrfTableMonotoneWithinRow(b1: real, b2: real, t: seq<FaixaIRRF>, k: nat)
    requires k < |t|
    requires b1 <= b2
    requires FaixaIRRFIndex(b1, t) == k && FaixaIRRFIndex(b2, t) == k
    requires t[k].aliquota >= 0.0
    ensures ImpostoTabela(b1, t) <= ImpostoTabela(b2, t)
  {
    assert (b2 - b1) * t[k].aliquota >= 0.0;
  }

  /** The reducer never applies at or below the exemption limit nor above the band's top. */
  lemma RedutorOnlyInsideBand(totalBruto: real, r: RuleSet)
    requires RegraAtiva(r)
    requires totalBruto <= r.novaRegra2026.value.limiteIsencaoBruto
          || totalBruto > r.novaRegra2026.value.faixaTransicaoFim
    ensures !RedutorAplica(totalBruto, r)
  {
  }

  /** Under the 2026 table the reducer is never subtracted at the band's top, 7350.00. */
  lemma Redutor2026NotAppliedAtBandTop()
    ensures !RedutorAplica(7350.00, Regras2026)
  {
  }

  /** When the last IRRF row is "acima", the scan always finds a row. */
  lemma IrrfScanAlwaysAssigns(base: real, t: seq<FaixaIRRF>)
    requires |t| > 0 && t[|t| - 1].ate == Above
    ensures FaixaIRRFIndex(base, t) < |t|
  {
  }

  // ---------------------------------------------------------------- Full breakdown

  /** The sanitised form inputs calcularSalarioCompleto destructures. */
  datatype Entradas = Entradas(
    salario: real,
    diasTrab: real,
    dependentes: real,
    faltas: real,
    atrasos: real,
    he50: real,
    he60: real,
    he80: real,
    he100: real,
    he150: real,
    noturno: real,
    plano: string,
    sindicato: string,
    emprestimo: real,
    diasUteis: real,
    domFeriados: real,
    descontarVT: bool)

  datatype Proventos = Proventos(
    vencBase: real,
    valorHE50: real,
    valorHE60: real,
    valorHE80: real,
    valorHE100: real,
    valorHE150: real,
    valorNoturno: real,
    dsrHE: real,
    dsrNoturno: real,
    totalBruto: real)

  datatype Descontos = Descontos(
    descontoFaltas: real,
    descontoAtrasos: real,
    descontoPlano: real,
    descontoSindicato: real,
    emprestimo: real,
    inss: real,
    irrf: real,
    adiantamento: real,
    descontoVA: real,
    descontoVT: real,
    totalDescontos: real)

  datatype Resultado = Resultado(proventos: Proventos, descontos: Descontos, fgts: real, liquido: real)

  /** Sum of the ten deduction lines. */
  function SomaLinhas(d: Descontos): real {
    d.descontoFaltas + d.descontoAtrasos + d.descontoPlano + d.descontoSindicato + d.emprestimo
    + d.inss + d.irrf + d.descontoVA + d.adiantamento + d.descontoVT
  }

  /** Sum of the earning lines. */
  function SomaProventos(p: Proventos): real {
    p.vencBase + p.valorHE50 + p.valorHE60 + p.valorHE80 + p.valorHE100 + p.valorHE150
    + p.valorNoturno + p.dsrHE + p.dsrNoturno
  }

  /** `salario / 30 * diasTrab`: the salary prorated to the days worked. */
  function Proporcional(salario: real, diasTrab: real): real {
    (salario / 30.0) * diasTrab
  }

  /** The earnings half of calcularSalarioCompleto: prorated base, overtime, night premium, DSR. */
  function CalcularProventos(salario: real, diasTrab: real,
                             he50: real, he60: real, he80: real, he100: real, he150: real,
                             noturno: real, diasUteis: real, domFeriados: real,
                             percentualAdicionalNoturno: real): (p: Proventos)
    ensures p.totalBruto == SomaProventos(p)
    ensures diasUteis <= 0.0 ==> p.dsrHE == 0.0 && p.dsrNoturno == 0.0
  {
    var valorHora := salario / 220.0;

    var vencBase := Proporcional(salario, diasTrab);
    var valorHE50 := he50 * valorHora * 1.5;
    var valorHE60 := he60 * valorHora * 1.6;
    var valorHE80 := he80 * valorHora * 1.8;
    var valorHE100 := he100 * valorHora * 2.0;
    var valorHE150 := he150 * valorHora * 2.5;
    var valorNoturno := noturno * valorHora * percentualAdicionalNoturno;

    var totalHE := valorHE50 + valorHE60 + valorHE80 + valorHE100 + valorHE150;
    var dsrHE := if diasUteis > 0.0 then (totalHE / diasUteis) * domFeriados else 0.0;
    var dsrNoturno := if diasUteis > 0.0 then (valorNoturno / diasUteis) * domFeriados else 0.0;

    var totalBruto := vencBase + totalHE + valorNoturno + dsrHE + dsrNoturno;
    Proventos(vencBase, valorHE50, valorHE60, valorHE80, valorHE100, valorHE150,
              valorNoturno, dsrHE, dsrNoturno, totalBruto)
  }

  /** The deductions half of calcularSalarioCompleto, given the INSS and IRRF amounts. */
  function CalcularDescontos(e: Entradas, inss: real, irrf: real, r: RuleSet): (d: Descontos)
    ensures d.totalDescontos == SomaLinhas(d)
    ensures d.inss == inss && d.irrf == irrf
    ensures !e.descontarVT ==> d.descontoVT == 0.0
    ensures e.plano !in r.planosSESI ==> d.descontoPlano == 0.0
    ensures e.sindicato != "sim" ==> d.descontoSindicato == 0.0
  {
    var valorDia := e.salario / 30.0;
    var valorHora := e.salario / 220.0;

    var descontoFaltas := e.faltas * valorDia;
    var descontoAtrasos := e.atrasos * valorHora;
    var adiantamento := Proporcional(e.salario, e.diasTrab) * r.percentualAdiantamento;
    var descontoVA := r.descontoFixoVA;
    var descontoVT := if e.descontarVT then e.salario * r.percentualVT else 0.0;

    var descontoPlano := if e.plano in r.planosSESI then r.planosSESI[e.plano] else 0.0;
    var descontoSindicato := if e.sindicato == "sim" then r.valorSindicato else 0.0;

    var totalDescontos := descontoFaltas + descontoAtrasos + descontoPlano + descontoSindicato
                          + e.emprestimo + inss + irrf + descontoVA + adiantamento + descontoVT;
    Descontos(descontoFaltas, descontoAtrasos, descontoPlano, descontoSindicato, e.emprestimo,
              inss, irrf, adiantamento, descontoVA, descontoVT, totalDescontos)
  }

  /** The earnings of a form: the lines do not depend on absences, dependents or deductions. */
  function ProventosDe(e: Entradas, r: RuleSet): Proventos {
    CalcularProventos(e.salario, e.diasTrab, e.he50, e.he60, e.he80, e.he100, e.he150,
                      e.noturno, e.diasUteis, e.domFeriados, r.percentualAdicionalNoturno)
  }

  /** calcularSalarioCompleto: earnings, deductions, net pay and the FGTS deposit. */
  function CalcularSalarioCompleto(e: Entradas, r: RuleSet): (res: Resultado)
    requires |r.tabelaINSS| > 0
    ensures res.proventos == ProventosDe(e, r)
    ensures res.descontos.inss == Inss(res.proventos.totalBruto, r)
    ensures res.descontos.irrf
         == Irrf(res.proventos.totalBruto, res.descontos.inss, e.dependentes, res.proventos.totalBruto, r)
    ensures res.descontos.irrf >= 0.0
    ensures res.descontos == CalcularDescontos(e, res.descontos.inss, res.descontos.irrf, r)
    ensures res.liquido + res.descontos.totalDescontos == res.proventos.totalBruto
    ensures res.fgts == 0.08 * res.proventos.totalBruto
  {
    var proventos := ProventosDe(e, r);
    var totalBruto := proventos.totalBruto;
    var fgts := totalBruto * 0.08;
    var inss := Inss(totalBruto, r);
    var irrf := Irrf(totalBruto, inss, e.dependentes, totalBruto, r);
    var descontos := CalcularDescontos(e, inss, irrf, r);
    var liquido := totalBruto - descontos.totalDescontos;
    Resultado(proventos, descontos, fgts, liquido)
  }

  /** The zero guards: no working days, no transport opt-in, unknown plan, no union flag. */
  lemma ZeroGuards(e: Entradas, r: RuleSet)
    requires |r.tabelaINSS| > 0
    ensures var res := CalcularSalarioCompleto(e, r);
      && (e.diasUteis <= 0.0 ==> res.proventos.dsrHE == 0.0 && res.proventos.dsrNoturno == 0.0)
      && (!e.descontarVT ==> res.descontos.descontoVT == 0.0)
      && (e.plano !in r.planosSESI ==> res.descontos.descontoPlano == 0.0)
      && (e.sindicato != "sim" ==> res.descontos.descontoSindicato == 0.0)
  {
  }

  /** Absences and tardiness change no deduction line but their own. */
  lemma DescontosIgnoreAbsences(e: Entradas, faltas: real, atrasos: real, inss: real, irrf: real, r: RuleSet)
    ensures var a := CalcularDescontos(e, inss, irrf, r);
      var b := CalcularDescontos(e.(faltas := faltas, atrasos := atrasos), inss, irrf, r);
      && b.descontoPlano == a.descontoPlano && b.descontoSindicato == a.descontoSindicato
      && b.emprestimo == a.emprestimo && b.adiantamento == a.adiantamento
      && b.descontoVA == a.descontoVA && b.descontoVT == a.descontoVT
  {
  }

  /**
   * Absences and tardiness are deducted from net pay only: they change neither the gross,
   * the INSS base nor the taxes, and the net falls by exactly their two deduction lines.
   */
  lemma AbsencesOnlyReduceNet(e: Entradas, faltas: real, atrasos: real, r: RuleSet)
    requires |r.tabelaINSS| > 0
    ensures var a := CalcularSalarioCompleto(e, r);
      var b := CalcularSalarioCompleto(e.(faltas := faltas, atrasos := atrasos), r);
      && b.proventos == a.proventos
      && b.fgts == a.fgts
      && b.descontos.inss == a.descontos.inss
      && b.descontos.irrf == a.descontos.irrf
      && b.liquido + b.descontos.descontoFaltas + b.descontos.descontoAtrasos
         == a.liquido + a.descontos.descontoFaltas + a.descontos.descontoAtrasos
  {
    var a := CalcularSalarioCompleto(e, r);
    DescontosIgnoreAbsences(e, faltas, atrasos, a.descontos.inss, a.descontos.irrf, r);
  }

  /** Zero days worked is not defaulted to a full month: it pays no base and advances nothing. */
  lemma ZeroDaysNotDefaulted(e: Entradas, inss: real, irrf: real, r: RuleSet)
    requires e.diasTrab == 0.0
    ensures ProventosDe(e, r).vencBase == 0.0
    ensures CalcularDescontos(e, inss, irrf, r).adiantamento == 0.0
  {
    BasePayIsProrated(e, r);
    AdvanceOfDescontos(e, inss, irrf, r);
    assert Proporcional(e.salario, 0.0) == 0.0;
  }

  /**
   * The salary advance is the fixed share of the prorated base pay, whatever INSS and IRRF were
   * charged (CalcularSalarioCompleto pairs ProventosDe with CalcularDescontos on the same form).
   */
  lemma AdvanceIsShareOfBasePay(e: Entradas, inss: real, irrf: real, r: RuleSet)
    ensures CalcularDescontos(e, inss, irrf, r).adiantamento
         == ProventosDe(e, r).vencBase * r.percentualAdiantamento
  {
    BasePayIsProrated(e, r);
    AdvanceOfDescontos(e, inss, irrf, r);
    ShareOfEqual(CalcularDescontos(e, inss, irrf, r).adiantamento, ProventosDe(e, r).vencBase,
                 Proporcional(e.salario, e.diasTrab), r.percentualAdiantamento);
  }

  lemma ShareOfEqual(share: real, base: real, prorated: real, pct: real)
    requires share == prorated * pct && base == prorated
    ensures share == base * pct
  {
  }

  lemma BasePayIsProrated(e: Entradas, r: RuleSet)
    ensures ProventosDe(e, r).vencBase == Proporcional(e.salario, e.diasTrab)
  {
  }

  lemma AdvanceOfDescontos(e: Entradas, inss: real, irrf: real, r: RuleSet)
    ensures CalcularDescontos(e, inss, irrf, r).adiantamento
         == Proporcional(e.salario, e.diasTrab) * r.percentualAdiantamento
  {
  }

  /** The form of a full month's salary with nothing else filled in. */
  function SalarioSimples(salario: real): Entradas {
    Entradas(salario, 30.0, 0.0, 0.0, 0.0, 0.0, 0.0, 0.0, 0.0, 0.0, 0.0, "nenhum", "nao", 0.0, 0.0, 0.0, false)
  }

  lemma Inss2026At3000()
    ensures Inss(3000.0, Regras2026) == 253.41
  {
    var t := Regras2026.tabelaINSS;
    assert FaixaINSSIndex(3000.0, t) == 2 by {
      assert t[1..][1..] == t[2..];
      assert FaixaINSSIndex(3000.0, t[2..]) == 0;
    }
  }

  lemma Irrf2026At3000()
    ensures Irrf(3000.0, 253.41, 0.0, 3000.0, Regras2026) == 0.0
  {
    assert Isento(3000.0, Regras2026);
  }

  lemma Descontos2026At3000()
    ensures var d := CalcularDescontos(SalarioSimples(3000.0), 253.41, 0.0, Regras2026);
      d.adiantamento == 1200.0 && d.totalDescontos == 1477.38
  {
    var d := CalcularDescontos(SalarioSimples(3000.0), 253.41, 0.0, Regras2026);
    assert d.descontoFaltas == 0.0 && d.descontoAtrasos == 0.0 && d.descontoPlano == 0.0;
    assert d.descontoSindicato == 0.0 && d.descontoVT == 0.0 && d.descontoVA == 23.97;
  }

  lemma Proventos2026At3000()
    ensures CalcularSalarioCompleto(SalarioSimples(3000.0), Regras2026).proventos.totalBruto == 3000.0
  {
    assert ProventosDe(SalarioSimples(3000.0), Regras2026).totalBruto == 3000.0;
  }

  lemma Impostos2026At3000()
    ensures var res := CalcularSalarioCompleto(SalarioSimples(3000.0), Regras2026);
      res.descontos.inss == 253.41 && res.descontos.irrf == 0.0
  {
    Proventos2026At3000();
    Inss2026At3000();
    Irrf2026At3000();
  }

  lemma Liquido2026At3000()
    ensures var res := CalcularSalarioCompleto(SalarioSimples(3000.0), Regras2026);
      res.descontos.adiantamento == 1200.0 && res.fgts == 240.0 && res.liquido == 1522.62
  {
    Proventos2026At3000();
    Impostos2026At3000();
    Descontos2026At3000();
  }

  /** Salary 3000.00 for a full month and nothing else, under the 2026 table. */
  lemma Scenario3000()
    ensures var res := CalcularSalarioCompleto(SalarioSimples(3000.0), Regras2026);
      && res.proventos.totalBruto == 3000.0
      && res.descontos.inss == 253.41
      && res.descontos.irrf == 0.0
      && res.descontos.adiantamento == 1200.0
      && res.fgts == 240.0
      && res.liquido == 1522.62
  {
    Proventos2026At3000();
    Impostos2026At3000();
    Liquido2026At3000();
  }

  lemma Inss2026At6000()
    ensures Inss(6000.0, Regras2026) == 649.59
  {
    var t := Regras2026.tabelaINSS;
    assert FaixaINSSIndex(6000.0, t) == 3 by {
      assert t[1..][1..][1..] == t[3..];
      assert FaixaINSSIndex(6000.0, t[3..]) == 0;
    }
  }

  lemma Irrf2026At6000()
    ensures Irrf(6000.0, 649.59, 0.0, 6000.0, Regras2026) == 395.62275
  {
    var r := Regras2026;
    assert BaseFinalIRRF(6000.0, 649.59, 0.0, r) == 5350.41;
    var u := r.tabelaIRRF;
    assert FaixaIRRFIndex(5350.41, u) == 4 by {
      assert u[1..][1..][1..][1..] == u[4..];
      assert FaixaIRRFIndex(5350.41, u[4..]) == 0;
    }
    assert ImpostoTabela(5350.41, u) == 575.36275;
    assert Redutor(6000.0, r.novaRegra2026.value) == 179.74;
  }

  /** Gross 6000.00 with no dependents, inside the transition band, under the 2026 table. */
  lemma Scenario6000()
    ensures var res := CalcularSalarioCompleto(SalarioSimples(6000.0), Regras2026);
      && res.proventos.totalBruto == 6000.0
      && res.descontos.inss == 649.59
      && res.descontos.irrf == 395.62275
  {
    assert ProventosDe(SalarioSimples(6000.0), Regras2026).totalBruto == 6000.0;
    Inss2026At6000();
    Irrf2026At6000();
  }
}
