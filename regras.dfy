/**
 * The fiscal-year rule table of regras.js: the constants, the social-security (INSS)
 * and income-tax (IRRF) bracket tables, the 2026 transition rule (Lei 15.270) and the
 * health-plan price list, as one immutable value.
 */
module Regras {
  import opened Wrappers

  /** An INSS row: a base up to `ate` contributes `base * aliquota - deduzir`. */
  datatype FaixaINSS = FaixaINSS(ate: real, aliquota: real, deduzir: real)

  /** Upper bound of an IRRF row: a number, or the sentinel "acima" (no upper limit). */
  datatype Bound = At(value: real) | Above

  /** An IRRF row: a base that fits under `ate` pays `base * aliquota - deduzir`. */
  datatype FaixaIRRF = FaixaIRRF(ate: Bound, aliquota: real, deduzir: real)

  /** The 2026 rule: exemption by gross income and a linear reducer in the transition band. */
  datatype NovaRegra = NovaRegra(
    ativo: bool,
    limiteIsencaoBruto: real,
    faixaTransicaoFim: real,
    fatorRedutor: real,
    parcelaFixaRedutor: real)

  datatype RuleSet = RuleSet(
    anoVigencia: int,
    salarioMinimo: real,
    tetoINSS: real,
    percentualAdiantamento: real,
    percentualAdicionalNoturno: real,
    descontoFixoVA: real,
    percentualVT: real,
    valorSindicato: real,
    descontoSimplificado: real,
    deducaoPorDependenteIRRF: real,
    novaRegra2026: Option<NovaRegra>,
    tabelaINSS: seq<FaixaINSS>,
    tabelaIRRF: seq<FaixaIRRF>,
    planosSESI: map<string, real>)

  /** The rule table the application ships with. */
  const Regras2026: RuleSet := RuleSet(
    2026,
    1518.00,
    8157.41,
    0.4,
    0.35,
    23.97,
    0.06,
    47.5,
    564.80,
    189.59,
    Some(NovaRegra(true, 5000.00, 7350.00, 0.133145, 978.61)),
    [ FaixaINSS(1518.00, 0.075, 0.0),
      FaixaINSS(2793.88, 0.09, 22.77),
      FaixaINSS(4190.83, 0.12, 106.59),
      FaixaINSS(8157.41, 0.14, 190.41) ],
    [ FaixaIRRF(At(2259.20), 0.0, 0.0),
      FaixaIRRF(At(2826.65), 0.075, 169.44),
      FaixaIRRF(At(3751.05), 0.15, 381.44),
      FaixaIRRF(At(4664.68), 0.225, 662.77),
      FaixaIRRF(Above, 0.275, 896.00) ],
    map[ "nenhum" := 0.0,
         "basico_individual" := 29.0,
         "basico_familiar" := 58.0,
         "plus_individual" := 115.0,
         "plus_familiar" := 180.0 ])

  /** INSS bounds strictly ascend. */
  ghost predicate InssAscending(t: seq<FaixaINSS>) {
    forall i, j :: 0 <= i < j < |t| ==> t[i].ate < t[j].ate
  }

  /** The last INSS bound is the contribution ceiling, so a clamped base always finds a row. */
  ghost predicate InssCeilingIsLastBound(r: RuleSet) {
    |r.tabelaINSS| > 0 && r.tabelaINSS[|r.tabelaINSS| - 1].ate == r.tetoINSS
  }

  /** Every IRRF row but the last has a numeric bound, those bounds ascend, and the last is "acima". */
  ghost predicate IrrfWellFormed(t: seq<FaixaIRRF>) {
    && |t| > 0
    && t[|t| - 1].ate == Above
    && (forall i :: 0 <= i < |t| - 1 ==> t[i].ate.At?)
    && (forall i, j :: 0 <= i < j < |t| - 1 ==> t[i].ate.value < t[j].ate.value)
  }

  /** The transition rule is switched on and its band is non-empty. */
  ghost predicate TransicaoValida(n: Option<NovaRegra>) {
    n.Some? && n.value.ativo && n.value.limiteIsencaoBruto < n.value.faixaTransicaoFim
  }

  /** Plan "nenhum" is free and no plan has a negative price. */
  ghost predicate PlanosValidos(p: map<string, real>) {
    && "nenhum" in p && p["nenhum"] == 0.0
    && forall k :: k in p ==> p[k] >= 0.0
  }

  ghost predicate WellFormed(r: RuleSet) {
    && InssAscending(r.tabelaINSS)
    && InssCeilingIsLastBound(r)
    && IrrfWellFormed(r.tabelaIRRF)
    && TransicaoValida(r.novaRegra2026)
    && PlanosValidos(r.planosSESI)
  }

  /** The shipped table satisfies every well-formedness condition above. */
  lemma Regras2026WellFormed()
    ensures WellFormed(Regras2026)
  {
    var t := Regras2026.tabelaINSS;
    assert InssAscending(t) by {
      forall i, j | 0 <= i < j < |t| ensures t[i].ate < t[j].ate {
        assert t[0].ate < t[1].ate < t[2].ate < t[3].ate;
      }
    }
    var u := Regras2026.tabelaIRRF;
    assert IrrfWellFormed(u) by {
      forall i, j | 0 <= i < j < |u| - 1 ensures u[i].ate.value < u[j].ate.value {
        assert u[0].ate.value < u[1].ate.value < u[2].ate.value < u[3].ate.value;
      }
    }
  }

  /** The first IRRF row taxes nothing and the second row's formula is 0 at its lower edge 2259.20. */
  lemma IrrfContinuousAtFirstBound()
    ensures Regras2026.tabelaIRRF[0].aliquota == 0.0 && Regras2026.tabelaIRRF[0].deduzir == 0.0
    ensures Regras2026.tabelaIRRF[0].ate == At(2259.20)
    ensures 2259.20 * Regras2026.tabelaIRRF[1].aliquota - Regras2026.tabelaIRRF[1].deduzir == 0.0
  {
  }

  /** The first two INSS formulas agree at their shared bound 1518.00 (both 113.85). */
  lemma InssFormulasAgreeAtFirstBound()
    ensures Regras2026.tabelaINSS[0].ate == 1518.00
    ensures 1518.00 * Regras2026.tabelaINSS[0].aliquota - Regras2026.tabelaINSS[0].deduzir == 113.85
    ensures 1518.00 * Regras2026.tabelaINSS[1].aliquota - Regras2026.tabelaINSS[1].deduzir == 113.85
  {
  }

  /** The reducer is positive at the exemption limit and slightly negative at the band's top. */
  lemma ReducerSignAtBandEdges()
    ensures Regras2026.novaRegra2026.Some?
    ensures var n := Regras2026.novaRegra2026.value;
      && n.parcelaFixaRedutor - n.fatorRedutor * n.limiteIsencaoBruto > 0.0
      && n.parcelaFixaRedutor - n.fatorRedutor * n.faixaTransicaoFim < 0.0
  {
  }
}
