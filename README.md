# Brazilian monthly payroll: a Dafny model

This project models the calculation core of a Brazilian payroll calculator (Calculo-Salario-Modular)
and proves properties of it. The core has three parts:

- **The rule table** (`regras.js`). It holds the 2026 constants, the progressive INSS
  (social-security) table, the IRRF (income-tax) table with its `"acima"` sentinel, the
  Lei 15.270 transition rule and the SESI health-plan prices. Module `Regras` gives it as the
  datatype value `Regras2026`, with well-formedness predicates.
- **The payroll engine** (`calculadora-regras.js`), module `CalculadoraRegras`.
  - `calcularINSS` and `calcularIRRF` are methods with the source's loops: an early return
    for INSS, and a `break` followed by a decrement for IRRF. Each method is proved equal to a
    first-match function (`Inss`, `Irrf`).
  - `calcularSalarioCompleto` is a pure function. It returns the earnings
    (`Proventos`), the deductions (`Descontos`), FGTS (the 8% deposit) and net pay.
- **The vacation proration** (`calcularDiasProporcionaisFerias` and the full-month branch of
  `alternarModoDias` in `app.js`), module `Ferias`.
  - The form is the class `FormularioFerias`. Its methods write the field `diasTrab`.
  - `new Date(ano, mes, 0).getDate()` is modelled by `UltimoDiaMes`. It is built on a
    Gregorian `DaysInMonth` and keeps JavaScript's year 0–99 mapping and month roll-over.

Money is exact `real`. Inputs reach the engine already sanitised, as the application's `getVal`
leaves them.

In these places the model keeps the code's behaviour:

- `diasTrab = 0` is not defaulted to 30.
- The INSS base is `totalBruto`, with absences and tardiness not subtracted. The IRRF legal
  base subtracts the INSS once.
- There is no separate "assistencial" deduction.
- Departure mode pays `diaValidado - 1`. The vacation length is never read, so there is no
  "sandwich" computation.
- An empty reference month or day leaves `diasTrab` unchanged. There is no structured status.

## Model

| member | source | states |
|---|---|---|
| Regras.Regras2026WellFormed | regras.js:1-44 | INSS bounds strictly ascend and the last equals `tetoINSS`. IRRF numeric bounds strictly ascend and the last row is `"acima"`. The transition rule is active with `limiteIsencaoBruto < faixaTransicaoFim`. Plan `"nenhum"` costs 0 and no plan price is negative. |
| Regras.IrrfContinuousAtFirstBound | regras.js:30-31 | The first IRRF row taxes at rate 0. The second row's formula gives exactly 0 at 2259.20. |
| Regras.InssFormulasAgreeAtFirstBound | regras.js:23-24 | The first two INSS formulas both give 113.85 at 1518.00. |
| Regras.ReducerSignAtBandEdges | regras.js:15-19 | The reducer 978.61 − 0.133145 × gross is positive at 5000.00 and negative at 7350.00. |
| CalculadoraRegras.FaixaINSSIndex | calculadora-regras.js:6-10 | The result is the index of the first row whose `ate` is at or above the base: every earlier row's bound is below the base. It is the table length when no row fits. |
| CalculadoraRegras.CalcularINSS | calculadora-regras.js:2-13 | The loop with its early return computes exactly the first-match contribution on the clamped base, falling back to the last row. |
| CalculadoraRegras.InssAboveCeiling | calculadora-regras.js:3-5 | Any base at or above `tetoINSS` contributes exactly what `tetoINSS` contributes. |
| CalculadoraRegras.InssFirstFittingRow | calculadora-regras.js:6-10 | A clamped base is charged by the first row whose bound it does not exceed, and by no later row. |
| CalculadoraRegras.InssBoundaryUsesThatRow | calculadora-regras.js:7-8 | The comparison is `<=`: with ascending bounds, a base equal to a row's `ate` is charged by that row, not the next. |
| CalculadoraRegras.Inss | calculadora-regras.js:2-13 | The contribution is some row's `base × aliquota − deduzir` on the base clamped to `tetoINSS`. InssFirstFittingRow and InssFallbackToLastRow say which row; CalcularINSS is proved equal to it. |
| CalculadoraRegras.InssFallbackToLastRow | calculadora-regras.js:11-12 | A clamped base above every bound is charged by the last row's `aliquota`/`deduzir`. |
| CalculadoraRegras.InssFallbackUnreachable | calculadora-regras.js:3-12 | When the last bound equals the ceiling, every clamped base finds a row, so the fallback is never used. |
| CalculadoraRegras.InssMonotoneWithinRow | calculadora-regras.js:8 | Within one row with a non-negative rate, a larger base never contributes less. |
| CalculadoraRegras.Inss2026Range | calculadora-regras.js:2-13 | Under the 2026 table, every non-negative base contributes between 0 and 951.6274, the value at the ceiling. |
| CalculadoraRegras.FaixaIRRFIndex | calculadora-regras.js:36-41 | The result is the index of the first row that is `"acima"` or whose bound is at or above the base; every earlier row fails that test. |
| CalculadoraRegras.IrrfScanAlwaysAssigns | calculadora-regras.js:36-41 | When the last row is `"acima"`, the scan always matches a row. |
| CalculadoraRegras.ImpostoTabela | calculadora-regras.js:35-41 | The table tax of the scan. ImpostoTabelaFirstFittingRow and ImpostoTabelaNoRowFits state its value. |
| CalculadoraRegras.ImpostoTabelaFirstFittingRow | calculadora-regras.js:36-41 | The first row that is `"acima"`, or whose bound is at or above the bracket input, sets the table tax to `base × aliquota − deduzir`. |
| CalculadoraRegras.ImpostoTabelaNoRowFits | calculadora-regras.js:35 | When no row fits, the table tax keeps its initial value 0. |
| CalculadoraRegras.IrrfTableMonotoneWithinRow | calculadora-regras.js:36-41 | Within one IRRF row with a non-negative rate, a larger bracket input never owes less table tax. |
| CalculadoraRegras.BaseFinalIRRF | calculadora-regras.js:28-33 | The bracket input is `max(0, min(legal, simplified))`, with legal = base − INSS − dependents × deduction and simplified = base − simplified discount. It is non-negative. It is 0 or one of the two bases. Unless it is 0 it is no larger than either. It is at least the smaller of the two. |
| CalculadoraRegras.Irrf | calculadora-regras.js:17-59 | The tax is never negative. It is exactly 0 when the 2026 rule is present and active and gross is at or below the exemption limit, whatever the dependents or INSS. |
| CalculadoraRegras.CalcularIRRF | calculadora-regras.js:17-59 | The exemption return, the scan with `break` and the in-place decrement by the reducer compute exactly `Irrf`. |
| CalculadoraRegras.IrrfLegacyRule | calculadora-regras.js:20-58 | With the 2026 rule absent or inactive, IRRF is the table tax on the bracket input, floored at 0. |
| CalculadoraRegras.IrrfReducer | calculadora-regras.js:43-58 | Above the exemption, the reducer never raises the tax above max(0, table tax). When it applies and is at most the table tax, it comes off exactly and strictly lowers the tax. When it applies and is at least the table tax, the tax is 0. When it does not apply, the tax is max(0, table tax). |
| CalculadoraRegras.RedutorOnlyInsideBand | calculadora-regras.js:44-46 | The reducer is never applied when gross is at or below the exemption limit or above `faixaTransicaoFim`. |
| CalculadoraRegras.Redutor2026NotAppliedAtBandTop | calculadora-regras.js:49-54 | Under the 2026 table, at gross 7350.00 the reducer is not positive, so it is not subtracted. |
| CalculadoraRegras.CalcularProventos | calculadora-regras.js:65-81 | `totalBruto` is exactly the sum of the nine earning lines. Both DSR terms are 0 when `diasUteis <= 0`. |
| CalculadoraRegras.CalcularDescontos | calculadora-regras.js:84-100 | `totalDescontos` is exactly the sum of the ten deduction lines. The INSS and IRRF lines are the amounts passed in. No transport opt-in, an unknown plan key, or `sindicato ≠ "sim"` each give a 0 line. |
| CalculadoraRegras.CalcularSalarioCompleto | calculadora-regras.js:62-109 | The result carries those earnings. INSS is charged on `totalBruto`. IRRF is `Irrf` of `totalBruto` and that INSS, and is ≥ 0. The deductions are computed with those two amounts, `liquido + totalDescontos == totalBruto`, and `fgts == 0.08 × totalBruto`. |
| CalculadoraRegras.ZeroGuards | calculadora-regras.js:78-98 | In the full result, zero working days, no transport opt-in, an unknown plan and no union flag each give a 0 line. |
| CalculadoraRegras.DescontosIgnoreAbsences | calculadora-regras.js:85-100 | Changing absences or tardiness changes no deduction line other than those two. |
| CalculadoraRegras.AbsencesOnlyReduceNet | calculadora-regras.js:81-101 | Absences and tardiness change neither the earnings, FGTS, INSS nor IRRF. The net falls by exactly their two deduction lines. |
| CalculadoraRegras.ZeroDaysNotDefaulted | calculadora-regras.js:69-87 | `diasTrab = 0` pays no base and advances nothing, whatever INSS and IRRF are: there is no full-month default. |
| CalculadoraRegras.AdvanceIsShareOfBasePay | calculadora-regras.js:69-87 | The salary advance is `percentualAdiantamento` of the prorated base pay on the same form, whatever INSS and IRRF are. It does not depend on absences. |
| CalculadoraRegras.Inss2026At3000 | calculadora-regras.js:2-13 | Under the 2026 table, INSS on 3000.00 is 253.41 (third row). |
| CalculadoraRegras.Irrf2026At3000 | calculadora-regras.js:20-22 | Under the 2026 rules, gross 3000.00 is exempt: IRRF is 0. |
| CalculadoraRegras.Descontos2026At3000 | calculadora-regras.js:84-100 | For a 3000.00 full month with INSS 253.41 and IRRF 0, the advance is 1200.00 and the deductions total 1477.38. |
| CalculadoraRegras.Proventos2026At3000 | calculadora-regras.js:68-80 | A 3000.00 full month with nothing else grosses 3000.00. |
| CalculadoraRegras.Impostos2026At3000 | calculadora-regras.js:89-93 | In that breakdown, INSS is 253.41 and IRRF is 0. |
| CalculadoraRegras.Liquido2026At3000 | calculadora-regras.js:83-101 | In that breakdown, the advance is 1200.00, FGTS 240.00 and net pay 1522.62. |
| CalculadoraRegras.Scenario3000 | calculadora-regras.js:62-109 | Salary 3000.00 for 30 days with nothing else: gross 3000.00, INSS 253.41, IRRF 0 (exempt), advance 1200.00, FGTS 240.00, net 1522.62. |
| CalculadoraRegras.Inss2026At6000 | calculadora-regras.js:2-13 | Under the 2026 table, INSS on 6000.00 is 649.59 (fourth row). |
| CalculadoraRegras.Irrf2026At6000 | calculadora-regras.js:17-59 | Gross 6000.00 with INSS 649.59 and no dependents: the bracket input is 5350.41, the table tax 575.36275, the reducer 179.74 and the tax 395.62275. |
| CalculadoraRegras.Scenario6000 | calculadora-regras.js:62-109 | Salary 6000.00 for 30 days, inside the transition band: gross 6000.00, INSS 649.59, IRRF 395.62275. |
| Ferias.DaysInMonth | app.js:150 | A Gregorian month has 28 to 31 days. |
| Ferias.MonthsFillTheYear | app.js:150 | The twelve month lengths add up to 365 days, or 366 in a leap year. |
| Ferias.UltimoDiaMes | app.js:150 | `new Date(ano, mes, 0).getDate()` is between 28 and 31. For a month 1–12 of a year outside 0–99 it is that month's Gregorian length. |
| Ferias.FebruaryLengths | app.js:150 | February 2026 ends on the 28th and February 2028 on the 29th. |
| Ferias.DiaValidado | app.js:151 | The validated day is the smaller of the chosen day and the month's last day. |
| Ferias.DiasAPagar | app.js:153-161 | Payable days always lie in [0, 30]. The full-month mode gives 30. |
| Ferias.ReturnPaysFromReturnDay | app.js:154-156 | For a validated day 1–31, return mode pays 30 − (day − 1). |
| Ferias.DeparturePaysDaysBefore | app.js:157-159 | For a validated day 1–31, departure mode pays day − 1. |
| Ferias.ReturnAndDepartureComplement | app.js:153-161 | For the same validated day, return and departure pay amounts that add up to 30. |
| Ferias.ReturnOnDay10Pays21 | app.js:150-156 | Returning on day 10 of any month pays 21 days. |
| Ferias.DepartureOnDay1PaysNothing | app.js:150-159 | Departing on day 1 of any month pays 0 days. |
| Ferias.Day31ClampedInFebruary | app.js:150-159 | Day 31 of February 2026 is read as the 28th. Return mode then pays 3 days and departure mode 27. |
| Ferias.FormularioFerias.DiasProporcionais | app.js:149-161 | For complete input, the day count to write lies in [0, 30]. |
| Ferias.FormularioFerias.CalcularDiasProporcionaisFerias | app.js:142-162 | With a mode checked, a month filled in and a non-zero day, `diasTrab` becomes the prorated count, which lies in [0, 30]. Otherwise `diasTrab` is unchanged. No other field changes. |
| Ferias.FormularioFerias.AlternarModoDias | app.js:122-140 | Full-month mode sets `diasTrab` to 30. The other modes run the proration. With no mode checked, nothing changes. |

## Left out

- `sw.js` is not part of this model. It is service-worker cache and network handling, which is asynchronous I/O.
- The UI code of `app.js` is left out: element lookup, showing and hiding views, event wiring, `renderizarResultados` (HTML and `toLocaleString` currency formatting), `localStorage` save and restore, and service-worker registration. None of it computes anything the engine uses.
- `getVal` (`parseFloat`/`isNaN`) and the hour converter (`replace`/`Number`/`toFixed`) are left out, because they rest on JavaScript string-to-number conversion. The engine's inputs are taken as already-parsed reals.
- The reference month and the day arrive already parsed: `MesReferencia` stands for `"YYYY-MM".split('-').map(Number)`, and `Option<int>` for `parseInt` (None is NaN).
- Double-precision rounding is left out. All money is exact `real`, so results may differ from the program's output by fractions of a cent.
- Global monotonicity of INSS and IRRF across bracket boundaries is left out, because with these constants it is false by fractions of a cent (at 2793.88 and at 2826.65). Only monotonicity within one INSS row (InssMonotoneWithinRow) and within one IRRF row (IrrfTableMonotoneWithinRow) is proved.
- Ferias.FormularioFerias.CalcularDiasProporcionaisFerias: with no `tipoDias` radio checked, the source throws a TypeError when it reads `.value` of the null `querySelector` result. This happens before the empty-input test. The model treats that exception as a no-op that leaves `diasTrab` untouched, and does not model the exception itself.
- `FormularioFerias.diasTrab` holds an `int`. The text a user may type into that field, and its later `parseFloat`, are not modelled.
- The range limit of JavaScript `Date` is left out. For years beyond ±275760, `getDate()` gives NaN; the model always gives a month length.
- Looking up `planosSESI[plano]` with a key inherited from JavaScript's object prototype (such as `"constructor"`) is left out. The model treats every key missing from the map as price 0.
- An empty INSS table makes `calcularINSS` throw a TypeError. The INSS members therefore require a non-empty `tabelaINSS` instead of modelling the exception.
- `app.js` imports the engine as `./calculadora.js`, but the engine file is `calculadora-regras.js`, which is the one modelled here.
