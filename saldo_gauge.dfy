/** The balance gauge: the balance it analyses (the simulated one when a
    simulation is shown), that balance's status against the minimum-balance
    goal, the widths of the bar and of the goal marker, and the difference
    from the goal. Amounts are exact reals, so the page's `meta * 1.1` is
    exactly eleven tenths of the goal. */
module SaldoGauge {
  import opened Wrappers

  datatype Status = Confortavel | Proximo | Excedido

  /** `saldoParaAnalise`: the simulated balance when one is given. */
  function SaldoParaAnalise(saldoAtual: real, saldoSimulado: Option<real>): (s: real)
    ensures saldoSimulado.Some? ==> s == saldoSimulado.value
    ensures saldoSimulado.None? ==> s == saldoAtual
  {
    if saldoSimulado.Some? then saldoSimulado.value else saldoAtual
  }

  /** `getStatus`: below the goal the goal is exceeded ('excedido'), up to
      10% above it the balance is near it ('proximo'), otherwise it is
      comfortable. */
  function GetStatus(saldo: real, meta: real): (s: Status)
    ensures s == Excedido <==> saldo < meta
    ensures s == Proximo <==> meta <= saldo && 10.0 * saldo <= 11.0 * meta
    ensures s == Confortavel <==> meta <= saldo && 10.0 * saldo > 11.0 * meta
  {
    if saldo < meta then Excedido
    else if saldo <= meta * 1.1 then Proximo
    else Confortavel
  }

  /** The statuses from worst to best. */
  function Nivel(s: Status): int {
    match s
    case Excedido => 0
    case Proximo => 1
    case Confortavel => 2
  }

  /** A larger balance never gets a worse status. */
  lemma {:induction false} StatusMonotone(a: real, b: real, meta: real)
    requires a <= b
    ensures Nivel(GetStatus(a, meta)) <= Nivel(GetStatus(b, meta))
  {
    if GetStatus(b, meta) == Proximo {
      assert 10.0 * a <= 10.0 * b;
    }
  }

  /** Below a negative goal there is no 'proximo' band: 1.1 times the goal
      lies below the goal itself. */
  lemma {:induction false} SemFaixaProximaAbaixoDeZero(saldo: real, meta: real)
    requires meta < 0.0
    ensures GetStatus(saldo, meta) != Proximo
  {
  }

  /** `Math.max(saldoParaAnalise, meta * 1.5)`: the value the bar's full width stands for. */
  function MaxValue(saldo: real, meta: real): (m: real)
    ensures m >= saldo && m >= meta * 1.5
    ensures m == saldo || m == meta * 1.5
  {
    if saldo > meta * 1.5 then saldo else meta * 1.5
  }

  /** The width of the balance bar and the position of the goal marker, in
      percent of the track. */
  datatype Barras = Barras(porcentagemSaldo: real, porcentagemMeta: real)

  /** The bar's percentages: the balance's share of `MaxValue`, at least 5,
      and the goal's share. When `MaxValue` is 0 the page divides by zero,
      which is `None` here. */
  function CalcularBarras(saldo: real, meta: real): (b: Option<Barras>)
    ensures b.None? <==> MaxValue(saldo, meta) == 0.0
    ensures b.Some? ==>
              b.value.porcentagemSaldo >= 5.0
              && (b.value.porcentagemSaldo == 5.0 || b.value.porcentagemSaldo * MaxValue(saldo, meta) == saldo * 100.0)
              && b.value.porcentagemMeta * MaxValue(saldo, meta) == meta * 100.0
  {
    var maxValue := MaxValue(saldo, meta);
    if maxValue == 0.0 then None
    else
      var bruta := (saldo / maxValue) * 100.0;
      Some(Barras(if bruta > 5.0 then bruta else 5.0, (meta / maxValue) * 100.0))
  }

  /** With a positive goal the bar is always drawn, fills between 5% and the
      whole track (the whole track exactly when the balance reaches 1.5
      times the goal), and the goal marker sits at most two thirds along. */
  lemma {:induction false} BarrasComMetaPositiva(saldo: real, meta: real)
    requires meta > 0.0
    ensures CalcularBarras(saldo, meta).Some?
    ensures var b := CalcularBarras(saldo, meta).value;
            5.0 <= b.porcentagemSaldo <= 100.0
            && (b.porcentagemSaldo == 100.0 <==> saldo >= meta * 1.5)
            && 0.0 < b.porcentagemMeta && 3.0 * b.porcentagemMeta <= 200.0
  {
    var m := MaxValue(saldo, meta);
    assert m >= meta * 1.5 > 0.0;
    var b := CalcularBarras(saldo, meta).value;
    var bruta := (saldo / m) * 100.0;
    assert bruta * m == saldo * 100.0;
    assert bruta <= 100.0 by {
      assert saldo * 100.0 <= m * 100.0;
    }
    if saldo >= meta * 1.5 {
      assert m == saldo;
      assert bruta == 100.0;
    } else {
      assert m == meta * 1.5 && saldo < m;
      assert bruta < 100.0 by {
        assert bruta * m < m * 100.0;
      }
    }
    assert b.porcentagemMeta * m == meta * 100.0;
    assert 3.0 * b.porcentagemMeta <= 200.0 by {
      assert 3.0 * b.porcentagemMeta * m == 300.0 * meta;
      assert 300.0 * meta == 200.0 * (meta * 1.5) <= 200.0 * m;
    }
  }

  /** The line under the gauge: a '+' in front of the formatted
      `saldoParaAnalise - meta`, in green, when the balance reaches the goal. */
  datatype Diferenca = Diferenca(prefixo: string, valor: real, verde: bool)

  function DiferencaDaMeta(saldo: real, meta: real): (d: Diferenca)
    ensures d.valor == saldo - meta
    ensures d.prefixo == "+" <==> saldo >= meta
    ensures d.prefixo == "" <==> saldo < meta
    ensures d.verde <==> saldo >= meta
  {
    var atinge := saldo >= meta;
    Diferenca(if atinge then "+" else "", saldo - meta, atinge)
  }

  /** The '+' appears exactly on non-negative differences, and exactly when
      the status is not 'excedido'. */
  lemma {:induction false} DiferencaConcordaComStatus(saldo: real, meta: real)
    ensures DiferencaDaMeta(saldo, meta).prefixo == "+" <==> DiferencaDaMeta(saldo, meta).valor >= 0.0
    ensures DiferencaDaMeta(saldo, meta).prefixo == "+" <==> GetStatus(saldo, meta) != Excedido
  {
  }

  /** The trend icon next to "Simulação": up when the simulated balance is
      above the current one, down otherwise; no icon without a simulation. */
  function SimulacaoSobe(saldoAtual: real, saldoSimulado: Option<real>): (r: Option<bool>)
    ensures r.None? <==> saldoSimulado.None?
    ensures r.Some? ==> (r.value <==> saldoSimulado.value > saldoAtual)
  {
    if saldoSimulado.Some? then Some(saldoSimulado.value > saldoAtual) else None
  }
}
