/** The older investments page: each fetched investment gets the whole
    calendar months since its start (never negative) and the profit of
    compounding its monthly rate over them; the page shows the portfolio
    totals and, per investment, the value 6, 12 and 24 months further on.
    Today's date is a parameter. */
module InvestimentosAntigo {
  import opened Wrappers
  import opened Calendar
  import opened Currency

  /** The shared `Investimento` type, with the two columns the page computes. */
  datatype Investimento = Investimento(
    id: string,
    userId: string,
    valorInicial: real,
    tipo: string,
    dataInicio: Date,
    rendimentoPercentual: real,
    lucroAtual: real,
    mesesInvestido: Option<nat>)

  /** `calculateMonthsDifference`: the calendar-month difference, floored at 0. */
  function CalculateMonthsDifference(startDate: Date, endDate: Date): (m: nat)
    ensures MonthIndex(endDate) - MonthIndex(startDate) >= 0 ==> m == GetMonthsDifference(startDate, endDate)
    ensures MonthIndex(endDate) - MonthIndex(startDate) < 0 ==> m == 0
  {
    var months := (endDate.year - startDate.year) * 12 + (endDate.month0 - startDate.month0);
    if months > 0 then months else 0
  }

  /** A later end date never gives fewer months. */
  lemma {:induction false} MonthsDifferenceMonotone(startDate: Date, a: Date, b: Date)
    requires MonthIndex(a) <= MonthIndex(b)
    ensures CalculateMonthsDifference(startDate, a) <= CalculateMonthsDifference(startDate, b)
  {
  }

  /** `Math.pow(base, n)` for a whole number of months. */
  function Pow(base: real, n: nat): real {
    if n == 0 then 1.0 else Pow(base, n - 1) * base
  }

  lemma {:induction false} PowAdd(base: real, a: nat, b: nat)
    ensures Pow(base, a + b) == Pow(base, a) * Pow(base, b)
    decreases b
  {
    if b > 0 {
      PowAdd(base, a, b - 1);
      assert Pow(base, a + b) == Pow(base, a + b - 1) * base;
    }
  }

  lemma {:induction false} PowAtLeastOne(base: real, n: nat)
    requires base >= 1.0
    ensures Pow(base, n) >= 1.0
  {
    if n > 0 {
      PowAtLeastOne(base, n - 1);
      assert Pow(base, n - 1) * base >= Pow(base, n - 1) * 1.0;
    }
  }

  /** The monthly growth factor `1 + rendimento / 100`. */
  function Fator(rendimento: real): real {
    1.0 + rendimento / 100.0
  }

  /** `calculateProjection`: the initial value compounded over `meses` months. */
  function CalculateProjection(valorInicial: real, rendimento: real, meses: nat): (p: real)
    ensures meses == 0 ==> p == valorInicial
    ensures valorInicial >= 0.0 && rendimento >= 0.0 ==> p >= valorInicial
  {
    if rendimento >= 0.0 then
      PowAtLeastOne(Fator(rendimento), meses);
      valorInicial * Pow(Fator(rendimento), meses)
    else valorInicial * Pow(Fator(rendimento), meses)
  }

  /** No months leave the value as it is; each extra month multiplies it by
      the factor. */
  lemma {:induction false} ProjectionSteps(valorInicial: real, rendimento: real, meses: nat)
    ensures CalculateProjection(valorInicial, rendimento, 0) == valorInicial
    ensures CalculateProjection(valorInicial, rendimento, meses + 1)
            == CalculateProjection(valorInicial, rendimento, meses) * Fator(rendimento)
  {
    assert Pow(Fator(rendimento), meses + 1) == Pow(Fator(rendimento), meses) * Fator(rendimento);
  }

  /** Projecting `a` months and then `b` more is projecting `a + b` months. */
  lemma {:induction false} ProjectionAdditive(valorInicial: real, rendimento: real, a: nat, b: nat)
    ensures CalculateProjection(CalculateProjection(valorInicial, rendimento, a), rendimento, b)
            == CalculateProjection(valorInicial, rendimento, a + b)
  {
    PowAdd(Fator(rendimento), a, b);
  }

  /** With a non-negative value and rate, a longer horizon never projects less. */
  lemma {:induction false} ProjectionMonotone(valorInicial: real, rendimento: real, a: nat, b: nat)
    requires valorInicial >= 0.0 && rendimento >= 0.0 && a <= b
    ensures CalculateProjection(valorInicial, rendimento, a) <= CalculateProjection(valorInicial, rendimento, b)
  {
    var f := Fator(rendimento);
    PowAdd(f, a, b - a);
    PowAtLeastOne(f, b - a);
    PowAtLeastOne(f, a);
    var pa, pd := Pow(f, a), Pow(f, b - a);
    assert Pow(f, b) - pa == pa * (pd - 1.0);
    assert pa * (pd - 1.0) >= 0.0;
    assert valorInicial * (Pow(f, b) - pa) >= 0.0;
    assert CalculateProjection(valorInicial, rendimento, a) == valorInicial * pa;
    assert CalculateProjection(valorInicial, rendimento, b) == valorInicial * Pow(f, b);
  }

  /** The fetch's `map`: the months since the start up to today and the
      profit of compounding over them. */
  function ComLucro(inv: Investimento, hoje: Date): (r: Investimento)
    ensures r.mesesInvestido == Some(CalculateMonthsDifference(inv.dataInicio, hoje))
    ensures r.valorInicial + r.lucroAtual
            == CalculateProjection(inv.valorInicial, inv.rendimentoPercentual, CalculateMonthsDifference(inv.dataInicio, hoje))
    ensures r.(lucroAtual := inv.lucroAtual, mesesInvestido := inv.mesesInvestido) == inv
  {
    var mesesInvestido := CalculateMonthsDifference(inv.dataInicio, hoje);
    var lucroCalculado := inv.valorInicial * Pow(Fator(inv.rendimentoPercentual), mesesInvestido) - inv.valorInicial;
    inv.(lucroAtual := lucroCalculado, mesesInvestido := Some(mesesInvestido))
  }

  function ComLucroLista(data: seq<Investimento>, hoje: Date): (r: seq<Investimento>)
    ensures |r| == |data|
    ensures forall k :: 0 <= k < |data| ==> r[k] == ComLucro(data[k], hoje)
  {
    seq(|data|, k requires 0 <= k < |data| => ComLucro(data[k], hoje))
  }

  function TotalInvestido(investimentos: seq<Investimento>): real {
    if investimentos == [] then 0.0
    else TotalInvestido(investimentos[..|investimentos| - 1]) + investimentos[|investimentos| - 1].valorInicial
  }

  function TotalLucro(investimentos: seq<Investimento>): real {
    if investimentos == [] then 0.0
    else TotalLucro(investimentos[..|investimentos| - 1]) + investimentos[|investimentos| - 1].lucroAtual
  }

  /** `valorAtual = totalInvestido + totalLucro`. */
  function ValorAtual(investimentos: seq<Investimento>): real {
    TotalInvestido(investimentos) + TotalLucro(investimentos)
  }

  /** The sum of each investment's projection to today. */
  function SomaProjecoes(data: seq<Investimento>, hoje: Date): real {
    if data == [] then 0.0
    else
      var inv := data[|data| - 1];
      SomaProjecoes(data[..|data| - 1], hoje)
      + CalculateProjection(inv.valorInicial, inv.rendimentoPercentual, CalculateMonthsDifference(inv.dataInicio, hoje))
  }

  /** After the fetch's `map`, the portfolio's current value is the sum of
      the investments' projections to today. */
  lemma {:induction false} ValorAtualSomaProjecoes(data: seq<Investimento>, hoje: Date)
    ensures ValorAtual(ComLucroLista(data, hoje)) == SomaProjecoes(data, hoje)
    decreases |data|
  {
    if data != [] {
      var n := |data|;
      var r := ComLucroLista(data, hoje);
      assert r[..n - 1] == ComLucroLista(data[..n - 1], hoje);
      ValorAtualSomaProjecoes(data[..n - 1], hoje);
      var last := ComLucro(data[n - 1], hoje);
      assert r[n - 1] == last;
    }
  }

  datatype Projecoes = Projecoes(seisMeses: real, umAno: real, doisAnos: real)

  /** The three projections shown per investment: `(meses_investido || 0)`
      plus 6, 12 and 24 months. */
  function Horizontes(inv: Investimento): (p: Projecoes)
    ensures var m := if inv.mesesInvestido.Some? then inv.mesesInvestido.value else 0;
            p.seisMeses == CalculateProjection(inv.valorInicial, inv.rendimentoPercentual, m + 6)
            && p.umAno == CalculateProjection(p.seisMeses, inv.rendimentoPercentual, 6)
            && p.doisAnos == CalculateProjection(p.umAno, inv.rendimentoPercentual, 12)
  {
    var m := if inv.mesesInvestido.Some? then inv.mesesInvestido.value else 0;
    ProjectionAdditive(inv.valorInicial, inv.rendimentoPercentual, m + 6, 6);
    ProjectionAdditive(inv.valorInicial, inv.rendimentoPercentual, m + 12, 12);
    Projecoes(CalculateProjection(inv.valorInicial, inv.rendimentoPercentual, m + 6),
              CalculateProjection(inv.valorInicial, inv.rendimentoPercentual, m + 12),
              CalculateProjection(inv.valorInicial, inv.rendimentoPercentual, m + 24))
  }

  /** For an investment mapped by the fetch, the 6-month horizon is its
      current value compounded 6 more months. */
  lemma {:induction false} HorizonteDoValorAtual(inv: Investimento, hoje: Date)
    ensures var r := ComLucro(inv, hoje);
            Horizontes(r).seisMeses == CalculateProjection(r.valorInicial + r.lucroAtual, inv.rendimentoPercentual, 6)
  {
    var m := CalculateMonthsDifference(inv.dataInicio, hoje);
    ProjectionAdditive(inv.valorInicial, inv.rendimentoPercentual, m, 6);
  }
}
