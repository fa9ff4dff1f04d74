/** The older reports page: totals per weekday, per day of the month and
    per month over the last six, the top categories by description, and
    the totals. The fetched rows are the inputs; today's date is a
    parameter. Chart labels made by date formatting are left out: the
    monthly rows carry their month index instead of the "MMM/yy" label. */
module RelatoriosAntigo {
  import opened Calendar
  import opened Totals
  import opened Sorting
  import opened Agrupamento

  /** A fetched income or expense row: its date, `parseFloat(valor)` and
      description. */
  datatype Registro = Registro(data: Date, valor: real, descricao: string)

  function Valor(r: Registro): real { r.valor }

  function DiaDaSemana(r: Registro): int { Weekday(r.data) }

  function DiaDoMes(r: Registro): int { r.data.day }

  function MesDe(r: Registro): int { MonthIndex(r.data) }

  const NomesDosDias: seq<string> := ["Dom", "Seg", "Ter", "Qua", "Qui", "Sex", "S\U{E1}b"]

  /** A row of the weekday chart (`DayOfWeekData`). */
  datatype Linha = Linha(name: string, receitas: real, despesas: real, saldo: real)

  /** A row of the day-of-month chart (`DayOfMonthData`). */
  datatype LinhaDoDia = LinhaDoDia(day: int, receitas: real, despesas: real, saldo: real)

  /** A row of the monthly chart (`ChartData`), by month index. */
  datatype LinhaDoMes = LinhaDoMes(mes: int, receitas: real, despesas: real, saldo: real)

  function ReceitasDaLinha(l: Linha): real { l.receitas }
  function DespesasDaLinha(l: Linha): real { l.despesas }
  function SaldoDaLinha(l: Linha): real { l.saldo }
  function DiferencaDaLinha(l: Linha): real { l.receitas - l.despesas }
  function ReceitasDoDia(l: LinhaDoDia): real { l.receitas }
  function DespesasDoDia(l: LinhaDoDia): real { l.despesas }
  function ReceitasDoMes(l: LinhaDoMes): real { l.receitas }
  function DespesasDoMes(l: LinhaDoMes): real { l.despesas }

  /** What `calculateTotals` returns. */
  datatype Totais = Totais(totalReceitas: real, totalDespesas: real, totalInvestimentos: real, saldoAtual: real)

  function Id(x: real): real { x }

  /** `calculateTotals`; investments are given by their `valor_inicial`. */
  function CalculateTotals(receitas: seq<Registro>, despesas: seq<Registro>, investimentos: seq<real>): (t: Totais)
    ensures t.saldoAtual == t.totalReceitas - t.totalDespesas
    ensures receitas == [] && despesas == [] ==> t.saldoAtual == 0.0
  {
    var totalReceitas := SumBy(receitas, Valor);
    var totalDespesas := SumBy(despesas, Valor);
    Totais(totalReceitas, totalDespesas, SumBy(investimentos, Id), totalReceitas - totalDespesas)
  }

  /** One more income raises the income total and the balance by its
      amount, one more expense lowers the balance by its amount, and one
      more investment raises the invested total without touching the
      balance. */
  lemma {:induction false} TotaisAcompanhamOsRegistros(receitas: seq<Registro>, despesas: seq<Registro>, investimentos: seq<real>,
                                                       r: Registro, v: real)
    ensures var t := CalculateTotals(receitas, despesas, investimentos);
            var t' := CalculateTotals(receitas + [r], despesas, investimentos);
            t'.totalReceitas == t.totalReceitas + r.valor && t'.saldoAtual == t.saldoAtual + r.valor
    ensures CalculateTotals(receitas, despesas + [r], investimentos).saldoAtual
            == CalculateTotals(receitas, despesas, investimentos).saldoAtual - r.valor
    ensures var t := CalculateTotals(receitas, despesas, investimentos);
            var t' := CalculateTotals(receitas, despesas, investimentos + [v]);
            t'.totalInvestimentos == t.totalInvestimentos + v && t'.saldoAtual == t.saldoAtual
  {
    assert (receitas + [r])[..|receitas|] == receitas;
    assert (despesas + [r])[..|despesas|] == despesas;
    assert (investimentos + [v])[..|investimentos|] == investimentos;
  }

  /** Row `i` of the weekday chart: weekday `i`'s name, its bucket of each
      list and their difference, for the seven weekdays Sunday first. */
  predicate SeteLinhas(weekData: seq<Linha>, receitas: seq<Registro>, despesas: seq<Registro>) {
    |weekData| == 7
    && forall i :: 0 <= i < 7 ==>
         weekData[i].name == NomesDosDias[i]
         && weekData[i].receitas == Balde(receitas, DiaDaSemana, Valor, i)
         && weekData[i].despesas == Balde(despesas, DiaDaSemana, Valor, i)
         && weekData[i].saldo == weekData[i].receitas - weekData[i].despesas
  }

  /** `generateDayOfWeekData`: one row per weekday, Sunday first. */
  method GenerateDayOfWeekData(receitas: seq<Registro>, despesas: seq<Registro>) returns (weekData: seq<Linha>)
    ensures SeteLinhas(weekData, receitas, despesas)
  {
    weekData := [];
    var i := 0;
    while i < 7
      invariant 0 <= i <= 7 && |weekData| == i
      invariant forall j :: 0 <= j < i ==>
                  weekData[j].name == NomesDosDias[j]
                  && weekData[j].receitas == Balde(receitas, DiaDaSemana, Valor, j)
                  && weekData[j].despesas == Balde(despesas, DiaDaSemana, Valor, j)
                  && weekData[j].saldo == weekData[j].receitas - weekData[j].despesas
    {
      var dayReceitas := SumBy(Filter(receitas, NoBalde(DiaDaSemana, i)), Valor);
      var dayDespesas := SumBy(Filter(despesas, NoBalde(DiaDaSemana, i)), Valor);
      weekData := weekData + [Linha(NomesDosDias[i], dayReceitas, dayDespesas, dayReceitas - dayDespesas)];
      i := i + 1;
    }
  }

  /** Every record falls on exactly one weekday, so the seven rows add up
      to the totals `calculateTotals` reports. */
  lemma {:induction false} SemanaSomaOsTotais(weekData: seq<Linha>, receitas: seq<Registro>, despesas: seq<Registro>)
    requires SeteLinhas(weekData, receitas, despesas)
    ensures SumBy(weekData, ReceitasDaLinha) == CalculateTotals(receitas, despesas, []).totalReceitas
    ensures SumBy(weekData, DespesasDaLinha) == CalculateTotals(receitas, despesas, []).totalDespesas
    ensures SumBy(weekData, SaldoDaLinha) == CalculateTotals(receitas, despesas, []).saldoAtual
  {
    forall i | 0 <= i < 7 ensures ReceitasDaLinha(weekData[i]) == Balde(receitas, DiaDaSemana, Valor, i) {
    }
    ColunaDaSemana(weekData, ReceitasDaLinha, receitas);
    forall i | 0 <= i < 7 ensures DespesasDaLinha(weekData[i]) == Balde(despesas, DiaDaSemana, Valor, i) {
    }
    ColunaDaSemana(weekData, DespesasDaLinha, despesas);
    SaldosSomam(weekData);
  }

  /** A column of the seven weekday buckets totals the whole list. */
  lemma {:induction false} ColunaDaSemana(weekData: seq<Linha>, f: Linha -> real, s: seq<Registro>)
    requires |weekData| == 7
    requires forall i :: 0 <= i < 7 ==> f(weekData[i]) == Balde(s, DiaDaSemana, Valor, i)
    ensures SumBy(weekData, f) == SumBy(s, Valor)
  {
    DiasDaSemanaNoIntervalo(s);
    BaldesSomamTudo(weekData, f, s, DiaDaSemana, Valor, 0);
  }

  /** Every record falls on one of the seven weekdays. */
  lemma {:induction false} DiasDaSemanaNoIntervalo(s: seq<Registro>)
    ensures forall i :: 0 <= i < |s| ==> 0 <= DiaDaSemana(s[i]) < 7
  {
  }

  lemma {:induction false} SaldosSomam(weekData: seq<Linha>)
    requires forall i :: 0 <= i < |weekData| ==> weekData[i].saldo == weekData[i].receitas - weekData[i].despesas
    ensures SumBy(weekData, SaldoDaLinha) == SumBy(weekData, ReceitasDaLinha) - SumBy(weekData, DespesasDaLinha)
  {
    forall l | l in weekData ensures SaldoDaLinha(l) == DiferencaDaLinha(l) {
      var i :| 0 <= i < |weekData| && weekData[i] == l;
    }
    SumByCongruent(weekData, SaldoDaLinha, DiferencaDaLinha);
    SumByDifference(weekData, ReceitasDaLinha, DespesasDaLinha, DiferencaDaLinha);
  }

  /** The day-of-month row for day `day`: that day's bucket of each list
      and their difference. */
  function LinhaDia(receitas: seq<Registro>, despesas: seq<Registro>, day: int): LinhaDoDia {
    var r := Balde(receitas, DiaDoMes, Valor, day);
    var d := Balde(despesas, DiaDoMes, Valor, day);
    LinhaDoDia(day, r, d, r - d)
  }

  /** `generateDayOfMonthData`: one row per day of today's month, days 1 to
      its length in order. The rows hold exactly the records whose day of
      the month is in that range. */
  method GenerateDayOfMonthData(receitas: seq<Registro>, despesas: seq<Registro>, hoje: Date)
    returns (monthData: seq<LinhaDoDia>)
    ensures |monthData| == MonthLength(MonthIndex(hoje))
    ensures forall j :: 0 <= j < |monthData| ==> monthData[j] == LinhaDia(receitas, despesas, j + 1)
    ensures SumBy(monthData, ReceitasDoDia)
            == SumBy(Filter(receitas, NoIntervalo(DiaDoMes, 1, |monthData| + 1)), Valor)
    ensures SumBy(monthData, DespesasDoDia)
            == SumBy(Filter(despesas, NoIntervalo(DiaDoMes, 1, |monthData| + 1)), Valor)
  {
    monthData := [];
    var daysInMonth := MonthLength(MonthIndex(hoje));
    var day := 1;
    while day <= daysInMonth
      invariant 1 <= day <= daysInMonth + 1 && |monthData| == day - 1
      invariant forall j :: 0 <= j < |monthData| ==> monthData[j] == LinhaDia(receitas, despesas, j + 1)
    {
      var dayReceitas := SumBy(Filter(receitas, NoBalde(DiaDoMes, day)), Valor);
      var dayDespesas := SumBy(Filter(despesas, NoBalde(DiaDoMes, day)), Valor);
      var linha := LinhaDoDia(day, dayReceitas, dayDespesas, dayReceitas - dayDespesas);
      assert linha == LinhaDia(receitas, despesas, day);
      monthData := monthData + [linha];
      day := day + 1;
    }
    DiasSomam(monthData, receitas, despesas);
  }

  lemma {:induction false} DiasSomam(monthData: seq<LinhaDoDia>, receitas: seq<Registro>, despesas: seq<Registro>)
    requires forall j :: 0 <= j < |monthData| ==> monthData[j] == LinhaDia(receitas, despesas, j + 1)
    ensures SumBy(monthData, ReceitasDoDia)
            == SumBy(Filter(receitas, NoIntervalo(DiaDoMes, 1, 1 + |monthData|)), Valor)
    ensures SumBy(monthData, DespesasDoDia)
            == SumBy(Filter(despesas, NoIntervalo(DiaDoMes, 1, 1 + |monthData|)), Valor)
  {
    BaldesSomamIntervalo(monthData, ReceitasDoDia, receitas, DiaDoMes, Valor, 1);
    BaldesSomamIntervalo(monthData, DespesasDoDia, despesas, DiaDoMes, Valor, 1);
  }

  /** When every record is a valid date of today's month, the day rows add
      up to the totals. */
  lemma {:induction false} DiasDoMesSomamOTotal(s: seq<Registro>, hoje: Date)
    requires forall r :: r in s ==> Valid(r.data) && MonthIndex(r.data) == MonthIndex(hoje)
    ensures SumBy(Filter(s, NoIntervalo(DiaDoMes, 1, MonthLength(MonthIndex(hoje)) + 1)), Valor) == SumBy(s, Valor)
  {
    forall r | r in s ensures 1 <= DiaDoMes(r) < MonthLength(MonthIndex(hoje)) + 1 {
      DayInMonthLength(r.data);
    }
    IntervaloCompleto(s, DiaDoMes, Valor, 1, MonthLength(MonthIndex(hoje)) + 1);
  }

  /** The monthly row for month index `mes`: that month's bucket of each
      list and their difference. */
  function LinhaMes(receitas: seq<Registro>, despesas: seq<Registro>, mes: int): LinhaDoMes {
    var r := Balde(receitas, MesDe, Valor, mes);
    var d := Balde(despesas, MesDe, Valor, mes);
    LinhaDoMes(mes, r, d, r - d)
  }

  /** Six rows, for the months `k - 5` .. `k` in order. */
  predicate SeisLinhas(months: seq<LinhaDoMes>, receitas: seq<Registro>, despesas: seq<Registro>, k: int) {
    |months| == 6 && forall j :: 0 <= j < 6 ==> months[j] == LinhaMes(receitas, despesas, k - 5 + j)
  }

  /** `generateMonthlyData`: the six months ending with today's, oldest
      first; a record belongs to the month its date falls in. */
  method GenerateMonthlyData(receitas: seq<Registro>, despesas: seq<Registro>, hoje: Date)
    returns (months: seq<LinhaDoMes>)
    ensures SeisLinhas(months, receitas, despesas, MonthIndex(hoje))
  {
    var k := MonthIndex(hoje);
    months := [];
    var i := 5;
    while i >= 0
      invariant -1 <= i <= 5 && |months| == 5 - i
      invariant forall j :: 0 <= j < |months| ==> months[j] == LinhaMes(receitas, despesas, k - 5 + j)
    {
      var mes := k - i;
      var monthReceitas := SumBy(Filter(receitas, NoBalde(MesDe, mes)), Valor);
      var monthDespesas := SumBy(Filter(despesas, NoBalde(MesDe, mes)), Valor);
      var linha := LinhaDoMes(mes, monthReceitas, monthDespesas, monthReceitas - monthDespesas);
      assert linha == LinhaMes(receitas, despesas, k - 5 + |months|);
      months := months + [linha];
      i := i - 1;
    }
    assert |months| == 6;
  }

  /** The six monthly rows hold exactly the records of those six months. */
  lemma {:induction false} SeisMesesSomam(months: seq<LinhaDoMes>, receitas: seq<Registro>, despesas: seq<Registro>, k: int)
    requires SeisLinhas(months, receitas, despesas, k)
    ensures SumBy(months, ReceitasDoMes) == SumBy(Filter(receitas, NoIntervalo(MesDe, k - 5, k + 1)), Valor)
    ensures SumBy(months, DespesasDoMes) == SumBy(Filter(despesas, NoIntervalo(MesDe, k - 5, k + 1)), Valor)
  {
    forall j | 0 <= j < 6 ensures ReceitasDoMes(months[j]) == Balde(receitas, MesDe, Valor, k - 5 + j) {
      assert months[j] == LinhaMes(receitas, despesas, k - 5 + j);
    }
    ColunaSoma(months, ReceitasDoMes, receitas, k);
    forall j | 0 <= j < 6 ensures DespesasDoMes(months[j]) == Balde(despesas, MesDe, Valor, k - 5 + j) {
      assert months[j] == LinhaMes(receitas, despesas, k - 5 + j);
    }
    ColunaSoma(months, DespesasDoMes, despesas, k);
  }

  /** A column of six monthly buckets totals the records of those months. */
  lemma {:induction false} ColunaSoma(months: seq<LinhaDoMes>, f: LinhaDoMes -> real, s: seq<Registro>, k: int)
    requires |months| == 6
    requires forall j :: 0 <= j < 6 ==> f(months[j]) == Balde(s, MesDe, Valor, k - 5 + j)
    ensures SumBy(months, f) == SumBy(Filter(s, NoIntervalo(MesDe, k - 5, k + 1)), Valor)
  {
    BaldesSomamIntervalo(months, f, s, MesDe, Valor, k - 5);
  }

  const Cores: seq<string> := ["#0088FE", "#00C49F", "#FFBB28", "#FF8042", "#8884D8", "#82CA9D"]

  /** A slice of the category pie (`CategoryData`). */
  datatype Categoria = Categoria(name: string, value: real, color: string)

  function ValorDaCategoria(c: Categoria): real { c.value }

  /** `item.descricao || 'Sem categoria'`: the page groups by description. */
  function CategoriaDe(r: Registro): (c: string)
    ensures c != ""
    ensures r.descricao != "" ==> c == r.descricao
  {
    if r.descricao == "" then "Sem categoria" else r.descricao
  }

  /** The `map` over `Object.entries`: each entry coloured by its position
      before sorting. */
  function Colorir(g: seq<Grupo>): (c: seq<Categoria>)
    ensures |c| == |g|
    ensures forall i :: 0 <= i < |g| ==> c[i] == Categoria(g[i].chave, g[i].valor, Cores[i % 6])
  {
    seq(|g|, i requires 0 <= i < |g| => Categoria(g[i].chave, g[i].valor, Cores[i % |Cores|]))
  }

  /** `s.slice(0, n)`. */
  function Slice<T>(s: seq<T>, n: nat): (r: seq<T>)
    ensures |r| <= n && |r| <= |s|
    ensures r == s[..|r|]
    ensures |s| >= n ==> |r| == n
  {
    if |s| <= n then s else s[..n]
  }

  /** `generateCategoryData`: totals per description, coloured, sorted by
      value with the largest first, and cut to six. */
  method GenerateCategoryData(itens: seq<Registro>) returns (r: seq<Categoria>)
    ensures r == Slice(SortDesc(Colorir(Agrupado(itens, CategoriaDe, Valor)), ValorDaCategoria), 6)
  {
    var categories: seq<Grupo> := [];
    var i := 0;
    while i < |itens|
      invariant 0 <= i <= |itens|
      invariant categories == Agrupado(itens[..i], CategoriaDe, Valor)
    {
      assert itens[..i + 1][..i] == itens[..i];
      categories := Acumular(categories, CategoriaDe(itens[i]), itens[i].valor);
      i := i + 1;
    }
    assert itens[..i] == itens;
    r := Slice(SortDesc(Colorir(categories), ValorDaCategoria), 6);
  }

  /** At most six slices, largest first, and none left out is larger than
      one kept. */
  lemma {:induction false} CategoriasOrdenadas(itens: seq<Registro>)
    ensures var g := Agrupado(itens, CategoriaDe, Valor);
            var ordenadas := SortDesc(Colorir(g), ValorDaCategoria);
            var r := Slice(ordenadas, 6);
            |r| <= 6 && (|g| >= 6 ==> |r| == 6) && (|g| < 6 ==> |r| == |g|)
            && SortedDesc(r, ValorDaCategoria)
            && (forall a, b :: 0 <= a < |r| <= b < |ordenadas| ==> ordenadas[b].value <= r[a].value)
  {
    var g := Agrupado(itens, CategoriaDe, Valor);
    var ordenadas := SortDesc(Colorir(g), ValorDaCategoria);
    SortDescSorted(Colorir(g), ValorDaCategoria);
    var r := Slice(ordenadas, 6);
    assert forall a, b :: 0 <= a < b < |r| ==> r[a] == ordenadas[a] && r[b] == ordenadas[b];
  }

  /** Each slice is a description's total, with the colour of its position
      before sorting, and no description appears twice. */
  lemma {:induction false} CategoriasSomam(itens: seq<Registro>)
    ensures var g := Agrupado(itens, CategoriaDe, Valor);
            var r := Slice(SortDesc(Colorir(g), ValorDaCategoria), 6);
            ChavesDistintas(g)
            && forall x :: x in r ==>
                 exists i :: 0 <= i < |g| && x == Categoria(g[i].chave, g[i].valor, Cores[i % 6])
                             && x.value == SumBy(Filter(itens, ComChave(CategoriaDe, g[i].chave)), Valor)
  {
    var g := Agrupado(itens, CategoriaDe, Valor);
    var c := Colorir(g);
    var ordenadas := SortDesc(c, ValorDaCategoria);
    var r := Slice(ordenadas, 6);
    AgrupadoChaves(itens, CategoriaDe, Valor);
    AgrupadoValores(itens, CategoriaDe, Valor);
    forall x | x in r
      ensures exists i :: 0 <= i < |g| && x == Categoria(g[i].chave, g[i].valor, Cores[i % 6])
                          && x.value == SumBy(Filter(itens, ComChave(CategoriaDe, g[i].chave)), Valor)
    {
      assert x in ordenadas;
      SortDescMembers(c, ValorDaCategoria, x);
      var i :| 0 <= i < |c| && c[i] == x;
      assert x == Categoria(g[i].chave, g[i].valor, Cores[i % 6]);
    }
  }
}
