/** The reports page: the start of the selected period, the totals and the
    fixed amounts, and the monthly and per-category groupings. Today's date
    is a parameter. The two query results are the inputs, already restricted
    to the period and in ascending date order. */
module Relatorios {
  import opened Wrappers
  import opened Calendar
  import opened Text
  import opened Totals
  import opened Sorting
  import opened Agrupamento

  /** The columns the page reads from an income or expense row. */
  datatype Transacao = Transacao(data: Date, valor: real, fixa: bool, categoria: Option<string>)

  function Valor(t: Transacao): real { t.valor }

  predicate Fixa(t: Transacao) { t.fixa }

  predicate NaoFixa(t: Transacao) { !t.fixa }

  function MesDe(t: Transacao): int { MonthIndex(t.data) }

  /** The `switch` on the selected period: the first day of the current
      month, of two or five months back, or of the same month a year back;
      an unknown period falls back to five months back. */
  function DataInicio(periodo: string, hoje: Date): (r: Date)
    ensures Valid(r) && r.day == 1
    ensures periodo == "1mes" ==> MonthIndex(r) == MonthIndex(hoje)
    ensures periodo == "3meses" ==> MonthIndex(r) == MonthIndex(hoje) - 2
    ensures periodo == "1ano" ==> MonthIndex(r) == MonthIndex(hoje) - 12
    ensures periodo != "1mes" && periodo != "3meses" && periodo != "1ano" ==> MonthIndex(r) == MonthIndex(hoje) - 5
  {
    var k := MonthIndex(hoje);
    if periodo == "1mes" then
      NormaliseInRange(k, 1);
      MakeDate(hoje.year, hoje.month0, 1)
    else if periodo == "3meses" then
      NormaliseInRange(k - 2, 1);
      MakeDate(hoje.year, hoje.month0 - 2, 1)
    else if periodo == "6meses" then
      NormaliseInRange(k - 5, 1);
      MakeDate(hoje.year, hoje.month0 - 5, 1)
    else if periodo == "1ano" then
      NormaliseInRange(k - 12, 1);
      MakeDate(hoje.year - 1, hoje.month0, 1)
    else
      NormaliseInRange(k - 5, 1);
      MakeDate(hoje.year, hoje.month0 - 5, 1)
  }

  /** The month key `${getFullYear()}-${String(getMonth() + 1).padStart(2, '0')}`. */
  function ChaveMes(t: Transacao): (k: string)
    ensures 0 <= t.data.month0 < 12 ==>
              |k| >= 4 && k[|k| - 3] == '-'
              && ParseInt(k[..|k| - 3]) == Some(t.data.year)
              && ParseNat(k[|k| - 2..]) == Some(t.data.month0 + 1)
  {
    var ys, ms := IntToString(t.data.year), Pad2(t.data.month0 + 1);
    var k := ys + "-" + ms;
    if 0 <= t.data.month0 < 12 then
      assert k[..|k| - 3] == ys && k[|k| - 2..] == ms;
      ParseIntToString(t.data.year);
      Pad2Parse(t.data.month0 + 1);
      k
    else k
  }

  /** The same key computed from a month index. */
  function ChaveDoIndice(k: int): string {
    IntToString(k / 12) + "-" + Pad2(k % 12 + 1)
  }

  /** Different months never share a key. */
  lemma {:induction false} ChaveDoIndiceInjetiva(a: int, b: int)
    ensures ChaveDoIndice(a) == ChaveDoIndice(b) ==> a == b
  {
    if ChaveDoIndice(a) == ChaveDoIndice(b) {
      var pa, pb := Pad2(a % 12 + 1), Pad2(b % 12 + 1);
      var ya, yb := IntToString(a / 12), IntToString(b / 12);
      var s := ChaveDoIndice(a);
      assert s == ya + "-" + pa;
      assert s == yb + "-" + pb;
      assert |pa| == 2 && |pb| == 2;
      assert pa == s[|s| - 2..] == pb;
      assert ya == s[..|s| - 3] == yb;
      Pad2Parse(a % 12 + 1);
      Pad2Parse(b % 12 + 1);
      ParseIntToString(a / 12);
      ParseIntToString(b / 12);
    }
  }

  /** `agruparPorMes` up to the locale label, which is left out: the month
      keys and their totals. */
  method AgruparPorMes(transacoes: seq<Transacao>) returns (agrupado: seq<Grupo>)
    ensures agrupado == Agrupado(transacoes, ChaveMes, Valor)
  {
    agrupado := [];
    var i := 0;
    while i < |transacoes|
      invariant 0 <= i <= |transacoes|
      invariant agrupado == Agrupado(transacoes[..i], ChaveMes, Valor)
    {
      assert transacoes[..i + 1][..i] == transacoes[..i];
      agrupado := Acumular(agrupado, ChaveMes(transacoes[i]), transacoes[i].valor);
      i := i + 1;
    }
    assert transacoes[..i] == transacoes;
  }

  /** Each month appears once, its total is the total of that month's
      transactions, and the totals add up to the grand total. */
  lemma {:induction false} AgruparPorMesCorreto(transacoes: seq<Transacao>)
    ensures var g := Agrupado(transacoes, ChaveMes, Valor);
            ChavesDistintas(g)
            && SumBy(g, ValorDoGrupo) == SumBy(transacoes, Valor)
            && (forall i :: 0 <= i < |g| ==> g[i].valor == SumBy(Filter(transacoes, ComChave(ChaveMes, g[i].chave)), Valor))
            && (forall t :: t in transacoes ==> ChaveMes(t) in Mapear(g, Chave))
  {
    AgrupadoChaves(transacoes, ChaveMes, Valor);
    AgrupadoValores(transacoes, ChaveMes, Valor);
    var g := Agrupado(transacoes, ChaveMes, Valor);
    forall t | t in transacoes ensures ChaveMes(t) in Mapear(g, Chave) {
      var j :| 0 <= j < |transacoes| && transacoes[j] == t;
      assert Mapear(transacoes, ChaveMes)[j] == ChaveMes(t);
      UnicosMembros(Mapear(transacoes, ChaveMes), ChaveMes(t));
    }
  }

  /** For transactions in ascending date order the month groups come out
      in chronological order: their keys are those of strictly increasing
      month indices. */
  lemma {:induction false} MesesEmOrdemCronologica(transacoes: seq<Transacao>)
    requires forall t :: t in transacoes ==> 0 <= t.data.month0 < 12
    requires forall i, j :: 0 <= i < j < |transacoes| ==> MesDe(transacoes[i]) <= MesDe(transacoes[j])
    ensures var meses := Unicos(Mapear(transacoes, MesDe));
            Mapear(Agrupado(transacoes, ChaveMes, Valor), Chave) == Mapear(meses, ChaveDoIndice)
            && forall i, j :: 0 <= i < j < |meses| ==> meses[i] < meses[j]
  {
    ChaveDoIndiceInjetivaTodas();
    ChavesPorIndice(transacoes);
    ChavesEmOrdem(transacoes, ChaveMes, MesDe, ChaveDoIndice, Valor);
  }

  lemma {:induction false} ChaveDoIndiceInjetivaTodas()
    ensures Injetiva(ChaveDoIndice)
  {
    forall a, b | ChaveDoIndice(a) == ChaveDoIndice(b) ensures a == b {
      ChaveDoIndiceInjetiva(a, b);
    }
  }

  /** For dates with a month in range, the key read off the date is the key
      of its month index. */
  lemma {:induction false} ChavesPorIndice(transacoes: seq<Transacao>)
    requires forall t :: t in transacoes ==> 0 <= t.data.month0 < 12
    ensures Mapear(transacoes, ChaveMes) == Mapear(Mapear(transacoes, MesDe), ChaveDoIndice)
  {
    forall i | 0 <= i < |transacoes|
      ensures Mapear(transacoes, ChaveMes)[i] == Mapear(Mapear(transacoes, MesDe), ChaveDoIndice)[i]
    {
      assert transacoes[i] in transacoes;
      ChaveMesDoIndice(transacoes[i]);
    }
  }

  lemma {:induction false} ChaveMesDoIndice(t: Transacao)
    requires 0 <= t.data.month0 < 12
    ensures ChaveMes(t) == ChaveDoIndice(MesDe(t))
  {
    var k := MesDe(t);
    assert k / 12 == t.data.year && k % 12 == t.data.month0;
  }

  /** `despesa.categoria || 'Sem categoria'`: a missing or empty category. */
  function CategoriaDe(t: Transacao): (c: string)
    ensures c != ""
    ensures t.categoria.Some? && t.categoria.value != "" ==> c == t.categoria.value
  {
    if t.categoria.Some? && t.categoria.value != "" then t.categoria.value else "Sem categoria"
  }

  /** `agruparPorCategoria`: the per-category totals, largest first. */
  method AgruparPorCategoria(despesas: seq<Transacao>) returns (r: seq<Grupo>)
    ensures r == SortDesc(Agrupado(despesas, CategoriaDe, Valor), ValorDoGrupo)
  {
    var agrupado: seq<Grupo> := [];
    var i := 0;
    while i < |despesas|
      invariant 0 <= i <= |despesas|
      invariant agrupado == Agrupado(despesas[..i], CategoriaDe, Valor)
    {
      assert despesas[..i + 1][..i] == despesas[..i];
      agrupado := Acumular(agrupado, CategoriaDe(despesas[i]), despesas[i].valor);
      i := i + 1;
    }
    assert despesas[..i] == despesas;
    r := SortDesc(agrupado, ValorDoGrupo);
  }

  /** The category list is sorted by amount, largest first, holds each
      category once with the total of its expenses, and adds up to the
      expense total. */
  lemma {:induction false} AgruparPorCategoriaCorreto(despesas: seq<Transacao>)
    ensures var g := Agrupado(despesas, CategoriaDe, Valor);
            var r := SortDesc(g, ValorDoGrupo);
            SortedDesc(r, ValorDoGrupo)
            && multiset(r) == multiset(g)
            && ChavesDistintas(g)
            && SumBy(r, ValorDoGrupo) == SumBy(despesas, Valor)
            && (forall x :: x in r ==> x.valor == SumBy(Filter(despesas, ComChave(CategoriaDe, x.chave)), Valor))
            && (forall t :: t in despesas ==> CategoriaDe(t) in Mapear(r, Chave))
  {
    var g := Agrupado(despesas, CategoriaDe, Valor);
    var r := SortDesc(g, ValorDoGrupo);
    SortDescSorted(g, ValorDoGrupo);
    AgrupadoChaves(despesas, CategoriaDe, Valor);
    AgrupadoValores(despesas, CategoriaDe, Valor);
    SumByPermutation(r, g, ValorDoGrupo);
    forall x | x in r ensures x.valor == SumBy(Filter(despesas, ComChave(CategoriaDe, x.chave)), Valor) {
      SortDescMembers(g, ValorDoGrupo, x);
    }
    forall t | t in despesas ensures CategoriaDe(t) in Mapear(r, Chave) {
      CategoriaPresente(despesas, t);
    }
  }

  /** An expense's category has a line in the sorted category list. */
  lemma {:induction false} CategoriaPresente(despesas: seq<Transacao>, t: Transacao)
    requires t in despesas
    ensures CategoriaDe(t) in Mapear(SortDesc(Agrupado(despesas, CategoriaDe, Valor), ValorDoGrupo), Chave)
  {
    var g := Agrupado(despesas, CategoriaDe, Valor);
    ChavePresente(despesas, CategoriaDe, Valor, t);
    ChaveAposOrdenar(g, CategoriaDe(t));
  }

  /** Sorting the groups keeps their keys. */
  lemma {:induction false} ChaveAposOrdenar(g: seq<Grupo>, k: string)
    requires k in Mapear(g, Chave)
    ensures k in Mapear(SortDesc(g, ValorDoGrupo), Chave)
  {
    var r := SortDesc(g, ValorDoGrupo);
    var m :| 0 <= m < |g| && Mapear(g, Chave)[m] == k;
    SortDescMembers(g, ValorDoGrupo, g[m]);
    var i :| 0 <= i < |r| && r[i] == g[m];
    assert Mapear(r, Chave)[i] == k;
  }

  /** What the page keeps in `dados`. */
  datatype RelatorioDados = RelatorioDados(
    totalReceitas: real,
    totalDespesas: real,
    saldo: real,
    receitasPorMes: seq<Grupo>,
    despesasPorMes: seq<Grupo>,
    despesasPorCategoria: seq<Grupo>,
    receitasFixas: real,
    despesasFixas: real)

  /** The body of `fetchDadosRelatorio` after the two queries. */
  method GerarRelatorio(receitas: seq<Transacao>, despesas: seq<Transacao>) returns (dados: RelatorioDados)
    ensures dados.totalReceitas == SumBy(receitas, Valor)
    ensures dados.totalDespesas == SumBy(despesas, Valor)
    ensures dados.saldo == dados.totalReceitas - dados.totalDespesas
    ensures dados.receitasPorMes == Agrupado(receitas, ChaveMes, Valor)
    ensures dados.despesasPorMes == Agrupado(despesas, ChaveMes, Valor)
    ensures dados.despesasPorCategoria == SortDesc(Agrupado(despesas, CategoriaDe, Valor), ValorDoGrupo)
    ensures dados.receitasFixas == SumBy(Filter(receitas, Fixa), Valor)
    ensures dados.despesasFixas == SumBy(Filter(despesas, Fixa), Valor)
    ensures SumBy(dados.receitasPorMes, ValorDoGrupo) == dados.totalReceitas
    ensures SumBy(dados.despesasPorMes, ValorDoGrupo) == dados.totalDespesas
    ensures SumBy(dados.despesasPorCategoria, ValorDoGrupo) == dados.totalDespesas
  {
    var totalReceitas := SumBy(receitas, Valor);
    var totalDespesas := SumBy(despesas, Valor);
    var saldo := totalReceitas - totalDespesas;
    var receitasPorMes := AgruparPorMes(receitas);
    var despesasPorMes := AgruparPorMes(despesas);
    var despesasPorCategoria := AgruparPorCategoria(despesas);
    var receitasFixas := SumBy(Filter(receitas, Fixa), Valor);
    var despesasFixas := SumBy(Filter(despesas, Fixa), Valor);
    AgrupadoChaves(receitas, ChaveMes, Valor);
    AgrupadoChaves(despesas, ChaveMes, Valor);
    AgruparPorCategoriaCorreto(despesas);
    dados := RelatorioDados(totalReceitas, totalDespesas, saldo, receitasPorMes, despesasPorMes,
                            despesasPorCategoria, receitasFixas, despesasFixas);
  }

  /** The "variable" lines (total minus fixed) are the totals over the
      non-fixed transactions, and the margin for variable spending is the
      balance minus the fixed balance. */
  lemma {:induction false} VariaveisSaoNaoFixas(receitas: seq<Transacao>, despesas: seq<Transacao>)
    ensures SumBy(receitas, Valor) - SumBy(Filter(receitas, Fixa), Valor) == SumBy(Filter(receitas, NaoFixa), Valor)
    ensures SumBy(despesas, Valor) - SumBy(Filter(despesas, Fixa), Valor) == SumBy(Filter(despesas, NaoFixa), Valor)
    ensures (SumBy(receitas, Valor) - SumBy(Filter(receitas, Fixa), Valor))
            - (SumBy(despesas, Valor) - SumBy(Filter(despesas, Fixa), Valor))
            == (SumBy(receitas, Valor) - SumBy(despesas, Valor))
               - (SumBy(Filter(receitas, Fixa), Valor) - SumBy(Filter(despesas, Fixa), Valor))
  {
    SumByComplement(receitas, Valor, Fixa, NaoFixa);
    SumByComplement(despesas, Valor, Fixa, NaoFixa);
  }
}
