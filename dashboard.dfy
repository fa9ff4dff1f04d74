/** The monthly expense view shared by the dashboard and its older version:
    the month's one-off expenses plus one virtual occurrence of every
    installment purchase whose installment window covers the month, sorted
    by date (latest first), then reshaped for display and totalled. */
module Dashboard {
  import opened Wrappers
  import opened Text
  import opened Calendar
  import opened Currency
  import opened Totals
  import opened Sorting
  import opened Records

  /** `despesa.total_parcelas && despesa.data`: a non-zero installment count and a start date. */
  predicate Projectable(d: Despesa) {
    d.totalParcelas.Some? && d.totalParcelas.value != 0 && d.data.Some?
  }

  /** `${id}_parcela_${k}`. */
  function ParcelaId(id: string, k: nat): string {
    id + "_parcela_" + NatToString(k)
  }

  /** `${descricao} (${k}/${n})`. */
  function ParcelaDescricao(descricao: string, k: int, n: int): string {
    descricao + " (" + IntToString(k) + "/" + IntToString(n) + ")"
  }

  /** The virtual occurrence of installment purchase `d` in the month of
      `mesReferencia`, if that month is one of its installment months. */
  function Occurrence(d: Despesa, mesReferencia: Date): (r: Option<Despesa>)
    ensures r.Some? <==>
              Projectable(d)
              && MonthIndex(d.data.value) <= MonthIndex(mesReferencia) < MonthIndex(d.data.value) + d.totalParcelas.value
    ensures r.Some? ==>
              r.value.parcelaAtual.Some? && 1 <= r.value.parcelaAtual.value <= d.totalParcelas.value
              && r.value.(id := d.id, valor := d.valor, data := d.data, descricao := d.descricao,
                          parcelaAtual := d.parcelaAtual) == d
    ensures r.Some? ==>
              r.value.valor == CalculateParcelaValue(d.valor, d.totalParcelas.value)
              && r.value.parcelaAtual == Some(MonthIndex(mesReferencia) - MonthIndex(d.data.value) + 1)
              && r.value.id == ParcelaId(d.id, MonthIndex(mesReferencia) - MonthIndex(d.data.value) + 1)
              && r.value.descricao == ParcelaDescricao(d.descricao, MonthIndex(mesReferencia) - MonthIndex(d.data.value) + 1, d.totalParcelas.value)
  {
    if !Projectable(d) then None
    else
      var dataInicial := d.data.value;
      var totalParcelas := d.totalParcelas.value;
      var valorParcela := CalculateParcelaValue(d.valor, totalParcelas);
      var mesesDiferenca := GetMonthsDifference(dataInicial, mesReferencia);
      if 0 <= mesesDiferenca < totalParcelas then
        var parcelaAtual := mesesDiferenca + 1;
        var dataParcela := MakeDate(dataInicial.year, dataInicial.month0 + mesesDiferenca, dataInicial.day);
        Some(d.(id := ParcelaId(d.id, parcelaAtual),
                valor := valorParcela,
                data := Some(dataParcela),
                descricao := ParcelaDescricao(d.descricao, parcelaAtual, totalParcelas),
                parcelaAtual := Some(parcelaAtual)))
      else None
  }

  /** Installment `j` of `n` falls in the month `j - 1` months after the start
      month, carrying number `j`, the `j`-suffixed id and the rounded share. */
  lemma {:induction false} OccurrenceOfEachInstallment(d: Despesa, j: int)
    requires Projectable(d) && 1 <= j <= d.totalParcelas.value
    ensures var ref := DateAt(MonthIndex(d.data.value) + j - 1, 1);
            var o := Occurrence(d, ref);
            o.Some? && o.value.parcelaAtual == Some(j) && o.value.id == ParcelaId(d.id, j)
            && o.value.descricao == ParcelaDescricao(d.descricao, j, d.totalParcelas.value)
            && o.value.valor == CalculateParcelaValue(d.valor, d.totalParcelas.value)
  {
  }

  /** The installment number determines the month: two months showing the
      same installment of a purchase are the same month. */
  lemma {:induction false} InstallmentNumberDeterminesMonth(d: Despesa, ref1: Date, ref2: Date)
    requires Occurrence(d, ref1).Some? && Occurrence(d, ref2).Some?
    requires Occurrence(d, ref1).value.parcelaAtual == Occurrence(d, ref2).value.parcelaAtual
    ensures MonthIndex(ref1) == MonthIndex(ref2)
  {
  }

  /** Different installments of one purchase never share an id. */
  lemma {:induction false} ParcelaIdInjective(id: string, a: nat, b: nat)
    ensures ParcelaId(id, a) == ParcelaId(id, b) ==> a == b
  {
    var p := id + "_parcela_";
    if ParcelaId(id, a) == ParcelaId(id, b) {
      assert (p + NatToString(a))[|p|..] == NatToString(a);
      assert (p + NatToString(b))[|p|..] == NatToString(b);
      NatToStringInjective(a, b);
    }
  }

  /** The occurrence is dated on the start day in the reference month, or,
      when the reference month is too short for that day, in the month after. */
  lemma {:induction false} OccurrenceDate(d: Despesa, mesReferencia: Date)
    requires Occurrence(d, mesReferencia).Some? && Valid(d.data.value)
    ensures var o := Occurrence(d, mesReferencia).value;
            var inicio := d.data.value;
            var m := MonthIndex(mesReferencia);
            o.data.Some?
            && (inicio.day <= MonthLength(m) ==> MonthIndex(o.data.value) == m && o.data.value.day == inicio.day)
            && (inicio.day > MonthLength(m) ==> MonthIndex(o.data.value) == m + 1 && o.data.value.day == inicio.day - MonthLength(m))
  {
    var inicio := d.data.value;
    var k := GetMonthsDifference(inicio, mesReferencia);
    assert Occurrence(d, mesReferencia).value.data == Some(MakeDate(inicio.year, inicio.month0 + k, inicio.day));
    var t := MonthIndex(inicio) + k;
    assert inicio.year * 12 + (inicio.month0 + k) == t;
    if inicio.day <= MonthLength(t) {
      NormaliseInRange(t, inicio.day);
    } else {
      NormaliseForward(t, inicio.day);
    }
  }

  /** The occurrences of a list of purchases for one month, in list order. */
  function Occurrences(parceladas: seq<Despesa>, mesReferencia: Date): (r: seq<Despesa>)
    ensures |r| <= |parceladas|
  {
    if parceladas == [] then []
    else
      var last := parceladas[|parceladas| - 1];
      Occurrences(parceladas[..|parceladas| - 1], mesReferencia)
      + (match Occurrence(last, mesReferencia) case Some(o) => [o] case None => [])
  }

  predicate HasOccurrence(mesReferencia: Date, d: Despesa) {
    Occurrence(d, mesReferencia).Some?
  }

  /** The `filter` test: the purchase has an occurrence in the month. */
  function EmJanela(mesReferencia: Date): Despesa -> bool {
    d => HasOccurrence(mesReferencia, d)
  }

  /** One occurrence per purchase whose window covers the month, none for the rest. */
  lemma {:induction false} OccurrencesCount(parceladas: seq<Despesa>, mesReferencia: Date)
    ensures |Occurrences(parceladas, mesReferencia)| == |Filter(parceladas, EmJanela(mesReferencia))|
    decreases |parceladas|
  {
    if parceladas != [] {
      OccurrencesCount(parceladas[..|parceladas| - 1], mesReferencia);
    }
  }

  /** Every occurrence comes from one of the purchases and keeps its flags. */
  lemma {:induction false} OccurrencesFrom(parceladas: seq<Despesa>, mesReferencia: Date, x: Despesa)
    requires x in Occurrences(parceladas, mesReferencia)
    ensures exists p :: p in parceladas && Occurrence(p, mesReferencia) == Some(x)
    ensures exists p :: p in parceladas && x.parcelado == p.parcelado && x.fixa == p.fixa
    decreases |parceladas|
  {
    var init := parceladas[..|parceladas| - 1];
    var last := parceladas[|parceladas| - 1];
    if x in Occurrences(init, mesReferencia) {
      OccurrencesFrom(init, mesReferencia, x);
      var p :| p in init && Occurrence(p, mesReferencia) == Some(x);
      assert p in parceladas;
    } else {
      assert Occurrence(last, mesReferencia) == Some(x);
    }
  }

  /** `new Date(d.data).getTime()`, the sort key, in days. A record without a
      date does not reach the sort (see the query's date filter and the
      `despesa.data` guard); it is given day 0 for totality. */
  function DataKey(d: Despesa): real {
    match d.data
    case Some(t) => DayNumber(t) as real
    case None => 0.0
  }

  /** `processarDespesasDoMes(mesReferencia)` with the two query results as
      inputs: the month's one-off expenses, then one occurrence per
      installment purchase in window, sorted latest first. */
  method ProcessarDespesasDoMes(naoParceladas: seq<Despesa>, parceladas: seq<Despesa>, mesReferencia: Date)
    returns (r: seq<Despesa>)
    ensures r == SortDesc(naoParceladas + Occurrences(parceladas, mesReferencia), DataKey)
    ensures multiset(r) == multiset(naoParceladas + Occurrences(parceladas, mesReferencia))
    ensures SortedDesc(r, DataKey)
    ensures |r| == |naoParceladas| + |Filter(parceladas, EmJanela(mesReferencia))|
    ensures forall i :: 0 <= i < |naoParceladas| ==> naoParceladas[i] in r
  {
    var despesasFinais := naoParceladas;
    for i := 0 to |parceladas|
      invariant despesasFinais == naoParceladas + Occurrences(parceladas[..i], mesReferencia)
    {
      OccurrencesPasso(parceladas, i, mesReferencia);
      match Occurrence(parceladas[i], mesReferencia) {
        case Some(parcela) => despesasFinais := despesasFinais + [parcela];
        case None =>
      }
    }
    assert parceladas[..|parceladas|] == parceladas;
    r := SortDesc(despesasFinais, DataKey);
    ProcessadasOrdenadas(naoParceladas, parceladas, mesReferencia);
  }

  /** One more purchase adds its occurrence, if any, at the end. */
  lemma {:induction false} OccurrencesPasso(parceladas: seq<Despesa>, i: nat, mesReferencia: Date)
    requires i < |parceladas|
    ensures Occurrences(parceladas[..i + 1], mesReferencia)
            == Occurrences(parceladas[..i], mesReferencia)
               + (match Occurrence(parceladas[i], mesReferencia) case Some(o) => [o] case None => [])
  {
    assert parceladas[..i + 1][..i] == parceladas[..i];
  }

  /** The processed month is a latest-first permutation of the one-off
      expenses and the occurrences, one occurrence per purchase in window,
      and keeps every one-off expense. */
  lemma {:induction false} ProcessadasOrdenadas(naoParceladas: seq<Despesa>, parceladas: seq<Despesa>, mesReferencia: Date)
    ensures var todas := naoParceladas + Occurrences(parceladas, mesReferencia);
            var r := SortDesc(todas, DataKey);
            multiset(r) == multiset(todas)
            && SortedDesc(r, DataKey)
            && |r| == |naoParceladas| + |Filter(parceladas, EmJanela(mesReferencia))|
            && forall i :: 0 <= i < |naoParceladas| ==> naoParceladas[i] in r
  {
    var todas := naoParceladas + Occurrences(parceladas, mesReferencia);
    SortDescSorted(todas, DataKey);
    OccurrencesCount(parceladas, mesReferencia);
    forall i | 0 <= i < |naoParceladas| ensures naoParceladas[i] in SortDesc(todas, DataKey) {
      SortDescMembers(todas, DataKey, naoParceladas[i]);
    }
  }

  /** The display row (`DespesaMes`). */
  datatype DespesaMes = DespesaMes(
    id: string,
    descricao: string,
    valor: real,
    data: Option<Date>,
    categoria: string,
    fixa: bool,
    parcelado: bool,
    parcelaAtual: Option<int>,
    totalParcelas: Option<int>,
    valorParcela: Option<real>)

  /** The `fetchDespesasMes` mapping of one processed expense. */
  function ToDespesaMes(d: Despesa): (m: DespesaMes)
    ensures m.categoria != ""
    ensures d.categoria.Some? && d.categoria.value != "" ==> m.categoria == d.categoria.value
    ensures m.valorParcela.Some? <==> d.parcelado
    ensures m.valorParcela.Some? ==> m.valorParcela.value == m.valor
    ensures d.categoria.None? || d.categoria.value == "" ==> m.categoria == "Geral"
    ensures m.valor == d.valor && m.fixa == d.fixa && m.parcelado == d.parcelado
    ensures m.id == d.id && m.descricao == d.descricao && m.data == d.data
    ensures m.parcelaAtual == d.parcelaAtual && m.totalParcelas == d.totalParcelas
  {
    DespesaMes(
      d.id, d.descricao, d.valor, d.data,
      if d.categoria.Some? && d.categoria.value != "" then d.categoria.value else "Geral",
      d.fixa, d.parcelado, d.parcelaAtual, d.totalParcelas,
      if d.parcelado then Some(d.valor) else None)
  }

  function FormatDespesasMes(ds: seq<Despesa>): (ms: seq<DespesaMes>)
    ensures |ms| == |ds|
    ensures forall i :: 0 <= i < |ds| ==> ms[i] == ToDespesaMes(ds[i])
  {
    if ds == [] then [] else FormatDespesasMes(ds[..|ds| - 1]) + [ToDespesaMes(ds[|ds| - 1])]
  }

  function MesValor(m: DespesaMes): real { m.valor }
  predicate MesFixa(m: DespesaMes) { m.fixa }
  predicate MesParcelado(m: DespesaMes) { m.parcelado }

  /** Reshaping for display keeps every amount, and the flags the subtotals filter on. */
  lemma {:induction false} FormatKeepsSubtotals(ds: seq<Despesa>)
    ensures SumBy(FormatDespesasMes(ds), MesValor) == SumBy(ds, DespesaValor)
    ensures SumBy(Filter(FormatDespesasMes(ds), MesFixa), MesValor) == SumBy(Filter(ds, IsFixa), DespesaValor)
    ensures SumBy(Filter(FormatDespesasMes(ds), MesParcelado), MesValor) == SumBy(Filter(ds, IsParcelado), DespesaValor)
  {
    var ms := FormatDespesasMes(ds);
    var all := (d: Despesa) => true;
    var allMes := (m: DespesaMes) => true;
    SumByFilterMapped(ds, ms, ToDespesaMes, all, allMes, DespesaValor, MesValor);
    SumByFilterMapped(ds, ms, ToDespesaMes, IsFixa, MesFixa, DespesaValor, MesValor);
    SumByFilterMapped(ds, ms, ToDespesaMes, IsParcelado, MesParcelado, DespesaValor, MesValor);
    FilterAll(ds, all);
    FilterAll(ms, allMes);
  }

  /** The installment subtotal of the merged list is the occurrences' total. */
  lemma {:induction false} ParcelasOfMerged(naoParceladas: seq<Despesa>, parceladas: seq<Despesa>, mesReferencia: Date)
    requires forall d :: d in naoParceladas ==> !d.parcelado
    requires forall d :: d in parceladas ==> d.parcelado
    ensures var occs := Occurrences(parceladas, mesReferencia);
            Filter(naoParceladas + occs, IsParcelado) == occs
  {
    var occs := Occurrences(parceladas, mesReferencia);
    FilterAppend(naoParceladas, occs, IsParcelado);
    FilterNone(naoParceladas, IsParcelado);
    forall x | x in occs ensures IsParcelado(x) {
      OccurrencesFrom(parceladas, mesReferencia, x);
    }
    FilterAll(occs, IsParcelado);
  }

  /** The "Total de Despesas" and "Parcelas" cards of the month view: the
      total is the one-off expenses plus the occurrences, and the
      installment card shows exactly the occurrences (the one-off query
      asks for `parcelado = false`, the installment query for `true`). */
  lemma {:induction false} MonthCards(naoParceladas: seq<Despesa>, parceladas: seq<Despesa>, mesReferencia: Date, r: seq<Despesa>)
    requires forall d :: d in naoParceladas ==> !d.parcelado
    requires forall d :: d in parceladas ==> d.parcelado
    requires multiset(r) == multiset(naoParceladas + Occurrences(parceladas, mesReferencia))
    ensures var ms := FormatDespesasMes(r);
            var occ := SumBy(Occurrences(parceladas, mesReferencia), DespesaValor);
            SumBy(ms, MesValor) == SumBy(naoParceladas, DespesaValor) + occ
            && SumBy(Filter(ms, MesParcelado), MesValor) == occ
  {
    var occs := Occurrences(parceladas, mesReferencia);
    var merged := naoParceladas + occs;
    FormatKeepsSubtotals(r);
    SumByPermutation(r, merged, DespesaValor);
    SumByAppend(naoParceladas, occs, DespesaValor);
    FilterPermutation(r, merged, IsParcelado);
    SumByPermutation(Filter(r, IsParcelado), Filter(merged, IsParcelado), DespesaValor);
    ParcelasOfMerged(naoParceladas, parceladas, mesReferencia);
  }

  /** With non-negative amounts the "Despesas Fixas" and "Parcelas" cards
      never exceed "Total de Despesas". */
  lemma {:induction false} SubtotalsAtMostTotal(ms: seq<DespesaMes>)
    requires forall m :: m in ms ==> m.valor >= 0.0
    ensures SumBy(Filter(ms, MesFixa), MesValor) <= SumBy(ms, MesValor)
    ensures SumBy(Filter(ms, MesParcelado), MesValor) <= SumBy(ms, MesValor)
  {
    SumByFilterAtMost(ms, MesValor, MesFixa);
    SumByFilterAtMost(ms, MesValor, MesParcelado);
  }

  /** `saldo = totalReceitas - totalDespesas` over the processed month. */
  function Saldo(receitas: seq<Receita>, despesas: seq<Despesa>): (s: real)
    ensures despesas == [] ==> s == SumBy(receitas, ReceitaValor)
    ensures (forall x :: x in despesas ==> DespesaValor(x) >= 0.0) ==> s <= SumBy(receitas, ReceitaValor)
  {
    if forall x :: x in despesas ==> DespesaValor(x) >= 0.0 then
      SumByNonNegative(despesas, DespesaValor);
      SumBy(receitas, ReceitaValor) - SumBy(despesas, DespesaValor)
    else SumBy(receitas, ReceitaValor) - SumBy(despesas, DespesaValor)
  }

  /** The month's balance is income minus the one-off expenses minus the
      installments falling in the month, whatever the sort order. */
  lemma {:induction false} SaldoOfMonth(receitas: seq<Receita>, naoParceladas: seq<Despesa>, parceladas: seq<Despesa>,
                     mesReferencia: Date, r: seq<Despesa>)
    requires multiset(r) == multiset(naoParceladas + Occurrences(parceladas, mesReferencia))
    ensures Saldo(receitas, r)
            == SumBy(receitas, ReceitaValor) - SumBy(naoParceladas, DespesaValor)
               - SumBy(Occurrences(parceladas, mesReferencia), DespesaValor)
  {
    var occs := Occurrences(parceladas, mesReferencia);
    SumByPermutation(r, naoParceladas + occs, DespesaValor);
    SumByAppend(naoParceladas, occs, DespesaValor);
  }
}
