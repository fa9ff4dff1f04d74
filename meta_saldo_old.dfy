/** The older balance-goal page: the financial summary over all fetched
    rows, the goal form's save, the what-if simulation of one more income
    or expense, and the status a saved simulation records, which repeats
    the gauge's rule. Amounts are `parseFloat` of the number inputs, given
    as reals. */
module MetaSaldoAntigo {
  import opened Wrappers
  import opened Totals
  import opened SaldoGauge

  /** A fetched income or expense row: its `parseFloat(valor)` and `fixa`. */
  datatype Lancamento = Lancamento(valor: real, fixa: bool)

  function ValorDe(l: Lancamento): real { l.valor }

  function EhFixa(l: Lancamento): bool { l.fixa }

  function NaoFixa(l: Lancamento): bool { !l.fixa }

  datatype DadosFinanceiros = DadosFinanceiros(totalReceitas: real, totalDespesas: real, despesasFixas: real, saldoAtual: real)

  /** `fetchDadosFinanceiros`: both totals, the fixed expenses' total and
      the balance between the totals. */
  function FetchDadosFinanceiros(receitas: seq<Lancamento>, despesas: seq<Lancamento>): (d: DadosFinanceiros)
    ensures d.saldoAtual == d.totalReceitas - d.totalDespesas
  {
    var totalReceitas := SumBy(receitas, ValorDe);
    var totalDespesas := SumBy(despesas, ValorDe);
    var despesasFixas := SumBy(Filter(despesas, EhFixa), ValorDe);
    DadosFinanceiros(totalReceitas, totalDespesas, despesasFixas, totalReceitas - totalDespesas)
  }

  /** The fixed expenses and the others split the expense total; with
      non-negative amounts the fixed part lies between 0 and the total. */
  lemma {:induction false} DespesasFixasNoTotal(receitas: seq<Lancamento>, despesas: seq<Lancamento>)
    ensures var d := FetchDadosFinanceiros(receitas, despesas);
            d.despesasFixas + SumBy(Filter(despesas, NaoFixa), ValorDe) == d.totalDespesas
    ensures (forall k :: 0 <= k < |despesas| ==> despesas[k].valor >= 0.0) ==>
              var d := FetchDadosFinanceiros(receitas, despesas);
              0.0 <= d.despesasFixas <= d.totalDespesas
  {
    SumByComplement(despesas, ValorDe, EhFixa, NaoFixa);
    if forall k :: 0 <= k < |despesas| ==> despesas[k].valor >= 0.0 {
      forall x | x in despesas ensures ValorDe(x) >= 0.0 {
        var k :| 0 <= k < |despesas| && despesas[k] == x;
      }
      SumByFilterAtMost(despesas, ValorDe, EhFixa);
      forall x | x in Filter(despesas, EhFixa) ensures ValorDe(x) >= 0.0 {
        FilterMembers(despesas, EhFixa, x);
      }
      SumByNonNegative(Filter(despesas, EhFixa), ValorDe);
    }
  }

  /** One more expense lowers the balance by its amount, one more income
      raises it by its amount. */
  lemma {:induction false} SaldoAcompanhaOsLancamentos(receitas: seq<Lancamento>, despesas: seq<Lancamento>, l: Lancamento)
    ensures FetchDadosFinanceiros(receitas, despesas + [l]).saldoAtual
            == FetchDadosFinanceiros(receitas, despesas).saldoAtual - l.valor
    ensures FetchDadosFinanceiros(receitas + [l], despesas).saldoAtual
            == FetchDadosFinanceiros(receitas, despesas).saldoAtual + l.valor
  {
    assert (despesas + [l])[..|despesas|] == despesas;
    assert (receitas + [l])[..|receitas|] == receitas;
  }

  /** The active goal (`IMetaSaldo`). */
  datatype Meta = Meta(id: string, valorMeta: real, ativa: bool)

  /** What `salvarMeta` writes: the new value on the existing goal, or a
      new active goal for the user. */
  datatype GravacaoMeta = AtualizarMeta(id: string, valorMeta: real) | CriarMeta(userId: string, valorMeta: real, ativa: bool)

  /** `salvarMeta`: nothing without a user or with an empty value. */
  function SalvarMeta(userId: Option<string>, valorMetaTexto: string, valorLido: real, meta: Option<Meta>)
    : (r: Option<GravacaoMeta>)
    ensures r.None? <==> userId.None? || valorMetaTexto == ""
    ensures r.Some? && meta.Some? ==> r.value == AtualizarMeta(meta.value.id, valorLido)
    ensures r.Some? && meta.None? ==> r.value == CriarMeta(userId.value, valorLido, true)
  {
    if userId.None? || valorMetaTexto == "" then None
    else if meta.Some? then Some(AtualizarMeta(meta.value.id, valorLido))
    else Some(CriarMeta(userId.value, valorLido, true))
  }

  datatype Tipo = Receita | Despesa

  /** The simulation form. */
  datatype FormSimulacao = FormSimulacao(valor: string, tipo: Tipo, nome: string)

  datatype ResultadoSimulacao = ResultadoSimulacao(saldoSimulado: real, valorComSinal: real)

  /** `calcularSimulacao`: nothing for an empty value; otherwise the value,
      negated for an expense, added to the current balance. */
  function CalcularSimulacao(saldoAtual: real, form: FormSimulacao, valorLido: real): (r: Option<ResultadoSimulacao>)
    ensures r.None? <==> form.valor == ""
    ensures r.Some? ==> r.value.saldoSimulado == saldoAtual + r.value.valorComSinal
    ensures r.Some? && form.tipo == Receita ==> r.value.valorComSinal == valorLido
    ensures r.Some? && form.tipo == Despesa ==> r.value.valorComSinal == -valorLido
  {
    if form.valor == "" then None
    else
      var valorComSinal := if form.tipo == Receita then valorLido else -valorLido;
      Some(ResultadoSimulacao(saldoAtual + valorComSinal, valorComSinal))
  }

  /** An income and an expense of the same non-negative amount land
      symmetrically around the current balance, the income never lower, and
      the income's status is never worse than the expense's. */
  lemma {:induction false} SimulacoesSimetricas(saldoAtual: real, valor: string, nome: string, valorLido: real, meta: real)
    requires valor != "" && valorLido >= 0.0
    ensures var r := CalcularSimulacao(saldoAtual, FormSimulacao(valor, Receita, nome), valorLido).value;
            var d := CalcularSimulacao(saldoAtual, FormSimulacao(valor, Despesa, nome), valorLido).value;
            r.saldoSimulado + d.saldoSimulado == 2.0 * saldoAtual
            && d.saldoSimulado <= saldoAtual <= r.saldoSimulado
            && Nivel(StatusDaSimulacao(d.saldoSimulado, meta)) <= Nivel(StatusDaSimulacao(r.saldoSimulado, meta))
  {
    var r := CalcularSimulacao(saldoAtual, FormSimulacao(valor, Receita, nome), valorLido).value;
    var d := CalcularSimulacao(saldoAtual, FormSimulacao(valor, Despesa, nome), valorLido).value;
    MesmaRegraDoMedidor(d.saldoSimulado, meta);
    MesmaRegraDoMedidor(r.saldoSimulado, meta);
    StatusMonotone(d.saldoSimulado, r.saldoSimulado, meta);
  }

  /** The status chosen in `salvarSimulacao`. */
  function StatusDaSimulacao(saldoSimulado: real, valorMeta: real): (s: Status)
    ensures s == Excedido <==> saldoSimulado < valorMeta
    ensures s == Confortavel <==> 10.0 * saldoSimulado > 11.0 * valorMeta && saldoSimulado >= valorMeta
  {
    if saldoSimulado < valorMeta then Excedido
    else if saldoSimulado <= valorMeta * 1.1 then Proximo
    else Confortavel
  }

  /** The page's rule is the gauge's `getStatus`. */
  lemma {:induction false} MesmaRegraDoMedidor(saldo: real, meta: real)
    ensures StatusDaSimulacao(saldo, meta) == GetStatus(saldo, meta)
  {
  }

  /** The `simulacoes` row `salvarSimulacao` inserts. */
  datatype Insercao = Insercao(
    userId: string,
    nome: string,
    valorSimulacao: real,
    tipo: Tipo,
    saldoResultante: real,
    statusMeta: Status)

  /** `salvarSimulacao`: nothing without a user, a name, a value or an
      active goal; otherwise the simulation with its resulting balance and
      that balance's status against the goal. */
  function SalvarSimulacao(userId: Option<string>, form: FormSimulacao, valorLido: real, meta: Option<Meta>,
                           dados: DadosFinanceiros): (r: Option<Insercao>)
    ensures r.None? <==> userId.None? || form.nome == "" || form.valor == "" || meta.None?
    ensures r.Some? ==>
              r.value.userId == userId.value && r.value.nome == form.nome && r.value.tipo == form.tipo
              && r.value.valorSimulacao == valorLido
              && r.value.saldoResultante == dados.saldoAtual + (if form.tipo == Receita then valorLido else -valorLido)
              && r.value.statusMeta == GetStatus(r.value.saldoResultante, meta.value.valorMeta)
  {
    if userId.None? || form.nome == "" || form.valor == "" || meta.None? then None
    else
      match CalcularSimulacao(dados.saldoAtual, form, valorLido)
      case None => None
      case Some(resultado) =>
        var saldoSimulado := resultado.saldoSimulado;
        var status := StatusDaSimulacao(saldoSimulado, meta.value.valorMeta);
        MesmaRegraDoMedidor(saldoSimulado, meta.value.valorMeta);
        Some(Insercao(userId.value, form.nome, valorLido, form.tipo, saldoSimulado, status))
  }

  /** The status stored with a simulation is the one the gauge shows for
      the simulated balance against the same goal. */
  lemma {:induction false} StatusGravadoEhODoMedidor(userId: Option<string>, form: FormSimulacao, valorLido: real,
                                                   meta: Option<Meta>, dados: DadosFinanceiros)
    requires SalvarSimulacao(userId, form, valorLido, meta, dados).Some?
    ensures var r := SalvarSimulacao(userId, form, valorLido, meta, dados).value;
            var s := CalcularSimulacao(dados.saldoAtual, form, valorLido);
            s.Some?
            && r.statusMeta == GetStatus(SaldoParaAnalise(dados.saldoAtual, Some(s.value.saldoSimulado)), meta.value.valorMeta)
  {
  }
}
