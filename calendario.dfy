/** The balance calendar: a 42-cell month grid whose current-month cells
    carry the projected balance of that day (fixed income minus fixed
    expenses, minus every simulated spending scheduled on or before the
    day), the balance as a percentage of fixed income and a five-way status;
    and the list of simulated spendings it is computed from. */
module Calendario {
  import opened Wrappers
  import opened Calendar
  import opened Totals

  datatype DadosFinanceiros = DadosFinanceiros(receitasFixas: real, despesasFixas: real, saldoInicial: real)

  function Identity(x: real): real { x }

  /** The month's fixed figures from the `valor` columns of the two queries:
      `saldoInicial = receitasFixas - despesasFixas`. */
  function DadosDoMes(receitasValores: seq<real>, despesasValores: seq<real>): (r: DadosFinanceiros)
    ensures r.saldoInicial == r.receitasFixas - r.despesasFixas
    ensures r.receitasFixas == SumBy(receitasValores, Identity)
    ensures r.despesasFixas == SumBy(despesasValores, Identity)
  {
    var receitasFixas := SumBy(receitasValores, Identity);
    var despesasFixas := SumBy(despesasValores, Identity);
    DadosFinanceiros(receitasFixas, despesasFixas, receitasFixas - despesasFixas)
  }

  datatype SimulacaoGasto = SimulacaoGasto(id: string, valor: real, descricao: string, dia: int)

  function SimulacaoValor(s: SimulacaoGasto): real { s.valor }

  /** What `adicionarSimulacao` lets into the list: strictly positive amounts. */
  predicate AllPositive(simulacoes: seq<SimulacaoGasto>) {
    forall i :: 0 <= i < |simulacoes| ==> simulacoes[i].valor > 0.0
  }

  /** `s => s.dia <= dia`. */
  function NoDiaOuAntes(dia: int): SimulacaoGasto -> bool {
    (s: SimulacaoGasto) => s.dia <= dia
  }

  /** The simulated spending scheduled on or before day `dia`. */
  function SimulacoesAte(simulacoes: seq<SimulacaoGasto>, dia: int): real {
    SumBy(Filter(simulacoes, NoDiaOuAntes(dia)), SimulacaoValor)
  }

  /** The balance projected for day `dia`. */
  function SaldoDia(dados: DadosFinanceiros, simulacoes: seq<SimulacaoGasto>, dia: int): (s: real)
    ensures AllPositive(simulacoes) ==> s <= dados.saldoInicial
    ensures simulacoes == [] ==> s == dados.saldoInicial
  {
    if AllPositive(simulacoes) then
      SimulacoesNaoNegativas(simulacoes, dia);
      dados.saldoInicial - SimulacoesAte(simulacoes, dia)
    else dados.saldoInicial - SimulacoesAte(simulacoes, dia)
  }

  /** Positive simulations never add to the balance: their sum, in all and
      up to any day, is at least zero. */
  lemma {:induction false} SimulacoesNaoNegativas(simulacoes: seq<SimulacaoGasto>, dia: int)
    requires AllPositive(simulacoes)
    ensures SumBy(simulacoes, SimulacaoValor) >= 0.0
    ensures SimulacoesAte(simulacoes, dia) >= 0.0
  {
    forall x | x in simulacoes ensures SimulacaoValor(x) >= 0.0 {
      var i :| 0 <= i < |simulacoes| && simulacoes[i] == x;
    }
    SumByNonNegative(simulacoes, SimulacaoValor);
    forall x | x in Filter(simulacoes, NoDiaOuAntes(dia)) ensures SimulacaoValor(x) >= 0.0 {
      FilterMembers(simulacoes, NoDiaOuAntes(dia), x);
    }
    SumByNonNegative(Filter(simulacoes, NoDiaOuAntes(dia)), SimulacaoValor);
  }

  /** With positive simulated amounts the projected balance never rises from one day to a later one. */
  lemma {:induction false} SaldoNonIncreasing(dados: DadosFinanceiros, simulacoes: seq<SimulacaoGasto>, d1: int, d2: int)
    requires AllPositive(simulacoes) && d1 <= d2
    ensures SaldoDia(dados, simulacoes, d2) <= SaldoDia(dados, simulacoes, d1)
  {
    forall x | x in simulacoes ensures SimulacaoValor(x) >= 0.0 {
      var i :| 0 <= i < |simulacoes| && simulacoes[i] == x;
    }
    SumByFilterMonotone(simulacoes, SimulacaoValor, NoDiaOuAntes(d1), NoDiaOuAntes(d2));
  }

  /** `saldoDia / receitasFixas * 100`, or 0 without positive fixed income. */
  function PercentualEconomia(saldo: real, receitasFixas: real): (r: real)
    ensures receitasFixas > 0.0 ==> r * receitasFixas == saldo * 100.0
    ensures receitasFixas <= 0.0 ==> r == 0.0
  {
    if receitasFixas > 0.0 then (saldo / receitasFixas) * 100.0 else 0.0
  }

  /** A positive fixed income turns a lower balance into a lower percentage. */
  lemma {:induction false} PercentualMonotone(s1: real, s2: real, receitasFixas: real)
    requires s1 <= s2
    ensures receitasFixas > 0.0 ==> PercentualEconomia(s1, receitasFixas) <= PercentualEconomia(s2, receitasFixas)
  {
    if receitasFixas > 0.0 {
      var p1 := PercentualEconomia(s1, receitasFixas);
      var p2 := PercentualEconomia(s2, receitasFixas);
      assert (p2 - p1) * receitasFixas == (s2 - s1) * 100.0;
    }
  }

  datatype Status = Excelente | Bom | Atencao | Critico | Perigo

  /** The severity order of the statuses, from `excelente` (0) to `perigo` (4). */
  function Severity(s: Status): int {
    match s
    case Excelente => 0
    case Bom => 1
    case Atencao => 2
    case Critico => 3
    case Perigo => 4
  }

  /** The day's status from its savings percentage: thresholds 30, 0, -30 and -50. */
  function StatusOf(p: real): (s: Status)
    ensures s == Excelente <==> p >= 30.0
    ensures s == Bom <==> 0.0 <= p < 30.0
    ensures s == Atencao <==> -30.0 <= p < 0.0
    ensures s == Critico <==> -50.0 <= p < -30.0
    ensures s == Perigo <==> p < -50.0
  {
    if p >= 30.0 then Excelente
    else if p >= 0.0 then Bom
    else if p >= -30.0 then Atencao
    else if p >= -50.0 then Critico
    else Perigo
  }

  /** A higher percentage never has a more severe status. */
  lemma {:induction false} StatusMonotone(p: real, q: real)
    requires p <= q
    ensures Severity(StatusOf(q)) <= Severity(StatusOf(p))
  {
  }

  datatype DiaCalendario = DiaCalendario(
    dia: int, saldo: real, percentualEconomia: real, status: Status, isToday: bool, isCurrentMonth: bool)

  /** A cell of the neighbouring months: only the day number is shown. */
  function Padding(dia: int): DiaCalendario {
    DiaCalendario(dia, 0.0, 0.0, Atencao, false, false)
  }

  /** The cell of day `dia` of the shown month. */
  function DiaDoMes(dados: DadosFinanceiros, simulacoes: seq<SimulacaoGasto>, dia: int, isToday: bool): DiaCalendario {
    var saldoDia := SaldoDia(dados, simulacoes, dia);
    var percentual := PercentualEconomia(saldoDia, dados.receitasFixas);
    DiaCalendario(dia, saldoDia, percentual, StatusOf(percentual), isToday, true)
  }

  /** The flags of a grid laid out as `calcularCalendario` lays it out: only
      the month's cells are marked current, and at most one cell is today. */
  lemma {:induction false} GridFlags(dias: seq<DiaCalendario>, k: int, lead: int, n: int,
                  dados: DadosFinanceiros, simulacoes: seq<SimulacaoGasto>, hoje: Date)
    requires Grade(dias, k, lead, n, dados, simulacoes, hoje)
    ensures forall j :: 0 <= j < |dias| ==> (dias[j].isCurrentMonth <==> lead <= j < lead + n)
    ensures forall i, j :: 0 <= i < j < |dias| && dias[i].isToday ==> !dias[j].isToday
  {
    forall j | 0 <= j < |dias| ensures dias[j].isCurrentMonth <==> lead <= j < lead + n {
      if j < lead {
        assert dias[j] == Padding(MonthLength(k - 1) - lead + 1 + j);
      } else if j < lead + n {
        var e := j - lead + 1;
        assert dias[lead + e - 1] == DiaDoMes(dados, simulacoes, e, DateAt(k, e) == hoje);
      } else {
        assert dias[j] == Padding(j - lead - n + 1);
      }
    }
    forall j | 0 <= j < |dias| && !(lead <= j < lead + n) ensures !dias[j].isToday {
      if j < lead {
        assert dias[j] == Padding(MonthLength(k - 1) - lead + 1 + j);
      } else {
        assert dias[j] == Padding(j - lead - n + 1);
      }
    }
    forall j | lead <= j < lead + n ensures dias[j].isToday <==> DateAt(k, j - lead + 1) == hoje {
      var e := j - lead + 1;
      assert dias[lead + e - 1] == DiaDoMes(dados, simulacoes, e, DateAt(k, e) == hoje);
    }
  }

  /** The leading cells: days `1 - lead .. 0` of the month, that is the last
      `lead` days of the month before. */
  method CelulasAnteriores(ano: int, mes: int, k: int, lead: int) returns (dias: seq<DiaCalendario>)
    requires k == ano * 12 + mes && 0 <= lead < 7
    ensures |dias| == lead
    ensures forall j :: 0 <= j < lead ==> dias[j] == Padding(MonthLength(k - 1) - lead + 1 + j)
  {
    dias := [];
    var i := lead;
    while i > 0
      invariant 0 <= i <= lead
      invariant |dias| == lead - i
      invariant forall j :: 0 <= j < |dias| ==> dias[j] == Padding(MonthLength(k - 1) - lead + 1 + j)
    {
      var dia := MakeDate(ano, mes, 1 - i);
      NormaliseBackward(k, 1 - i);
      dias := dias + [Padding(dia.day)];
      i := i - 1;
    }
  }

  /** The cells of days `1..n` of month `ano * 12 + mes`, with their balances. */
  method CelulasDoMes(ano: int, mes: int, k: int, n: int, hoje: Date, dados: DadosFinanceiros, simulacoes: seq<SimulacaoGasto>)
    returns (dias: seq<DiaCalendario>)
    requires k == ano * 12 + mes && n == MonthLength(k)
    ensures |dias| == n
    ensures forall e :: 1 <= e <= n ==> dias[e - 1] == DiaDoMes(dados, simulacoes, e, DateAt(k, e) == hoje)
  {
    dias := [];
    var d := 1;
    while d <= n
      invariant 1 <= d <= n + 1
      invariant |dias| == d - 1
      invariant forall e :: 1 <= e < d ==> dias[e - 1] == DiaDoMes(dados, simulacoes, e, DateAt(k, e) == hoje)
    {
      var dataAtual := MakeDate(ano, mes, d);
      NormaliseInRange(k, d);
      var isToday := dataAtual == hoje;
      var simulacoesDia := SimulacoesAte(simulacoes, d);
      var saldoDia := dados.saldoInicial - simulacoesDia;
      var percentualEconomia := PercentualEconomia(saldoDia, dados.receitasFixas);
      var status := StatusOf(percentualEconomia);
      dias := dias + [DiaCalendario(d, saldoDia, percentualEconomia, status, isToday, true)];
      d := d + 1;
    }
  }

  /** The trailing cells: days `1..restantes` of the month after. */
  method CelulasSeguintes(restantes: int) returns (dias: seq<DiaCalendario>)
    requires restantes >= 0
    ensures |dias| == restantes
    ensures forall j :: 0 <= j < |dias| ==> dias[j] == Padding(j + 1)
  {
    dias := [];
    var i := 1;
    while i <= restantes
      invariant 1 <= i <= restantes + 1
      invariant |dias| == i - 1
      invariant forall j :: 0 <= j < |dias| ==> dias[j] == Padding(j + 1)
    {
      dias := dias + [Padding(i)];
      i := i + 1;
    }
  }

  /** `calcularCalendario` with today's date passed in: the last days of the
      previous month up to the first weekday, the days of the month, then
      the first days of the next month up to 42 cells. */
  method CalcularCalendario(mesAtual: Date, hoje: Date, dados: DadosFinanceiros, simulacoes: seq<SimulacaoGasto>)
    returns (dias: seq<DiaCalendario>)
    requires Valid(mesAtual)
    ensures var k := MonthIndex(mesAtual);
            Grade(dias, k, Weekday(DateAt(k, 1)), MonthLength(k), dados, simulacoes, hoje)
    ensures var k := MonthIndex(mesAtual);
            var lead := Weekday(DateAt(k, 1));
            forall i :: 0 <= i < 42 ==> (dias[i].isCurrentMonth <==> lead <= i < lead + MonthLength(k))
    ensures forall i, j :: 0 <= i < j < |dias| && dias[i].isToday ==> !dias[j].isToday
  {
    var ano := mesAtual.year;
    var mes := mesAtual.month0;
    var k := MonthIndex(mesAtual);
    assert ano * 12 + mes == k;
    var primeiroDia := NovaData(ano, mes, 1);
    var ultimoDia := UltimoDiaDoMes(ano, mes);
    var n := ultimoDia.day;
    var lead := Weekday(primeiroDia);
    assert primeiroDia == DateAt(k, 1) && n == MonthLength(k);

    var anteriores := CelulasAnteriores(ano, mes, k, lead);
    var doMes := CelulasDoMes(ano, mes, k, n, hoje, dados, simulacoes);
    var seguintes := CelulasSeguintes(42 - (lead + n));
    dias := anteriores + doMes + seguintes;
    GradeConcatenada(anteriores, doMes, seguintes, k, lead, n, dados, simulacoes, hoje);
    GridFlags(dias, k, lead, n, dados, simulacoes, hoje);
  }

  /** The 42 cells of month `k` whose first day falls on weekday `lead`:
      the last `lead` days of the month before, the `n` days of the month,
      then days 1, 2, ... of the month after. */
  predicate Grade(dias: seq<DiaCalendario>, k: int, lead: int, n: int,
                  dados: DadosFinanceiros, simulacoes: seq<SimulacaoGasto>, hoje: Date) {
    |dias| == 42 && 0 <= lead && 0 <= n && lead + n <= 42
    && (forall i :: 0 <= i < lead ==> dias[i] == Padding(MonthLength(k - 1) - lead + 1 + i))
    && (forall d :: 1 <= d <= n ==> dias[lead + d - 1] == DiaDoMes(dados, simulacoes, d, DateAt(k, d) == hoje))
    && (forall j :: lead + n <= j < 42 ==> dias[j] == Padding(j - lead - n + 1))
  }

  /** The three runs of cells put one after the other form the grid. */
  lemma {:induction false} GradeConcatenada(anteriores: seq<DiaCalendario>, doMes: seq<DiaCalendario>, seguintes: seq<DiaCalendario>,
                                             k: int, lead: int, n: int,
                                             dados: DadosFinanceiros, simulacoes: seq<SimulacaoGasto>, hoje: Date)
    requires |anteriores| == lead && |doMes| == n && |seguintes| == 42 - (lead + n)
    requires forall j :: 0 <= j < lead ==> anteriores[j] == Padding(MonthLength(k - 1) - lead + 1 + j)
    requires forall e :: 1 <= e <= n ==> doMes[e - 1] == DiaDoMes(dados, simulacoes, e, DateAt(k, e) == hoje)
    requires forall j :: 0 <= j < |seguintes| ==> seguintes[j] == Padding(j + 1)
    ensures Grade(anteriores + doMes + seguintes, k, lead, n, dados, simulacoes, hoje)
  {
    var dias := anteriores + doMes + seguintes;
    forall i | 0 <= i < lead ensures dias[i] == Padding(MonthLength(k - 1) - lead + 1 + i) {
      assert dias[i] == anteriores[i];
    }
    forall e | 1 <= e <= n ensures dias[lead + e - 1] == DiaDoMes(dados, simulacoes, e, DateAt(k, e) == hoje) {
      assert dias[lead + e - 1] == doMes[e - 1];
    }
    forall j | lead + n <= j < 42 ensures dias[j] == Padding(j - lead - n + 1) {
      assert dias[j] == seguintes[j - lead - n];
    }
  }

  /** `saldoFinalProjetado = saldoInicial - (all simulated spending)`. */
  function SaldoFinalProjetado(dados: DadosFinanceiros, simulacoes: seq<SimulacaoGasto>): (s: real)
    ensures AllPositive(simulacoes) ==> s <= dados.saldoInicial
    ensures simulacoes == [] ==> s == dados.saldoInicial
  {
    if AllPositive(simulacoes) then
      SimulacoesNaoNegativas(simulacoes, 0);
      dados.saldoInicial - SumBy(simulacoes, SimulacaoValor)
    else dados.saldoInicial - SumBy(simulacoes, SimulacaoValor)
  }

  /** The projected month-end balance is the last day's balance when every
      simulation is scheduled inside the month (the day picker offers 1..n). */
  lemma {:induction false} SaldoFinalIsLastDay(dados: DadosFinanceiros, simulacoes: seq<SimulacaoGasto>, n: int)
    requires forall i :: 0 <= i < |simulacoes| ==> simulacoes[i].dia <= n
    ensures SaldoDia(dados, simulacoes, n) == SaldoFinalProjetado(dados, simulacoes)
  {
    FilterAll(simulacoes, NoDiaOuAntes(n));
  }

  /** `adicionarSimulacao` with the parsed amount (`parseFloat` after the
      comma-to-dot replacement; `None` for NaN) and the new id passed in:
      empty fields or a non-positive or unparsable amount leave the list as
      it is; otherwise one entry is appended. */
  function AdicionarSimulacao(simulacoes: seq<SimulacaoGasto>, valorTexto: string, descricao: string,
                              dia: int, valorLido: Option<real>, id: string): (r: seq<SimulacaoGasto>)
    ensures var rejected := valorTexto == "" || descricao == "" || valorLido.None? || valorLido.value <= 0.0;
            (rejected ==> r == simulacoes)
            && (!rejected ==> r == simulacoes + [SimulacaoGasto(id, valorLido.value, descricao, dia)])
    ensures AllPositive(simulacoes) ==> AllPositive(r)
  {
    if valorTexto == "" || descricao == "" then simulacoes
    else
      match valorLido
      case None => simulacoes
      case Some(valor) =>
        if valor <= 0.0 then simulacoes
        else simulacoes + [SimulacaoGasto(id, valor, descricao, dia)]
  }

  /** `s => s.id !== id`. */
  function OutroId(id: string): SimulacaoGasto -> bool {
    (s: SimulacaoGasto) => s.id != id
  }

  /** `removerSimulacao(id)`. */
  function RemoverSimulacao(simulacoes: seq<SimulacaoGasto>, id: string): (r: seq<SimulacaoGasto>)
    ensures forall i :: 0 <= i < |r| ==> r[i].id != id
  {
    Filter(simulacoes, OutroId(id))
  }

  /** Removing drops exactly the entries with that id, keeps the rest in
      order, and keeps the list positive. */
  lemma {:induction false} RemoverSimulacaoKeepsRest(simulacoes: seq<SimulacaoGasto>, id: string)
    ensures var r := RemoverSimulacao(simulacoes, id);
            IsSubseq(r, simulacoes)
            && (forall x :: x in r <==> x in simulacoes && x.id != id)
            && (AllPositive(simulacoes) ==> AllPositive(r))
  {
    var p := OutroId(id);
    var r := RemoverSimulacao(simulacoes, id);
    FilterIsSubseq(simulacoes, p);
    forall x ensures x in r <==> x in simulacoes && x.id != id {
      FilterMembers(simulacoes, p, x);
    }
    if AllPositive(simulacoes) {
      forall i | 0 <= i < |r| ensures r[i].valor > 0.0 {
        FilterMembers(simulacoes, p, r[i]);
        var j :| 0 <= j < |simulacoes| && simulacoes[j] == r[i];
      }
    }
  }
}
