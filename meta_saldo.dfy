/** The balance-goal page: the current month's balance, the goal form's
    submit (with the `atingida` flag it stores), the progress percentage,
    the days left until the target date and the saving needed per day.
    The clock and the parsing of the target date are parameters: `agoraMs`
    is `new Date().getTime()` and `objetivoMs` is
    `new Date(data_objetivo).getTime()`, both in milliseconds. */
module MetaSaldo {
  import opened Wrappers
  import opened Totals

  /** The stored goal (`MetaSaldo` interface). */
  datatype Meta = Meta(
    id: string,
    valorMeta: real,
    dataObjetivo: string,
    descricao: string,
    atingida: bool)

  function Valor(x: real): real { x }

  /** `data?.reduce((sum, r) => sum + r.valor, 0) || 0`: no rows fetched
      count as 0. */
  function Total(data: Option<seq<real>>): (t: real)
    ensures data.None? ==> t == 0.0
    ensures data.Some? ==> t == SumBy(data.value, Valor)
  {
    if data.Some? then SumBy(data.value, Valor) else 0.0
  }

  /** `fetchSaldoAtual`: this month's income total minus its expense total. */
  function SaldoAtual(receitas: Option<seq<real>>, despesas: Option<seq<real>>): (s: real)
    ensures receitas.None? && despesas.None? ==> s == 0.0
    ensures receitas.None? ==> s == -Total(despesas)
    ensures despesas.None? ==> s == Total(receitas)
  {
    Total(receitas) - Total(despesas)
  }

  /** Each further income raises the balance by its amount and each
      further expense lowers it by its amount. */
  lemma {:induction false} SaldoAtualAcrescimos(receitas: seq<real>, despesas: seq<real>, r: real, d: real)
    ensures SaldoAtual(Some(receitas + [r]), Some(despesas)) == SaldoAtual(Some(receitas), Some(despesas)) + r
    ensures SaldoAtual(Some(receitas), Some(despesas + [d])) == SaldoAtual(Some(receitas), Some(despesas)) - d
  {
    assert (receitas + [r])[..|receitas|] == receitas;
    assert (despesas + [d])[..|despesas|] == despesas;
  }

  /** The form's three text fields. */
  datatype FormMeta = FormMeta(valorMeta: string, dataObjetivo: string, descricao: string)

  /** `valor_meta.replace(',', '.')`: only the first comma becomes a point. */
  function TrocarPrimeiraVirgula(s: string): (r: string)
    ensures |r| == |s|
    ensures ',' !in s ==> r == s
  {
    if s == [] then []
    else if s[0] == ',' then "." + s[1..]
    else [s[0]] + TrocarPrimeiraVirgula(s[1..])
  }

  /** With its first comma at `i`, the text keeps everything but that comma,
      which becomes a point. */
  lemma {:induction false} TrocaNaPrimeiraVirgula(s: string, i: int)
    requires 0 <= i < |s| && s[i] == ',' && ',' !in s[..i]
    ensures TrocarPrimeiraVirgula(s) == s[..i] + "." + s[i + 1..]
    decreases i
  {
    if i > 0 {
      assert s[0] == s[..i][0];
      assert s[1..][..i - 1] == s[1..i];
      TrocaNaPrimeiraVirgula(s[1..], i - 1);
      assert s[..i] == [s[0]] + s[1..i];
    }
  }

  /** The columns the submit writes. `valorMeta` is `parseFloat` of the
      text with its first comma made a point; `None` stands for `NaN`. */
  datatype Campos = Campos(valorMeta: Option<real>, dataObjetivo: string, descricao: string, atingida: bool)

  /** The submit updates the goal the page holds, or inserts a new one. */
  datatype Gravacao = Atualizar(id: string, campos: Campos) | Inserir(campos: Campos)

  function CamposDe(g: Gravacao): Campos {
    match g
    case Atualizar(_, c) => c
    case Inserir(c) => c
  }

  /** `handleSubmit`: rejected when a field is empty; otherwise `atingida`
      records whether the current balance already reaches the goal (never
      for a goal that is not a number), and an existing goal is updated. */
  function HandleSubmit(form: FormMeta, valorLido: Option<real>, saldoAtual: real, metaSaldo: Option<Meta>)
    : (r: Option<Gravacao>)
    ensures r.None? <==> form.valorMeta == "" || form.dataObjetivo == "" || form.descricao == ""
    ensures r.Some? ==>
              var c := CamposDe(r.value);
              c.valorMeta == valorLido && c.dataObjetivo == form.dataObjetivo && c.descricao == form.descricao
              && (c.atingida <==> valorLido.Some? && saldoAtual >= valorLido.value)
              && (metaSaldo.Some? <==> r.value.Atualizar?)
              && (r.value.Atualizar? ==> r.value.id == metaSaldo.value.id)
  {
    if form.valorMeta == "" || form.dataObjetivo == "" || form.descricao == "" then None
    else
      var atingida := valorLido.Some? && saldoAtual >= valorLido.value;
      var campos := Campos(valorLido, form.dataObjetivo, form.descricao, atingida);
      if metaSaldo.Some? then Some(Atualizar(metaSaldo.value.id, campos)) else Some(Inserir(campos))
  }

  /** `calcularProgressoPercentual`: 0 without a positive goal, otherwise
      the balance as a percentage of the goal, capped at 100 (and negative
      for a negative balance). */
  function CalcularProgressoPercentual(metaSaldo: Option<Meta>, saldoAtual: real): (p: real)
    ensures metaSaldo.None? || metaSaldo.value.valorMeta <= 0.0 ==> p == 0.0
    ensures metaSaldo.Some? && metaSaldo.value.valorMeta > 0.0 ==>
              p <= 100.0
              && (p == 100.0 <==> saldoAtual >= metaSaldo.value.valorMeta)
              && (p < 100.0 ==> p * metaSaldo.value.valorMeta == saldoAtual * 100.0)
  {
    if metaSaldo.None? || metaSaldo.value.valorMeta <= 0.0 then 0.0
    else
      var m := metaSaldo.value.valorMeta;
      var bruto := (saldoAtual / m) * 100.0;
      assert bruto * m == saldoAtual * 100.0;
      assert bruto >= 100.0 <==> saldoAtual >= m by {
        if saldoAtual >= m {
          assert bruto * m >= 100.0 * m;
        } else {
          assert bruto * m < 100.0 * m;
        }
      }
      if bruto < 100.0 then bruto else 100.0
  }

  /** More balance never shows less progress. */
  lemma {:induction false} ProgressoMonotone(metaSaldo: Option<Meta>, a: real, b: real)
    requires a <= b
    ensures CalcularProgressoPercentual(metaSaldo, a) <= CalcularProgressoPercentual(metaSaldo, b)
  {
    if metaSaldo.Some? && metaSaldo.value.valorMeta > 0.0 {
      var m := metaSaldo.value.valorMeta;
      var pa, pb := CalcularProgressoPercentual(metaSaldo, a), CalcularProgressoPercentual(metaSaldo, b);
      if pa < 100.0 && pb < 100.0 {
        assert pa * m <= pb * m;
      }
    }
  }

  const MsPorDia: int := 1000 * 60 * 60 * 24

  /** `Math.ceil(diffTime / (1000 * 60 * 60 * 24))` on whole milliseconds. */
  function DiasArredondadosParaCima(diffTime: int): (d: int)
    ensures (d - 1) * MsPorDia < diffTime <= d * MsPorDia
  {
    -((-diffTime) / MsPorDia)
  }

  /** `calcularDiasRestantes`: 0 without a goal, otherwise the days from
      now to the target rounded up (negative once the target has passed). */
  function CalcularDiasRestantes(metaSaldo: Option<Meta>, objetivoMs: int, agoraMs: int): (d: int)
    ensures metaSaldo.None? ==> d == 0
    ensures metaSaldo.Some? ==> (d - 1) * MsPorDia < objetivoMs - agoraMs <= d * MsPorDia
  {
    if metaSaldo.None? then 0 else DiasArredondadosParaCima(objetivoMs - agoraMs)
  }

  /** The rounded-up day count is the only whole number with that bracket,
      so it never grows as time passes. */
  lemma {:induction false} DiasRestantesDiminuem(metaSaldo: Option<Meta>, objetivoMs: int, antes: int, depois: int)
    requires antes <= depois
    ensures CalcularDiasRestantes(metaSaldo, objetivoMs, depois) <= CalcularDiasRestantes(metaSaldo, objetivoMs, antes)
  {
    if metaSaldo.Some? {
      var a, b := CalcularDiasRestantes(metaSaldo, objetivoMs, antes), CalcularDiasRestantes(metaSaldo, objetivoMs, depois);
      assert (b - 1) * MsPorDia < a * MsPorDia;
    }
  }

  /** `calcularEconomiaRequerida`: 0 without a goal or once no days are
      left, otherwise the missing amount spread over the days left. */
  function CalcularEconomiaRequerida(metaSaldo: Option<Meta>, saldoAtual: real, objetivoMs: int, agoraMs: int): (e: real)
    ensures var dias := CalcularDiasRestantes(metaSaldo, objetivoMs, agoraMs);
            (metaSaldo.None? || dias <= 0 ==> e == 0.0)
            && (metaSaldo.Some? && dias > 0 ==> e * (dias as real) == metaSaldo.value.valorMeta - saldoAtual)
  {
    if metaSaldo.None? then 0.0
    else
      var diferenca := metaSaldo.value.valorMeta - saldoAtual;
      var diasRestantes := CalcularDiasRestantes(metaSaldo, objetivoMs, agoraMs);
      if diasRestantes <= 0 then 0.0 else diferenca / (diasRestantes as real)
  }

  /** Saving the required amount on each day left brings the balance to
      the goal; a balance already at the goal requires nothing positive. */
  lemma {:induction false} EconomiaAlcancaAMeta(metaSaldo: Option<Meta>, saldoAtual: real, objetivoMs: int, agoraMs: int)
    requires metaSaldo.Some? && CalcularDiasRestantes(metaSaldo, objetivoMs, agoraMs) > 0
    ensures var e := CalcularEconomiaRequerida(metaSaldo, saldoAtual, objetivoMs, agoraMs);
            saldoAtual + e * (CalcularDiasRestantes(metaSaldo, objetivoMs, agoraMs) as real) == metaSaldo.value.valorMeta
            && (saldoAtual >= metaSaldo.value.valorMeta ==> e <= 0.0)
            && (saldoAtual < metaSaldo.value.valorMeta ==> e > 0.0)
  {
    var e := CalcularEconomiaRequerida(metaSaldo, saldoAtual, objetivoMs, agoraMs);
    var dias := CalcularDiasRestantes(metaSaldo, objetivoMs, agoraMs) as real;
    assert e == (metaSaldo.value.valorMeta - saldoAtual) / dias;
  }

  /** `metaAtingida`: the stored flag, or the current balance reaching the goal. */
  predicate MetaAtingida(metaSaldo: Option<Meta>, saldoAtual: real): (b: bool)
    ensures metaSaldo.None? ==> !b
    ensures (metaSaldo.Some? && metaSaldo.value.valorMeta > 0.0
             && CalcularProgressoPercentual(metaSaldo, saldoAtual) == 100.0) ==> b
    ensures metaSaldo.Some? && !metaSaldo.value.atingida ==> (b <==> saldoAtual >= metaSaldo.value.valorMeta)
  {
    metaSaldo.Some? && (metaSaldo.value.atingida || saldoAtual >= metaSaldo.value.valorMeta)
  }

  /** The goal as the page reads it back after the submit wrote `g`. */
  function MetaGravada(g: Gravacao, id: string, valor: real): Meta
    requires CamposDe(g).valorMeta == Some(valor)
  {
    var c := CamposDe(g);
    Meta(id, valor, c.dataObjetivo, c.descricao, c.atingida)
  }

  /** Right after a submit with a numeric goal, and with the balance
      unchanged, the page shows the goal as reached exactly when the
      balance reaches it; with a positive goal that is exactly when the
      progress shows 100. */
  lemma {:induction false} AtingidaAposSubmeter(form: FormMeta, valor: real, saldoAtual: real, metaSaldo: Option<Meta>, id: string)
    requires HandleSubmit(form, Some(valor), saldoAtual, metaSaldo).Some?
    ensures var m := MetaGravada(HandleSubmit(form, Some(valor), saldoAtual, metaSaldo).value, id, valor);
            (MetaAtingida(Some(m), saldoAtual) <==> saldoAtual >= valor)
            && (valor > 0.0 ==> (MetaAtingida(Some(m), saldoAtual) <==> CalcularProgressoPercentual(Some(m), saldoAtual) == 100.0))
  {
  }
}
