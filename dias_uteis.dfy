/** Business days ("dias úteis"): Monday to Friday, minus the national
    holidays of 2025, counted from the first of the month. A month is given
    as `(ano, mes)` with `mes` any month number, as `new Date(ano, mes, dia)`
    accepts; its month index is `ano * 12 + mes`. */
module DiasUteis {
  import opened Wrappers
  import opened Text
  import opened Calendar

  /** `isDiaUtil`: Monday (1) to Friday (5). */
  predicate IsDiaUtil(d: Date): (b: bool)
    ensures b <==> Weekday(d) != 0 && Weekday(d) != 6
  {
    1 <= Weekday(d) <= 5
  }

  /** `feriados2025`: New Year, Tiradentes, Labour Day, Independence,
      Our Lady of Aparecida, All Souls, Republic Day and Christmas. */
  const Feriados2025: set<Date> := {
    Date(2025, 0, 1), Date(2025, 3, 21), Date(2025, 4, 1), Date(2025, 8, 7),
    Date(2025, 9, 12), Date(2025, 10, 2), Date(2025, 10, 15), Date(2025, 11, 25)
  }

  /** `isFeriado`: the date is one of the listed holidays. */
  predicate IsFeriado(d: Date): (b: bool)
    ensures b ==> Valid(d) && d.year == 2025
  {
    d in Feriados2025
  }

  /** `isDiaUtilReal`: a weekday that is not a holiday. */
  predicate IsDiaUtilReal(d: Date): (b: bool)
    ensures b ==> IsDiaUtil(d)
    ensures d.year != 2025 ==> (b <==> IsDiaUtil(d))
  {
    IsDiaUtil(d) && !IsFeriado(d)
  }

  /** Whether day `d` of month `k` is a business day. */
  function UtilNoMes(k: int): int -> bool {
    d => IsDiaUtilReal(DateAt(k, d))
  }

  /** The number of days among 1..upTo that satisfy `p`. */
  function Contagem(p: int -> bool, upTo: int): (c: int)
    ensures 0 <= c <= (if upTo < 0 then 0 else upTo)
    decreases upTo
  {
    if upTo < 1 then 0 else Contagem(p, upTo - 1) + (if p(upTo) then 1 else 0)
  }

  /** The number of business days among days 1..upTo of month `k`. */
  function CountBusinessDays(k: int, upTo: int): int {
    Contagem(UtilNoMes(k), upTo)
  }

  /** Counting further never lowers the count. */
  lemma {:induction false} ContagemMonotone(p: int -> bool, a: int, b: int)
    requires a <= b
    ensures Contagem(p, a) <= Contagem(p, b)
    decreases b - a
  {
    if a < b {
      ContagemMonotone(p, a, b - 1);
    }
  }

  /** Counting up to a day that satisfies `p` strictly raises the count. */
  lemma {:induction false} ContagemEstrita(p: int -> bool, a: int, b: int)
    requires 0 <= a < b && p(b)
    ensures Contagem(p, a) < Contagem(p, b)
  {
    ContagemMonotone(p, a, b - 1);
    assert Contagem(p, b) == Contagem(p, b - 1) + 1;
  }

  /** Counting further into the month never lowers the business-day count. */
  lemma {:induction false} CountMonotone(k: int, a: int, b: int)
    requires a <= b
    ensures CountBusinessDays(k, a) <= CountBusinessDays(k, b)
  {
    ContagemMonotone(UtilNoMes(k), a, b);
  }

  /** Between two business days the count strictly rises. */
  lemma {:induction false} CountStrictlyIncreasing(k: int, a: int, b: int)
    requires 1 <= a < b && IsDiaUtilReal(DateAt(k, b))
    ensures CountBusinessDays(k, a) < CountBusinessDays(k, b)
  {
    ContagemEstrita(UtilNoMes(k), a, b);
  }

  /** One step of the month walks: `new Date(ano, mes, dia)` and whether it
      is a business day. */
  method DiaDoMes(ano: int, mes: int, dia: int) returns (dataAtual: Date, util: bool)
    requires 1 <= dia <= MonthLength(ano * 12 + mes)
    ensures dataAtual == DateAt(ano * 12 + mes, dia)
    ensures util == UtilNoMes(ano * 12 + mes)(dia) && util == IsDiaUtilReal(dataAtual)
  {
    dataAtual := NovaData(ano, mes, dia);
    util := IsDiaUtilReal(dataAtual);
  }

  /** `calcularNumeroDiaUtil(data)`: the position of `data` among the
      business days of its month (counting `data` itself when it is one). */
  method CalcularNumeroDiaUtil(data: Date) returns (count: int)
    requires Valid(data)
    ensures count == CountBusinessDays(MonthIndex(data), data.day)
    ensures 0 <= count <= data.day
  {
    DayInMonthLength(data);
    count := ContarAte(data.year, data.month0, data.day);
  }

  /** The loop of `calcularNumeroDiaUtil`: builds `new Date(ano, mes, dia)`
      for `dia` = 1..ultimo and counts the business days among them. */
  method ContarAte(ano: int, mes: int, ultimo: int) returns (count: int)
    requires 0 <= ultimo <= MonthLength(ano * 12 + mes)
    ensures count == CountBusinessDays(ano * 12 + mes, ultimo)
  {
    var k := ano * 12 + mes;
    count := 0;
    var dia := 1;
    while dia <= ultimo
      invariant 1 <= dia <= ultimo + 1
      invariant count == Contagem(UtilNoMes(k), dia - 1)
    {
      var dataAtual, util := DiaDoMes(ano, mes, dia);
      if util {
        count := count + 1;
      }
      dia := dia + 1;
    }
    assert dia - 1 == ultimo;
    assert count == Contagem(UtilNoMes(k), ultimo);
    assert count == CountBusinessDays(k, ultimo);
  }

  /** `obterDataDoNDiaUtil(ano, mes, n)`: the `n`-th business day of the
      month, or nothing when the month has fewer than `n` (or `n < 1`). */
  method ObterDataDoNDiaUtil(ano: int, mes: int, n: int) returns (r: Option<Date>)
    ensures r.None? <==> n < 1 || n > CountBusinessDays(ano * 12 + mes, MonthLength(ano * 12 + mes))
    ensures r.Some? ==>
              Valid(r.value) && MonthIndex(r.value) == ano * 12 + mes && IsDiaUtilReal(r.value)
              && CountBusinessDays(ano * 12 + mes, r.value.day) == n
  {
    var ultimoDia := UltimoDiaDoMes(ano, mes);
    r := ProcurarAte(ano, mes, ultimoDia.day, n);
  }

  /** The loop of `obterDataDoNDiaUtil`: walks days 1..ultimo, counting the
      business days, and stops at the `n`-th. */
  method ProcurarAte(ano: int, mes: int, ultimo: int, n: int) returns (r: Option<Date>)
    requires 0 <= ultimo <= MonthLength(ano * 12 + mes)
    ensures r.None? <==> n < 1 || n > CountBusinessDays(ano * 12 + mes, ultimo)
    ensures r.Some? ==>
              Valid(r.value) && MonthIndex(r.value) == ano * 12 + mes && IsDiaUtilReal(r.value)
              && 1 <= r.value.day <= ultimo && CountBusinessDays(ano * 12 + mes, r.value.day) == n
  {
    var k := ano * 12 + mes;
    var count := 0;
    var dia := 1;
    while dia <= ultimo
      invariant 1 <= dia <= ultimo + 1
      invariant count == Contagem(UtilNoMes(k), dia - 1)
      invariant n < 1 || count < n
    {
      var dataAtual, util := DiaDoMes(ano, mes, dia);
      if util {
        count := count + 1;
        if count == n {
          assert count == Contagem(UtilNoMes(k), dia);
          assert count == CountBusinessDays(k, dia);
          CountMonotone(k, dia, ultimo);
          return Some(dataAtual);
        }
      }
      dia := dia + 1;
    }
    assert dia - 1 == ultimo;
    assert count == CountBusinessDays(k, ultimo);
    return None;
  }

  /** `contarDiasUteisNoMes(ano, mes)`: the business days of the whole month. */
  method ContarDiasUteisNoMes(ano: int, mes: int) returns (count: int)
    ensures count == CountBusinessDays(ano * 12 + mes, MonthLength(ano * 12 + mes))
    ensures 0 <= count <= MonthLength(ano * 12 + mes)
  {
    var ultimoDia := UltimoDiaDoMes(ano, mes);
    count := ContarAte(ano, mes, ultimoDia.day);
  }

  datatype DiaUtil = DiaUtil(data: Date, numeroDiaUtil: int)

  /** The days among 1..upTo of month `k` that satisfy `p`, in calendar
      order, each numbered by its position. */
  function Listagem(p: int -> bool, k: int, upTo: int): seq<DiaUtil>
    decreases upTo
  {
    if upTo < 1 then []
    else Listagem(p, k, upTo - 1) + (if p(upTo) then [DiaUtil(DateAt(k, upTo), Contagem(p, upTo))] else [])
  }

  /** The business days among days 1..upTo of month `k`, in calendar order,
      each numbered by its position. */
  function ListaDiasUteis(k: int, upTo: int): seq<DiaUtil> {
    Listagem(UtilNoMes(k), k, upTo)
  }

  /** `obterListaDiasUteisDoMes(ano, mes)`: every business day of the month
      in calendar order, numbered 1, 2, .... */
  method ObterListaDiasUteisDoMes(ano: int, mes: int) returns (dias: seq<DiaUtil>)
    ensures dias == ListaDiasUteis(ano * 12 + mes, MonthLength(ano * 12 + mes))
  {
    var ultimoDia := UltimoDiaDoMes(ano, mes);
    dias := ListarAte(ano, mes, ultimoDia.day);
  }

  /** The loop of `obterListaDiasUteisDoMes`: walks days 1..ultimo and
      appends each business day with its running number. */
  method ListarAte(ano: int, mes: int, ultimo: int) returns (dias: seq<DiaUtil>)
    requires 0 <= ultimo <= MonthLength(ano * 12 + mes)
    ensures dias == ListaDiasUteis(ano * 12 + mes, ultimo)
  {
    var k := ano * 12 + mes;
    dias := [];
    var numeroDiaUtil := 0;
    var dia := 1;
    while dia <= ultimo
      invariant 1 <= dia <= ultimo + 1
      invariant numeroDiaUtil == Contagem(UtilNoMes(k), dia - 1)
      invariant dias == Listagem(UtilNoMes(k), k, dia - 1)
    {
      var dataAtual, util := DiaDoMes(ano, mes, dia);
      if util {
        numeroDiaUtil := numeroDiaUtil + 1;
        dias := dias + [DiaUtil(dataAtual, numeroDiaUtil)];
      }
      dia := dia + 1;
    }
    assert dia - 1 == ultimo;
    assert dias == Listagem(UtilNoMes(k), k, ultimo);
    assert dias == ListaDiasUteis(k, ultimo);
  }

  /** Entry `i` is a day among 1..upTo of month `k` that satisfies `p`,
      numbered `i + 1`. */
  predicate EntradasNumeradas(l: seq<DiaUtil>, p: int -> bool, k: int, upTo: int) {
    forall i :: 0 <= i < |l| ==>
      l[i].numeroDiaUtil == i + 1 && 1 <= l[i].data.day <= upTo
      && l[i].data == DateAt(k, l[i].data.day) && p(l[i].data.day)
  }

  predicate DiasCrescentes(l: seq<DiaUtil>) {
    forall i, j :: 0 <= i < j < |l| ==> l[i].data.day < l[j].data.day
  }

  /** The list has one entry per selected day so far. */
  lemma {:induction false} ListagemTamanho(p: int -> bool, k: int, upTo: int)
    ensures |Listagem(p, k, upTo)| == Contagem(p, upTo)
    decreases upTo
  {
    if upTo >= 1 {
      ListagemTamanho(p, k, upTo - 1);
    }
  }

  /** Entry `i` is a selected day among 1..upTo of month `k`, numbered `i + 1`. */
  lemma {:induction false} ListagemEntradas(p: int -> bool, k: int, upTo: int)
    ensures EntradasNumeradas(Listagem(p, k, upTo), p, k, upTo)
    decreases upTo
  {
    if upTo >= 1 {
      ListagemEntradas(p, k, upTo - 1);
      ListagemTamanho(p, k, upTo - 1);
    }
  }

  /** The listed days strictly increase. */
  lemma {:induction false} ListagemCrescente(p: int -> bool, k: int, upTo: int)
    ensures DiasCrescentes(Listagem(p, k, upTo))
    decreases upTo
  {
    if upTo >= 1 {
      var l0 := Listagem(p, k, upTo - 1);
      var l := Listagem(p, k, upTo);
      ListagemCrescente(p, k, upTo - 1);
      if p(upTo) {
        ListagemEntradas(p, k, upTo - 1);
        assert l == l0 + [DiaUtil(DateAt(k, upTo), Contagem(p, upTo))];
        forall i, j | 0 <= i < j < |l| ensures l[i].data.day < l[j].data.day {
          if j < |l0| {
            assert l[i] == l0[i] && l[j] == l0[j];
          } else {
            assert l[i] == l0[i] && l[j].data.day == upTo;
          }
        }
      } else {
        assert l == l0;
      }
    }
  }

  /** Counting further only appends to the list. */
  lemma {:induction false} ListagemPrefixo(p: int -> bool, k: int, a: int, b: int)
    requires a <= b
    ensures var la, lb := Listagem(p, k, a), Listagem(p, k, b);
            |la| <= |lb| && lb[..|la|] == la
    decreases b - a
  {
    if a < b {
      ListagemPrefixo(p, k, a, b - 1);
      var l := Listagem(p, k, b - 1);
      assert Listagem(p, k, b)[..|l|] == l;
    }
  }

  /** Every selected day up to `upTo` is in the list, at the entry its
      count names. */
  lemma {:induction false} ListagemCompleta(p: int -> bool, k: int, upTo: int, dia: int)
    requires 1 <= dia <= upTo && p(dia)
    ensures var l := Listagem(p, k, upTo);
            1 <= Contagem(p, dia) <= |l| && l[Contagem(p, dia) - 1].data == DateAt(k, dia)
  {
    ListagemPrefixo(p, k, dia, upTo);
    ListagemTamanho(p, k, dia);
    var l := Listagem(p, k, dia);
    assert l[|l| - 1].data == DateAt(k, dia);
  }

  /** The list has one entry per business day so far. */
  lemma {:induction false} ListaDiasUteisTamanho(k: int, upTo: int)
    ensures |ListaDiasUteis(k, upTo)| == CountBusinessDays(k, upTo)
  {
    ListagemTamanho(UtilNoMes(k), k, upTo);
  }

  /** Entry `i` is a valid business day of month `k` among days 1..upTo,
      numbered `i + 1`. */
  predicate DiasUteisNumerados(l: seq<DiaUtil>, k: int, upTo: int) {
    forall i :: 0 <= i < |l| ==>
      l[i].numeroDiaUtil == i + 1 && 1 <= l[i].data.day <= upTo && MonthIndex(l[i].data) == k
      && Valid(l[i].data) && IsDiaUtilReal(l[i].data)
  }

  /** Entry `i` of the list is a valid business day of month `k` among days
      1..upTo, numbered `i + 1`. */
  lemma {:induction false} ListaDiasUteisEntradas(k: int, upTo: int)
    requires upTo <= MonthLength(k)
    ensures DiasUteisNumerados(ListaDiasUteis(k, upTo), k, upTo)
  {
    var l := ListaDiasUteis(k, upTo);
    ListagemEntradas(UtilNoMes(k), k, upTo);
    forall i | 0 <= i < |l|
      ensures l[i].numeroDiaUtil == i + 1 && 1 <= l[i].data.day <= upTo && MonthIndex(l[i].data) == k
              && Valid(l[i].data) && IsDiaUtilReal(l[i].data)
    {
      var dia := l[i].data.day;
      assert l[i].data == DateAt(k, dia) && UtilNoMes(k)(dia);
    }
  }

  /** The list's days strictly increase. */
  lemma {:induction false} ListaDiasUteisCrescente(k: int, upTo: int)
    ensures DiasCrescentes(ListaDiasUteis(k, upTo))
  {
    ListagemCrescente(UtilNoMes(k), k, upTo);
  }

  /** Every business day of the month up to `upTo` is in the list, at the
      entry its position count names. */
  lemma {:induction false} ListaDiasUteisCompleta(k: int, upTo: int, dia: int)
    requires 1 <= dia <= upTo && IsDiaUtilReal(DateAt(k, dia))
    ensures var l := ListaDiasUteis(k, upTo);
            1 <= CountBusinessDays(k, dia) <= |l| && l[CountBusinessDays(k, dia) - 1].data == DateAt(k, dia)
  {
    ListagemCompleta(UtilNoMes(k), k, upTo, dia);
  }

  /** A business day of the month has a position between 1 and the month's
      total. */
  lemma {:induction false} BusinessDayPosition(k: int, dia: int)
    requires 1 <= dia <= MonthLength(k) && IsDiaUtilReal(DateAt(k, dia))
    ensures 1 <= CountBusinessDays(k, dia) <= CountBusinessDays(k, MonthLength(k))
  {
    CountMonotone(k, dia, MonthLength(k));
    ContagemEstrita(UtilNoMes(k), 0, dia);
  }

  /** Two business days of a month with the same position are the same day. */
  lemma {:induction false} PositionDeterminesDay(k: int, a: int, b: int)
    requires 1 <= a && 1 <= b
    requires IsDiaUtilReal(DateAt(k, a)) && IsDiaUtilReal(DateAt(k, b))
    requires CountBusinessDays(k, a) == CountBusinessDays(k, b)
    ensures a == b
  {
    if a < b {
      CountStrictlyIncreasing(k, a, b);
    } else if b < a {
      CountStrictlyIncreasing(k, b, a);
    }
  }

  const Suffix: string := "º dia útil"

  /** `formatarNumeroDiaUtil(n)`: the decimal number followed by "º dia útil". */
  function FormatarNumeroDiaUtil(n: int): (s: string)
    ensures |s| > |Suffix| && s[|s| - |Suffix|..] == Suffix
  {
    IntToString(n) + Suffix
  }

  /** The number reads back from the text in front of the suffix. */
  lemma {:induction false} FormatarNumeroDiaUtilParse(n: int)
    ensures var s := FormatarNumeroDiaUtil(n);
            ParseInt(s[..|s| - |Suffix|]) == Some(n)
  {
    var s := FormatarNumeroDiaUtil(n);
    assert s[..|s| - |Suffix|] == IntToString(n);
    ParseIntToString(n);
  }
}
