/** The investments page: the search and type filters, the submit guard and
    its null fields, the portfolio cards and each item's return. The type
    filter as written lower-cases the stored type and looks for the key
    ('cdb', 'tesouro', 'acoes', 'fundos'); the form stores the type 'Ações',
    which lower-cases to 'ações' and never contains 'acoes'. The corrected
    test removes the accents before looking for the key. */
module Investimentos {
  import opened Wrappers
  import opened Text
  import opened Totals

  /** The page's `Investimento` interface. */
  datatype Investimento = Investimento(
    id: string,
    nome: string,
    tipo: string,
    valorInicial: real,
    valorAtual: Option<real>,
    dataInicio: string,
    dataVencimento: Option<string>,
    rentabilidadeEsperada: Option<real>,
    createdAt: string)

  datatype TipoFiltro = Todos | Cdb | Tesouro | Acoes | Fundos

  /** The select's option values. */
  function Chave(t: TipoFiltro): string {
    match t
    case Todos => "all"
    case Cdb => "cdb"
    case Tesouro => "tesouro"
    case Acoes => "acoes"
    case Fundos => "fundos"
  }

  /** The search step: the term in the lower-cased name or type. */
  predicate CorrespondeBusca(termo: string, i: Investimento) {
    Contains(Lower(i.nome), Lower(termo)) || Contains(Lower(i.tipo), Lower(termo))
  }

  function Busca(termo: string): Investimento -> bool {
    (i: Investimento) => CorrespondeBusca(termo, i)
  }

  /** The type step as written: `tipo.toLowerCase().includes(filterType)`. */
  predicate DoTipoComoEscrito(t: TipoFiltro, i: Investimento) {
    Contains(Lower(i.tipo), Chave(t))
  }

  /** A lower-case Latin-1 letter without its accent. */
  function SemAcentoChar(c: char): char {
    if '\U{E0}' <= c <= '\U{E5}' then 'a'
    else if c == '\U{E7}' then 'c'
    else if '\U{E8}' <= c <= '\U{EB}' then 'e'
    else if '\U{EC}' <= c <= '\U{EF}' then 'i'
    else if c == '\U{F1}' then 'n'
    else if '\U{F2}' <= c <= '\U{F6}' then 'o'
    else if '\U{F9}' <= c <= '\U{FC}' then 'u'
    else if c == '\U{FD}' || c == '\U{FF}' then 'y'
    else c
  }

  function SemAcentos(s: string): (r: string)
    ensures |r| == |s|
    ensures forall k :: 0 <= k < |s| ==> r[k] == SemAcentoChar(s[k])
  {
    seq(|s|, k requires 0 <= k < |s| => SemAcentoChar(s[k]))
  }

  /** The corrected type step: the key in the lower-cased type without accents. */
  predicate DoTipo(t: TipoFiltro, i: Investimento) {
    Contains(SemAcentos(Lower(i.tipo)), Chave(t))
  }

  function Tipo(t: TipoFiltro): Investimento -> bool {
    (i: Investimento) => DoTipo(t, i)
  }

  predicate Visivel(termo: string, t: TipoFiltro, i: Investimento) {
    (termo == "" || CorrespondeBusca(termo, i)) && (t == Todos || DoTipo(t, i))
  }

  function Visiveis(termo: string, t: TipoFiltro): Investimento -> bool {
    (i: Investimento) => Visivel(termo, t, i)
  }

  /** The filter effect with the corrected type step, which drops the
      accents before looking for the key. */
  method FiltrarInvestimentos(investimentos: seq<Investimento>, searchTerm: string, filterType: TipoFiltro)
    returns (filtered: seq<Investimento>)
    ensures filtered == Filter(investimentos, Visiveis(searchTerm, filterType))
  {
    filtered := investimentos;
    if searchTerm != "" {
      filtered := Filter(filtered, Busca(searchTerm));
    }
    if filterType != Todos {
      filtered := Filter(filtered, Tipo(filterType));
    }
    if searchTerm != "" && filterType != Todos {
      FilterFilter(investimentos, Busca(searchTerm), Tipo(filterType), Visiveis(searchTerm, filterType));
    } else if searchTerm != "" {
      FilterCongruent(investimentos, Busca(searchTerm), Visiveis(searchTerm, filterType));
    } else if filterType != Todos {
      FilterCongruent(investimentos, Tipo(filterType), Visiveis(searchTerm, filterType));
    } else {
      FilterAll(investimentos, Visiveis(searchTerm, filterType));
    }
  }

  function TipoComoEscrito(t: TipoFiltro): Investimento -> bool {
    (i: Investimento) => DoTipoComoEscrito(t, i)
  }

  predicate VisivelComoEscrito(termo: string, t: TipoFiltro, i: Investimento) {
    (termo == "" || CorrespondeBusca(termo, i)) && (t == Todos || DoTipoComoEscrito(t, i))
  }

  function VisiveisComoEscrito(termo: string, t: TipoFiltro): Investimento -> bool {
    (i: Investimento) => VisivelComoEscrito(termo, t, i)
  }

  /** The filter effect as the page writes it, with the type step looking
      for the key in the lower-cased type. */
  method FiltrarInvestimentosComoEscrito(investimentos: seq<Investimento>, searchTerm: string, filterType: TipoFiltro)
    returns (filtered: seq<Investimento>)
    ensures filtered == Filter(investimentos, VisiveisComoEscrito(searchTerm, filterType))
  {
    filtered := investimentos;
    if searchTerm != "" {
      filtered := Filter(filtered, Busca(searchTerm));
    }
    if filterType != Todos {
      filtered := Filter(filtered, TipoComoEscrito(filterType));
    }
    if searchTerm != "" && filterType != Todos {
      FilterFilter(investimentos, Busca(searchTerm), TipoComoEscrito(filterType), VisiveisComoEscrito(searchTerm, filterType));
    } else if searchTerm != "" {
      FilterCongruent(investimentos, Busca(searchTerm), VisiveisComoEscrito(searchTerm, filterType));
    } else if filterType != Todos {
      FilterCongruent(investimentos, TipoComoEscrito(filterType), VisiveisComoEscrito(searchTerm, filterType));
    } else {
      FilterAll(investimentos, VisiveisComoEscrito(searchTerm, filterType));
    }
  }

  /** With the 'acoes' filter the page as written shows no 'Ações' item,
      while the corrected filter shows every one that passes the search. */
  lemma {:induction false} FiltroAcoesComoEscrito(investimentos: seq<Investimento>, termo: string, i: Investimento)
    requires i.tipo == TipoAcoes
    ensures i !in Filter(investimentos, VisiveisComoEscrito(termo, Acoes))
    ensures i in Filter(investimentos, Visiveis(termo, Acoes))
            <==> i in investimentos && (termo == "" || CorrespondeBusca(termo, i))
  {
    FilterMembers(investimentos, VisiveisComoEscrito(termo, Acoes), i);
    FilterMembers(investimentos, Visiveis(termo, Acoes), i);
    AcoesNuncaCorrespondeComoEscrito(i);
    TiposDoFormularioCorrespondem(i);
  }

  /** The filtered list keeps the fetched order and holds exactly the visible items. */
  lemma {:induction false} FiltradosSubsequence(investimentos: seq<Investimento>, termo: string, t: TipoFiltro)
    ensures var r := Filter(investimentos, Visiveis(termo, t));
            IsSubseq(r, investimentos) && forall i :: i in r <==> i in investimentos && Visivel(termo, t, i)
  {
    FilterIsSubseq(investimentos, Visiveis(termo, t));
    forall i ensures i in Filter(investimentos, Visiveis(termo, t)) <==> i in investimentos && Visivel(termo, t, i) {
      FilterMembers(investimentos, Visiveis(termo, t), i);
    }
  }

  const TipoAcoes: string := "A\U{E7}\U{F5}es"

  /** As written, the 'Ações' type the form stores never passes the 'acoes' filter. */
  lemma {:induction false} AcoesNuncaCorrespondeComoEscrito(i: Investimento)
    requires i.tipo == TipoAcoes
    ensures !DoTipoComoEscrito(Acoes, i)
  {
    var s := Lower(i.tipo);
    assert s == "a\U{E7}\U{F5}es";
    forall k | 0 <= k <= |s| - 5 ensures !OccursAt(s, "acoes", k) {
      assert s[k + 1] != "acoes"[1];
    }
  }

  /** Corrected, each type the form offers passes the filter of its key. */
  lemma {:induction false} TiposDoFormularioCorrespondem(i: Investimento)
    ensures i.tipo == TipoAcoes ==> DoTipo(Acoes, i)
    ensures i.tipo == "CDB" ==> DoTipo(Cdb, i)
    ensures i.tipo == "Tesouro Direto" ==> DoTipo(Tesouro, i)
    ensures i.tipo == "Fundos" ==> DoTipo(Fundos, i)
  {
    var s := SemAcentos(Lower(i.tipo));
    if i.tipo == TipoAcoes {
      assert s == "acoes";
      assert OccursAt(s, "acoes", 0);
    } else if i.tipo == "CDB" {
      assert s == "cdb";
      assert OccursAt(s, "cdb", 0);
    } else if i.tipo == "Tesouro Direto" {
      assert s[..7] == "tesouro";
      assert OccursAt(s, "tesouro", 0);
    } else if i.tipo == "Fundos" {
      assert s == "fundos";
      assert OccursAt(s, "fundos", 0);
    }
  }

  /** On a type with no accented letter the correction changes nothing. */
  lemma {:induction false} SemAcentoConcorda(t: TipoFiltro, i: Investimento)
    requires forall k :: 0 <= k < |i.tipo| ==> SemAcentoChar(LowerChar(i.tipo[k])) == LowerChar(i.tipo[k])
    ensures DoTipo(t, i) <==> DoTipoComoEscrito(t, i)
  {
    assert SemAcentos(Lower(i.tipo)) == Lower(i.tipo);
  }

  /** `valor_atual || valor_inicial`: a missing or zero current value falls
      back to the initial one. */
  function ValorAtualOuInicial(i: Investimento): (v: real)
    ensures i.valorAtual.Some? && i.valorAtual.value != 0.0 ==> v == i.valorAtual.value
    ensures i.valorAtual.None? || i.valorAtual.value == 0.0 ==> v == i.valorInicial
  {
    if i.valorAtual.Some? && i.valorAtual.value != 0.0 then i.valorAtual.value else i.valorInicial
  }

  function ValorInicial(i: Investimento): real { i.valorInicial }

  /** The item's return: current (or initial) value minus the initial value. */
  function Rentabilidade(i: Investimento): (r: real)
    ensures i.valorAtual.None? || i.valorAtual.value == 0.0 ==> r == 0.0
    ensures r + i.valorInicial == ValorAtualOuInicial(i)
  {
    ValorAtualOuInicial(i) - i.valorInicial
  }

  /** The item's return as a percentage of the initial value; with a zero
      initial value the page divides by zero, which is `None` here. */
  function PercentualItem(i: Investimento): (p: Option<real>)
    ensures p.None? <==> i.valorInicial == 0.0
    ensures p.Some? ==> p.value * i.valorInicial == Rentabilidade(i) * 100.0
  {
    if i.valorInicial == 0.0 then None else Some((Rentabilidade(i) / i.valorInicial) * 100.0)
  }

  function TotalInvestido(investimentos: seq<Investimento>): real { SumBy(investimentos, ValorInicial) }

  function TotalAtual(investimentos: seq<Investimento>): real { SumBy(investimentos, ValorAtualOuInicial) }

  function RentabilidadeTotal(investimentos: seq<Investimento>): real {
    TotalAtual(investimentos) - TotalInvestido(investimentos)
  }

  /** The portfolio's percentage: 0 unless something positive was invested. */
  function PercentualRentabilidade(investimentos: seq<Investimento>): (p: real)
    ensures TotalInvestido(investimentos) > 0.0 ==>
              p * TotalInvestido(investimentos) == RentabilidadeTotal(investimentos) * 100.0
    ensures TotalInvestido(investimentos) <= 0.0 ==> p == 0.0
  {
    var totalInvestido := TotalInvestido(investimentos);
    if totalInvestido > 0.0 then (RentabilidadeTotal(investimentos) / totalInvestido) * 100.0 else 0.0
  }

  /** The portfolio's return is the sum of the items' returns, and it is 0
      when no item has a non-zero current value. */
  lemma {:induction false} RentabilidadeTotalSomaItens(investimentos: seq<Investimento>)
    ensures RentabilidadeTotal(investimentos) == SumBy(investimentos, Rentabilidade)
    ensures (forall k :: 0 <= k < |investimentos| ==> investimentos[k].valorAtual.None?) ==>
              RentabilidadeTotal(investimentos) == 0.0
  {
    SumByDifference(investimentos, ValorAtualOuInicial, ValorInicial, Rentabilidade);
    if forall k :: 0 <= k < |investimentos| ==> investimentos[k].valorAtual.None? {
      forall x | x in investimentos ensures Rentabilidade(x) == (x => 0.0)(x) {
        var k :| 0 <= k < |investimentos| && investimentos[k] == x;
      }
      SumByCongruent(investimentos, Rentabilidade, x => 0.0);
      SumByZero(investimentos);
    }
  }

  /** The form's fields. */
  datatype FormInvestimento = FormInvestimento(
    nome: string,
    tipo: string,
    valorInicial: string,
    valorAtual: string,
    dataInicio: string,
    dataVencimento: string,
    rentabilidadeEsperada: string)

  /** The columns the submit writes; a number that does not parse is stored
      as null (the insert adds the user's id). */
  datatype Campos = Campos(
    nome: string,
    tipo: string,
    valorInicial: Option<real>,
    valorAtual: Option<real>,
    dataInicio: string,
    dataVencimento: Option<string>,
    rentabilidadeEsperada: Option<real>)

  /** An optional numeric field: empty text is null, otherwise its reading. */
  function Opcional(texto: string, lido: Option<real>): (r: Option<real>)
    ensures texto == "" ==> r.None?
    ensures texto != "" ==> r == lido
  {
    if texto != "" then lido else None
  }

  /** `handleSubmit`: rejected when the name, type or initial value is empty;
      optional fields left empty are stored as null. */
  function Submeter(form: FormInvestimento, valorInicialLido: Option<real>, valorAtualLido: Option<real>,
                    rentabilidadeLida: Option<real>): (r: Option<Campos>)
    ensures r.None? <==> form.nome == "" || form.tipo == "" || form.valorInicial == ""
    ensures r.Some? ==>
              var c := r.value;
              c.nome == form.nome && c.tipo == form.tipo && c.valorInicial == valorInicialLido
              && (c.valorAtual.None? <==> form.valorAtual == "" || valorAtualLido.None?)
              && (c.valorAtual.Some? ==> c.valorAtual == valorAtualLido)
              && c.dataInicio == form.dataInicio
              && (c.dataVencimento.None? <==> form.dataVencimento == "")
              && (c.dataVencimento.Some? ==> c.dataVencimento.value == form.dataVencimento)
              && (c.rentabilidadeEsperada.None? <==> form.rentabilidadeEsperada == "" || rentabilidadeLida.None?)
              && (c.rentabilidadeEsperada.Some? ==> c.rentabilidadeEsperada == rentabilidadeLida)
  {
    if form.nome == "" || form.tipo == "" || form.valorInicial == "" then None
    else
      Some(Campos(form.nome, form.tipo, valorInicialLido,
                  Opcional(form.valorAtual, valorAtualLido),
                  form.dataInicio,
                  if form.dataVencimento == "" then None else Some(form.dataVencimento),
                  Opcional(form.rentabilidadeEsperada, rentabilidadeLida)))
  }
}
