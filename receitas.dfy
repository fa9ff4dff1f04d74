/** The income page: the search and fixed/variable filters, the submit
    guard and the record the form stores, the form filled in for editing,
    and the total cards. The amount typed in the form is parsed by
    `parseFloat` after replacing a comma with a dot; the reading is an input
    here, `None` standing for NaN, which the page does not reject. */
module Receitas {
  import opened Wrappers
  import opened Text
  import opened Totals

  /** The page's `Receita` interface. */
  datatype Receita = Receita(
    id: string,
    valor: real,
    descricao: string,
    data: string,
    tagId: Option<string>,
    fixa: bool,
    usaDiaUtil: Option<bool>,
    diaUtilNumero: Option<int>,
    createdAt: string)

  function Valor(r: Receita): real { r.valor }

  datatype TipoFiltro = Todas | Fixa | Variavel

  function CorrespondeBusca(termo: string): Receita -> bool {
    (r: Receita) => Contains(Lower(r.descricao), Lower(termo))
  }

  /** The type step: `filterType === 'fixa' ? receita.fixa : !receita.fixa`. */
  predicate DoTipo(tipo: TipoFiltro, r: Receita) {
    match tipo
    case Todas => true
    case Fixa => r.fixa
    case Variavel => !r.fixa
  }

  function CorrespondeTipo(tipo: TipoFiltro): Receita -> bool {
    (r: Receita) => DoTipo(tipo, r)
  }

  predicate Visivel(termo: string, tipo: TipoFiltro, r: Receita) {
    Contains(Lower(r.descricao), Lower(termo)) && DoTipo(tipo, r)
  }

  function Visiveis(termo: string, tipo: TipoFiltro): Receita -> bool {
    (r: Receita) => Visivel(termo, tipo, r)
  }

  /** The filter effect: the search step only with a non-empty term, the
      type step only for a type other than 'all'. */
  method FiltrarReceitas(receitas: seq<Receita>, searchTerm: string, filterType: TipoFiltro)
    returns (filtered: seq<Receita>)
    ensures filtered == Filter(receitas, Visiveis(searchTerm, filterType))
  {
    filtered := receitas;
    if searchTerm != "" {
      filtered := Filter(filtered, CorrespondeBusca(searchTerm));
    }
    if filterType != Todas {
      filtered := Filter(filtered, CorrespondeTipo(filterType));
    }
    ContainsEmpty(Lower(searchTerm));
    forall r: Receita | searchTerm == "" ensures Contains(Lower(r.descricao), Lower(searchTerm)) {
      ContainsEmpty(Lower(r.descricao));
    }
    if searchTerm != "" && filterType != Todas {
      FilterFilter(receitas, CorrespondeBusca(searchTerm), CorrespondeTipo(filterType), Visiveis(searchTerm, filterType));
    } else if searchTerm != "" {
      FilterCongruent(receitas, CorrespondeBusca(searchTerm), Visiveis(searchTerm, filterType));
    } else if filterType != Todas {
      FilterCongruent(receitas, CorrespondeTipo(filterType), Visiveis(searchTerm, filterType));
    } else {
      FilterAll(receitas, Visiveis(searchTerm, filterType));
    }
  }

  /** The filtered list keeps the fetched order; 'all' with an empty search
      is the fetched list itself. */
  lemma {:induction false} FiltradasSubsequence(receitas: seq<Receita>, termo: string, tipo: TipoFiltro)
    ensures IsSubseq(Filter(receitas, Visiveis(termo, tipo)), receitas)
    ensures termo == "" && tipo == Todas ==> Filter(receitas, Visiveis(termo, tipo)) == receitas
  {
    FilterIsSubseq(receitas, Visiveis(termo, tipo));
    if termo == "" && tipo == Todas {
      forall r | r in receitas ensures Visivel(termo, tipo, r) {
        ContainsEmpty(Lower(r.descricao));
      }
      FilterAll(receitas, Visiveis(termo, tipo));
    }
  }

  /** For a given search, 'fixa' and 'variavel' split what 'all' shows: every
      shown record is in exactly one of them, and the counts and sums add up. */
  lemma {:induction false} FixaVariavelParticao(receitas: seq<Receita>, termo: string)
    ensures forall r :: Visivel(termo, Todas, r) <==> (Visivel(termo, Fixa, r) || Visivel(termo, Variavel, r))
    ensures forall r :: !(Visivel(termo, Fixa, r) && Visivel(termo, Variavel, r))
    ensures |Filter(receitas, Visiveis(termo, Fixa))| + |Filter(receitas, Visiveis(termo, Variavel))|
            == |Filter(receitas, Visiveis(termo, Todas))|
    ensures SumBy(Filter(receitas, Visiveis(termo, Fixa)), Valor) + SumBy(Filter(receitas, Visiveis(termo, Variavel)), Valor)
            == SumBy(Filter(receitas, Visiveis(termo, Todas)), Valor)
  {
    var todas := Filter(receitas, Visiveis(termo, Todas));
    FilterFilter(receitas, Visiveis(termo, Todas), CorrespondeTipo(Fixa), Visiveis(termo, Fixa));
    FilterFilter(receitas, Visiveis(termo, Todas), CorrespondeTipo(Variavel), Visiveis(termo, Variavel));
    CountComplement(todas, CorrespondeTipo(Fixa), CorrespondeTipo(Variavel));
    SumByComplement(todas, Valor, CorrespondeTipo(Fixa), CorrespondeTipo(Variavel));
  }

  /** The cards: all income, the fixed income, and the variable income as
      the difference of the two. */
  function TotalReceitas(receitas: seq<Receita>): real { SumBy(receitas, Valor) }

  function TotalFixas(receitas: seq<Receita>): real { SumBy(Filter(receitas, CorrespondeTipo(Fixa)), Valor) }

  function TotalVariaveis(receitas: seq<Receita>): real { TotalReceitas(receitas) - TotalFixas(receitas) }

  /** The variable-income card equals the sum over the non-fixed records, and
      the "N receitas variáveis" count is the number of non-fixed records. */
  lemma {:induction false} VariaveisSaoNaoFixas(receitas: seq<Receita>)
    ensures TotalVariaveis(receitas) == SumBy(Filter(receitas, CorrespondeTipo(Variavel)), Valor)
    ensures |receitas| - |Filter(receitas, CorrespondeTipo(Fixa))| == |Filter(receitas, CorrespondeTipo(Variavel))|
  {
    SumByComplement(receitas, Valor, CorrespondeTipo(Fixa), CorrespondeTipo(Variavel));
    CountComplement(receitas, CorrespondeTipo(Fixa), CorrespondeTipo(Variavel));
  }

  /** The form's fields. */
  datatype FormReceita = FormReceita(
    valor: string,
    descricao: string,
    data: string,
    tagId: string,
    fixa: bool,
    usaDiaUtil: bool,
    diaUtilNumero: int)

  /** The columns the submit writes; `valor` is null when the text does not
      parse (the insert adds the user's id). */
  datatype Campos = Campos(
    valor: Option<real>,
    descricao: string,
    data: string,
    tagId: Option<string>,
    fixa: bool,
    usaDiaUtil: bool,
    diaUtilNumero: Option<int>)

  /** `handleSubmit`: the only guard is an empty amount or description; the
      tag is null only when empty (`tag_id || null`, no trim); the business-day
      number is kept only when the income uses business days. */
  function Submeter(form: FormReceita, valorLido: Option<real>): (r: Option<Campos>)
    ensures r.None? <==> form.valor == "" || form.descricao == ""
    ensures r.Some? ==>
              var c := r.value;
              c.valor == valorLido && c.descricao == form.descricao && c.data == form.data
              && (c.tagId.None? <==> form.tagId == "") && (c.tagId.Some? ==> c.tagId.value == form.tagId)
              && c.fixa == form.fixa && c.usaDiaUtil == form.usaDiaUtil
              && (c.diaUtilNumero.Some? <==> form.usaDiaUtil)
              && (c.diaUtilNumero.Some? ==> c.diaUtilNumero.value == form.diaUtilNumero)
  {
    if form.valor == "" || form.descricao == "" then None
    else
      Some(Campos(valorLido, form.descricao, form.data,
                  if form.tagId == "" then None else Some(form.tagId),
                  form.fixa, form.usaDiaUtil,
                  if form.usaDiaUtil then Some(form.diaUtilNumero) else None))
  }

  /** A non-positive or unreadable amount is not rejected by the page. */
  lemma {:induction false} SemVerificacaoDeValor(form: FormReceita, valorLido: Option<real>)
    requires form.valor != "" && form.descricao != ""
    ensures Submeter(form, valorLido).Some?
    ensures Submeter(form, valorLido).value.valor == valorLido
  {
  }

  /** `handleEdit`: the form filled in from a record, with the amount's
      `toString()` given; a missing tag becomes empty text, a missing
      `usa_dia_util` false and a missing or zero `dia_util_numero` 1. */
  function Editar(r: Receita, valorTexto: string): (form: FormReceita)
    ensures form.descricao == r.descricao && form.data == r.data && form.fixa == r.fixa
    ensures form.tagId == (if r.tagId.Some? then r.tagId.value else "")
    ensures form.usaDiaUtil <==> r.usaDiaUtil == Some(true)
    ensures form.diaUtilNumero == (if r.diaUtilNumero.None? || r.diaUtilNumero.value == 0 then 1 else r.diaUtilNumero.value)
  {
    FormReceita(valorTexto, r.descricao, r.data,
                if r.tagId.Some? then r.tagId.value else "",
                r.fixa,
                if r.usaDiaUtil.Some? then r.usaDiaUtil.value else false,
                if r.diaUtilNumero.Some? && r.diaUtilNumero.value != 0 then r.diaUtilNumero.value else 1)
  }

  /** Editing a record and saving the form unchanged stores its own fields,
      with the defaults above filled in and the business-day number dropped
      when the income does not use business days. */
  lemma {:induction false} EditarESalvar(r: Receita, valorTexto: string)
    requires valorTexto != "" && r.descricao != ""
    requires r.tagId != Some("")
    ensures var c := Submeter(Editar(r, valorTexto), Some(r.valor));
            c.Some? && c.value.valor == Some(r.valor) && c.value.tagId == r.tagId
            && c.value.usaDiaUtil == (r.usaDiaUtil == Some(true))
            && (r.usaDiaUtil == Some(true) && r.diaUtilNumero.Some? && r.diaUtilNumero.value != 0 ==>
                  c.value.diaUtilNumero == r.diaUtilNumero)
            && (r.usaDiaUtil != Some(true) ==> c.value.diaUtilNumero.None?)
  {
  }
}
