/** The expenses page: the search and type filters over the fetched list,
    the submit guards and the record the form stores, the form filled in
    for editing, and the three total cards. The amount typed in the form is
    parsed by `parseFloat` (after replacing a comma with a dot) and the
    number of installments by `parseInt`; both readings are inputs here,
    `None` standing for NaN. */
module Despesas {
  import opened Wrappers
  import opened Text
  import opened Totals

  /** The page's `Despesa` interface. */
  datatype Despesa = Despesa(
    id: string,
    valor: real,
    descricao: string,
    data: string,
    tagId: Option<string>,
    fixa: bool,
    parcelado: bool,
    totalParcelas: Option<int>,
    parcelaAtual: Option<int>,
    createdAt: string)

  function Valor(d: Despesa): real { d.valor }

  datatype TipoFiltro = Todas | Fixa | Variavel | Parcelado

  /** The search step's test: the lower-cased description contains the lower-cased term. */
  function CorrespondeBusca(termo: string): Despesa -> bool {
    (d: Despesa) => Contains(Lower(d.descricao), Lower(termo))
  }

  /** The type step's `switch`. */
  predicate DoTipo(tipo: TipoFiltro, d: Despesa) {
    match tipo
    case Todas => true
    case Fixa => d.fixa
    case Variavel => !d.fixa && !d.parcelado
    case Parcelado => d.parcelado
  }

  function CorrespondeTipo(tipo: TipoFiltro): Despesa -> bool {
    (d: Despesa) => DoTipo(tipo, d)
  }

  /** What the list shows: a record whose description matches the term and
      whose kind matches the type. */
  predicate Visivel(termo: string, tipo: TipoFiltro, d: Despesa) {
    Contains(Lower(d.descricao), Lower(termo)) && DoTipo(tipo, d)
  }

  function Visiveis(termo: string, tipo: TipoFiltro): Despesa -> bool {
    (d: Despesa) => Visivel(termo, tipo, d)
  }

  /** The filter effect: the search step only with a non-empty term, the
      type step only for a type other than 'all'. Either way the result is
      the fetched list filtered by `Visivel`. */
  method FiltrarDespesas(despesas: seq<Despesa>, searchTerm: string, filterType: TipoFiltro)
    returns (filtered: seq<Despesa>)
    ensures filtered == Filter(despesas, Visiveis(searchTerm, filterType))
  {
    filtered := despesas;
    if searchTerm != "" {
      filtered := Filter(filtered, CorrespondeBusca(searchTerm));
    }
    if filterType != Todas {
      filtered := Filter(filtered, CorrespondeTipo(filterType));
    }
    ContainsEmpty(Lower(searchTerm));
    forall d: Despesa | searchTerm == "" ensures Contains(Lower(d.descricao), Lower(searchTerm)) {
      ContainsEmpty(Lower(d.descricao));
    }
    if searchTerm != "" && filterType != Todas {
      FilterFilter(despesas, CorrespondeBusca(searchTerm), CorrespondeTipo(filterType), Visiveis(searchTerm, filterType));
    } else if searchTerm != "" {
      FilterCongruent(despesas, CorrespondeBusca(searchTerm), Visiveis(searchTerm, filterType));
    } else if filterType != Todas {
      FilterCongruent(despesas, CorrespondeTipo(filterType), Visiveis(searchTerm, filterType));
    } else {
      FilterAll(despesas, Visiveis(searchTerm, filterType));
    }
  }

  /** The filtered list keeps the fetched order and holds exactly the
      visible records. */
  lemma {:induction false} FiltradasSubsequence(despesas: seq<Despesa>, termo: string, tipo: TipoFiltro)
    ensures var r := Filter(despesas, Visiveis(termo, tipo));
            IsSubseq(r, despesas) && forall d :: d in r <==> d in despesas && Visivel(termo, tipo, d)
  {
    FilterIsSubseq(despesas, Visiveis(termo, tipo));
    forall d ensures d in Filter(despesas, Visiveis(termo, tipo)) <==> d in despesas && Visivel(termo, tipo, d) {
      FilterMembers(despesas, Visiveis(termo, tipo), d);
    }
  }

  /** 'all' with an empty search shows the fetched list unchanged. */
  lemma {:induction false} SemFiltroIdentidade(despesas: seq<Despesa>)
    ensures Filter(despesas, Visiveis("", Todas)) == despesas
  {
    forall d | d in despesas ensures Visivel("", Todas, d) {
      ContainsEmpty(Lower(d.descricao));
    }
    FilterAll(despesas, Visiveis("", Todas));
  }

  /** No record is both 'variavel' and 'parcelado', while 'fixa' and
      'parcelado' overlap on a fixed installment expense. */
  lemma {:induction false} TiposDisjuntos(d: Despesa)
    ensures !(DoTipo(Variavel, d) && DoTipo(Parcelado, d))
    ensures d.fixa && d.parcelado ==> DoTipo(Fixa, d) && DoTipo(Parcelado, d)
  {
  }

  /** The form's fields, as text where the form holds text. */
  datatype FormDespesa = FormDespesa(
    valor: string,
    descricao: string,
    data: string,
    tagId: string,
    fixa: bool,
    parcelado: bool,
    totalParcelas: string)

  /** The columns the submit writes (the insert adds the user's id). */
  datatype Campos = Campos(
    valor: real,
    descricao: string,
    data: string,
    tagId: Option<string>,
    fixa: bool,
    parcelado: bool,
    totalParcelas: Option<int>,
    parcelaAtual: Option<int>)

  datatype Rejeicao = CamposObrigatorios | ParcelasInvalidas | ValorInvalido

  datatype Envio = Salvar(campos: Campos) | Rejeitar(motivo: Rejeicao)

  /** `tag_id` as stored: null when the text is empty or blank after `trim()`,
      otherwise the text as typed. */
  function TagArmazenada(tagId: string): (r: Option<string>)
    ensures r.None? <==> IsBlank(tagId)
    ensures r.Some? ==> r.value == tagId
  {
    if tagId != "" && !IsBlank(tagId) then Some(tagId) else None
  }

  /** `handleSubmit`'s guards, in order, and the record it stores:
      empty amount or description; an installment expense without a count
      or with a count below 1 (a count NaN is not below 1 and passes); an
      amount that is NaN or not positive. */
  function Submeter(form: FormDespesa, valorLido: Option<real>, parcelasLidas: Option<int>): (r: Envio)
    ensures r.Rejeitar? && r.motivo == CamposObrigatorios <==> form.valor == "" || form.descricao == ""
    ensures r.Rejeitar? && r.motivo == ParcelasInvalidas <==>
              form.valor != "" && form.descricao != "" && form.parcelado
              && (form.totalParcelas == "" || (parcelasLidas.Some? && parcelasLidas.value < 1))
    ensures r.Salvar? <==>
              form.valor != "" && form.descricao != ""
              && !(form.parcelado && (form.totalParcelas == "" || (parcelasLidas.Some? && parcelasLidas.value < 1)))
              && valorLido.Some? && valorLido.value > 0.0
    ensures r.Salvar? ==>
              var c := r.campos;
              c.valor == valorLido.value && c.valor > 0.0
              && c.descricao == form.descricao && c.data == form.data
              && c.tagId == TagArmazenada(form.tagId)
              && c.fixa == form.fixa && c.parcelado == form.parcelado
              && c.totalParcelas == (if form.parcelado then parcelasLidas else None)
              && c.parcelaAtual == (if form.parcelado then Some(1) else None)
  {
    if form.valor == "" || form.descricao == "" then Rejeitar(CamposObrigatorios)
    else if form.parcelado && (form.totalParcelas == "" || (parcelasLidas.Some? && parcelasLidas.value < 1)) then
      Rejeitar(ParcelasInvalidas)
    else
      var totalParcelas := if form.parcelado then parcelasLidas else None;
      match valorLido
      case None => Rejeitar(ValorInvalido)
      case Some(valor) =>
        if valor <= 0.0 then Rejeitar(ValorInvalido)
        else Salvar(Campos(valor, form.descricao, form.data, TagArmazenada(form.tagId),
                           form.fixa, form.parcelado, totalParcelas, if form.parcelado then Some(1) else None))
  }

  /** A stored record is always positive, an installment record always starts
      at installment 1, and a stored count is never below 1. */
  lemma {:induction false} SubmeterArmazenaValido(form: FormDespesa, valorLido: Option<real>, parcelasLidas: Option<int>)
    ensures var r := Submeter(form, valorLido, parcelasLidas);
            r.Salvar? ==>
              r.campos.valor > 0.0
              && (r.campos.parcelaAtual.Some? <==> r.campos.parcelado)
              && (r.campos.totalParcelas.Some? ==> r.campos.parcelado && r.campos.totalParcelas.value >= 1)
  {
  }

  /** A count that does not parse as a number passes the installment guard
      and is stored as null (JSON has no NaN). */
  lemma {:induction false} ParcelasIlegiveisPassam(form: FormDespesa, valor: real)
    requires form.valor != "" && form.descricao != "" && form.parcelado && form.totalParcelas != ""
    requires valor > 0.0
    ensures Submeter(form, Some(valor), None).Salvar?
    ensures Submeter(form, Some(valor), None).campos.totalParcelas == None
  {
  }

  /** `handleEdit`: the form filled in from a record, with the amount's
      `toString()` given; a missing tag or count becomes empty text. */
  function Editar(d: Despesa, valorTexto: string): (form: FormDespesa)
    ensures form.descricao == d.descricao && form.data == d.data
    ensures form.fixa == d.fixa && form.parcelado == d.parcelado
    ensures form.tagId == (if d.tagId.Some? then d.tagId.value else "")
    ensures d.totalParcelas.None? <==> form.totalParcelas == ""
  {
    FormDespesa(valorTexto, d.descricao, d.data, if d.tagId.Some? then d.tagId.value else "",
                d.fixa, d.parcelado, if d.totalParcelas.Some? then IntToString(d.totalParcelas.value) else "")
  }

  /** Editing a well-formed record and saving the form unchanged stores the
      record's own fields, except that an installment record's current
      installment goes back to 1. */
  lemma {:induction false} EditarESalvar(d: Despesa, valorTexto: string)
    requires valorTexto != "" && d.descricao != "" && d.valor > 0.0
    requires d.parcelado ==> d.totalParcelas.Some? && d.totalParcelas.value >= 1
    requires d.tagId.Some? ==> !IsBlank(d.tagId.value)
    ensures var form := Editar(d, valorTexto);
            Submeter(form, Some(d.valor), ParseInt(form.totalParcelas))
            == Salvar(Campos(d.valor, d.descricao, d.data, d.tagId, d.fixa, d.parcelado,
                             if d.parcelado then d.totalParcelas else None,
                             if d.parcelado then Some(1) else None))
  {
    var form := Editar(d, valorTexto);
    if d.totalParcelas.Some? {
      ParseIntToString(d.totalParcelas.value);
    }
    if d.tagId.None? {
      assert IsBlank(form.tagId);
    }
  }

  /** The three cards: all expenses, the fixed ones, the installment ones. */
  function TotalDespesas(despesas: seq<Despesa>): real { SumBy(despesas, Valor) }

  function TotalFixas(despesas: seq<Despesa>): real { SumBy(Filter(despesas, CorrespondeTipo(Fixa)), Valor) }

  function TotalParceladas(despesas: seq<Despesa>): real { SumBy(Filter(despesas, CorrespondeTipo(Parcelado)), Valor) }

  /** With non-negative amounts neither subtotal exceeds the total, and the
      variable expenses make up the rest of the non-installment ones. */
  lemma {:induction false} SubtotaisLimitados(despesas: seq<Despesa>)
    requires forall i :: 0 <= i < |despesas| ==> despesas[i].valor >= 0.0
    ensures 0.0 <= TotalFixas(despesas) <= TotalDespesas(despesas)
    ensures 0.0 <= TotalParceladas(despesas) <= TotalDespesas(despesas)
    ensures TotalParceladas(despesas) + SumBy(Filter(despesas, CorrespondeTipo(Variavel)), Valor) <= TotalDespesas(despesas)
  {
    forall x | x in despesas ensures Valor(x) >= 0.0 {
      var i :| 0 <= i < |despesas| && despesas[i] == x;
    }
    SumByFilterAtMost(despesas, Valor, CorrespondeTipo(Fixa));
    SumByFilterAtMost(despesas, Valor, CorrespondeTipo(Parcelado));
    forall x | x in Filter(despesas, CorrespondeTipo(Fixa)) ensures Valor(x) >= 0.0 {
      FilterMembers(despesas, CorrespondeTipo(Fixa), x);
    }
    forall x | x in Filter(despesas, CorrespondeTipo(Parcelado)) ensures Valor(x) >= 0.0 {
      FilterMembers(despesas, CorrespondeTipo(Parcelado), x);
    }
    SumByNonNegative(Filter(despesas, CorrespondeTipo(Fixa)), Valor);
    SumByNonNegative(Filter(despesas, CorrespondeTipo(Parcelado)), Valor);
    var naoParcelado := (d: Despesa) => !d.parcelado;
    SumByComplement(despesas, Valor, CorrespondeTipo(Parcelado), naoParcelado);
    SumByFilterMonotone(despesas, Valor, CorrespondeTipo(Variavel), naoParcelado);
  }
}
