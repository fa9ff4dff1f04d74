/** The stored records the pages read, as the `despesas` and `receitas`
    tables return them. A date column that is null or empty is `None`; an
    optional column that is null is `None`. */
module Records {
  import opened Wrappers
  import opened Calendar

  /** An expense (`Despesa`), with the `categoria` column the dashboard reads. */
  datatype Despesa = Despesa(
    id: string,
    userId: string,
    valor: real,
    descricao: string,
    data: Option<Date>,
    tagId: Option<string>,
    categoria: Option<string>,
    fixa: bool,
    parcelado: bool,
    totalParcelas: Option<int>,
    parcelaAtual: Option<int>)

  /** An income (`Receita`), with the business-day scheduling columns. */
  datatype Receita = Receita(
    id: string,
    userId: string,
    valor: real,
    descricao: string,
    data: Option<Date>,
    tagId: Option<string>,
    fixa: bool,
    usaDiaUtil: Option<bool>,
    diaUtilNumero: Option<int>)

  function DespesaValor(d: Despesa): real { d.valor }
  function ReceitaValor(r: Receita): real { r.valor }
  predicate IsFixa(d: Despesa) { d.fixa }
  predicate IsParcelado(d: Despesa) { d.parcelado }
}
