/** The two ways the report pages group transactions.

    Dictionary accumulation: `agrupado[chave] = (agrupado[chave] || 0) + valor`
    inside a `forEach`, read back with `Object.entries`. A JavaScript object
    lists string keys that are not array indices in insertion order, so the
    dictionary is an association list in that order.

    Fixed buckets: one `filter(...).reduce(...)` per bucket number, pushed in
    bucket order. */
module Agrupamento {
  import opened Wrappers
  import opened Totals

  datatype Grupo = Grupo(chave: string, valor: real)

  function ValorDoGrupo(g: Grupo): real { g.valor }

  predicate ChavesDistintas(g: seq<Grupo>) {
    forall i, j :: 0 <= i < j < |g| ==> g[i].chave != g[j].chave
  }

  /** `s.map(f)`. */
  function Mapear<A, B>(s: seq<A>, f: A -> B): (r: seq<B>)
    ensures |r| == |s| && forall i :: 0 <= i < |s| ==> r[i] == f(s[i])
  {
    seq(|s|, i requires 0 <= i < |s| => f(s[i]))
  }

  function Chave(g: Grupo): string { g.chave }

  /** The distinct elements of `s`, each at its first occurrence. */
  function Unicos<K(==)>(s: seq<K>): seq<K> {
    if s == [] then []
    else
      var u := Unicos(s[..|s| - 1]);
      if s[|s| - 1] in u then u else u + [s[|s| - 1]]
  }

  /** Where the dictionary holds `chave`, if it does. */
  function Posicao(g: seq<Grupo>, chave: string): (p: Option<nat>)
    ensures p.Some? ==> p.value < |g| && g[p.value].chave == chave
    ensures p.None? ==> forall i :: 0 <= i < |g| ==> g[i].chave != chave
    decreases |g|
  {
    if g == [] then None
    else if g[0].chave == chave then Some(0)
    else
      match Posicao(g[1..], chave)
      case Some(i) => Some(i + 1)
      case None => None
  }

  /** One step of the `forEach`: add to the key's entry, or append a new one. */
  function Acumular(g: seq<Grupo>, chave: string, valor: real): seq<Grupo> {
    match Posicao(g, chave)
    case Some(i) => g[i := Grupo(chave, g[i].valor + valor)]
    case None => g + [Grupo(chave, valor)]
  }

  /** The dictionary after the whole `forEach`. */
  function Agrupado<T>(ts: seq<T>, chave: T -> string, valor: T -> real): seq<Grupo> {
    if ts == [] then []
    else
      var t := ts[|ts| - 1];
      Acumular(Agrupado(ts[..|ts| - 1], chave, valor), chave(t), valor(t))
  }

  function ComChave<T>(chave: T -> string, k: string): T -> bool {
    (t: T) => chave(t) == k
  }

  lemma {:induction false} UnicosMembros<K>(s: seq<K>, x: K)
    ensures x in Unicos(s) <==> x in s
    decreases |s|
  {
    if s != [] {
      UnicosMembros(s[..|s| - 1], x);
      assert s == s[..|s| - 1] + [s[|s| - 1]];
    }
  }

  /** A non-decreasing sequence has strictly increasing distinct values. */
  lemma {:induction false} UnicosCrescentes(s: seq<int>)
    requires forall i, j :: 0 <= i < j < |s| ==> s[i] <= s[j]
    ensures var u := Unicos(s); forall i, j :: 0 <= i < j < |u| ==> u[i] < u[j]
    decreases |s|
  {
    if s != [] {
      var p := s[..|s| - 1];
      var x := s[|s| - 1];
      UnicosCrescentes(p);
      var u := Unicos(p);
      if x !in u {
        forall i | 0 <= i < |u| ensures u[i] < x {
          UnicosMembros(p, u[i]);
          var k :| 0 <= k < |p| && p[k] == u[i];
          assert s[k] <= s[|s| - 1];
        }
        assert Unicos(s) == u + [x];
      }
    }
  }

  /** `h` never maps two values to the same result. */
  ghost predicate Injetiva<A(!new), B>(h: A -> B) {
    forall a, b :: h(a) == h(b) ==> a == b
  }

  /** Mapping through an injective function commutes with taking distinct values. */
  lemma {:induction false} UnicosMapeados<A(!new), B>(s: seq<A>, h: A -> B)
    requires Injetiva(h)
    ensures Unicos(Mapear(s, h)) == Mapear(Unicos(s), h)
    decreases |s|
  {
    if s != [] {
      var p := s[..|s| - 1];
      var x := s[|s| - 1];
      UnicosMapeados(p, h);
      assert Mapear(s, h)[..|s| - 1] == Mapear(p, h);
      var u := Unicos(p);
      assert x in u <==> h(x) in Mapear(u, h) by {
        if h(x) in Mapear(u, h) {
          var i :| 0 <= i < |u| && Mapear(u, h)[i] == h(x);
          assert u[i] == x;
        }
      }
      if x !in u {
        assert Mapear(u + [x], h) == Mapear(u, h) + [h(x)];
      }
    }
  }

  lemma {:induction false} SumByUpdate(g: seq<Grupo>, i: nat, x: Grupo)
    requires i < |g|
    ensures SumBy(g[i := x], ValorDoGrupo) == SumBy(g, ValorDoGrupo) - g[i].valor + x.valor
    decreases |g|
  {
    var n := |g| - 1;
    if i < n {
      SumByUpdate(g[..n], i, x);
      assert g[i := x][..n] == g[..n][i := x];
    } else {
      assert g[i := x][..n] == g[..n];
    }
  }

  /** One accumulation step keeps the keys distinct and appends the key
      only when it is new. */
  lemma {:induction false} AcumularChaves(g: seq<Grupo>, chave: string, valor: real)
    requires ChavesDistintas(g)
    ensures ChavesDistintas(Acumular(g, chave, valor))
    ensures Mapear(Acumular(g, chave, valor), Chave)
            == if chave in Mapear(g, Chave) then Mapear(g, Chave) else Mapear(g, Chave) + [chave]
  {
    var ks := Mapear(g, Chave);
    match Posicao(g, chave)
    case Some(i) =>
      assert ks[i] == chave;
      assert Mapear(Acumular(g, chave, valor), Chave) == ks;
    case None =>
      assert chave !in ks;
      assert Mapear(Acumular(g, chave, valor), Chave) == ks + [chave];
  }

  /** One accumulation step adds the amount to the grand total. */
  lemma {:induction false} AcumularSoma(g: seq<Grupo>, chave: string, valor: real)
    ensures SumBy(Acumular(g, chave, valor), ValorDoGrupo) == SumBy(g, ValorDoGrupo) + valor
  {
    match Posicao(g, chave)
    case Some(i) =>
      SumByUpdate(g, i, Grupo(chave, g[i].valor + valor));
    case None =>
      SumByAppend(g, [Grupo(chave, valor)], ValorDoGrupo);
      assert SumBy([Grupo(chave, valor)], ValorDoGrupo) == valor by {
        assert [Grupo(chave, valor)][..0] == [];
      }
  }

  /** One accumulation step adds the amount to the key's entry alone, or
      appends a new entry holding just the amount. */
  lemma {:induction false} AcumularValores(g: seq<Grupo>, chave: string, valor: real)
    requires ChavesDistintas(g)
    ensures var r := Acumular(g, chave, valor);
            |g| <= |r| <= |g| + 1
            && (forall i :: 0 <= i < |g| ==> r[i] == Grupo(g[i].chave, g[i].valor + (if g[i].chave == chave then valor else 0.0)))
            && (|r| > |g| ==> r[|g|] == Grupo(chave, valor))
  {
  }

  /** The accumulated dictionary holds every key once, in the order of the
      keys' first occurrences in the input. */
  lemma {:induction false} AgrupadoDistinto<T>(ts: seq<T>, chave: T -> string, valor: T -> real)
    ensures ChavesDistintas(Agrupado(ts, chave, valor))
    ensures Mapear(Agrupado(ts, chave, valor), Chave) == Unicos(Mapear(ts, chave))
    decreases |ts|
  {
    if ts != [] {
      var n := |ts| - 1;
      var p, t := ts[..n], ts[n];
      var g0 := Agrupado(p, chave, valor);
      AgrupadoDistinto(p, chave, valor);
      assert Agrupado(ts, chave, valor) == Acumular(g0, chave(t), valor(t));
      AcumularChaves(g0, chave(t), valor(t));
      var ks := Mapear(ts, chave);
      assert ks[..n] == Mapear(p, chave);
      assert ks[n] == chave(t);
    }
  }

  /** The dictionary's grand total is the input's total. */
  lemma {:induction false} AgrupadoTotal<T>(ts: seq<T>, chave: T -> string, valor: T -> real)
    ensures SumBy(Agrupado(ts, chave, valor), ValorDoGrupo) == SumBy(ts, valor)
    decreases |ts|
  {
    if ts != [] {
      var n := |ts| - 1;
      var p, t := ts[..n], ts[n];
      AgrupadoTotal(p, chave, valor);
      assert Agrupado(ts, chave, valor) == Acumular(Agrupado(p, chave, valor), chave(t), valor(t));
      AcumularSoma(Agrupado(p, chave, valor), chave(t), valor(t));
    }
  }

  /** Every element's key has a group. */
  lemma {:induction false} ChavePresente<T>(ts: seq<T>, chave: T -> string, valor: T -> real, t: T)
    requires t in ts
    ensures chave(t) in Mapear(Agrupado(ts, chave, valor), Chave)
  {
    AgrupadoDistinto(ts, chave, valor);
    var j :| 0 <= j < |ts| && ts[j] == t;
    assert Mapear(ts, chave)[j] == chave(t);
    UnicosMembros(Mapear(ts, chave), chave(t));
  }

  lemma {:induction false} AgrupadoChaves<T>(ts: seq<T>, chave: T -> string, valor: T -> real)
    ensures var g := Agrupado(ts, chave, valor);
            ChavesDistintas(g)
            && Mapear(g, Chave) == Unicos(Mapear(ts, chave))
            && SumBy(g, ValorDoGrupo) == SumBy(ts, valor)
  {
    AgrupadoDistinto(ts, chave, valor);
    AgrupadoTotal(ts, chave, valor);
  }

  /** Entry by entry, the dictionary holds the total of exactly the
      transactions with the entry's key. */
  predicate ValoresPorChave<T>(g: seq<Grupo>, ts: seq<T>, chave: T -> string, valor: T -> real) {
    forall i :: 0 <= i < |g| ==> g[i].valor == SumBy(Filter(ts, ComChave(chave, g[i].chave)), valor)
  }

  /** Each entry of the dictionary is the total of exactly the transactions
      with its key. */
  lemma {:induction false} AgrupadoValores<T>(ts: seq<T>, chave: T -> string, valor: T -> real)
    ensures var g := Agrupado(ts, chave, valor);
            forall i :: 0 <= i < |g| ==> g[i].valor == SumBy(Filter(ts, ComChave(chave, g[i].chave)), valor)
    decreases |ts|
  {
    if ts != [] {
      var n := |ts| - 1;
      var p, t := ts[..n], ts[n];
      var g0 := Agrupado(p, chave, valor);
      AgrupadoValores(p, chave, valor);
      AgrupadoDistinto(p, chave, valor);
      assert Agrupado(ts, chave, valor) == Acumular(g0, chave(t), valor(t));
      assert ts == p + [t];
      AcumularMantemValores(p, t, chave, valor, g0);
    }
  }

  /** The accumulation step keeps every entry equal to its key's total. */
  lemma {:induction false} AcumularMantemValores<T>(p: seq<T>, t: T, chave: T -> string, valor: T -> real, g0: seq<Grupo>)
    requires ChavesDistintas(g0)
    requires Mapear(g0, Chave) == Unicos(Mapear(p, chave))
    requires ValoresPorChave(g0, p, chave, valor)
    ensures ValoresPorChave(Acumular(g0, chave(t), valor(t)), p + [t], chave, valor)
  {
    var g := Acumular(g0, chave(t), valor(t));
    AcumularValores(g0, chave(t), valor(t));
    forall i | 0 <= i < |g|
      ensures g[i].valor == SumBy(Filter(p + [t], ComChave(chave, g[i].chave)), valor)
    {
      if i < |g0| {
        ValorDeChaveAntiga(p, t, chave, valor, g0[i]);
      } else {
        assert g[i] == Grupo(chave(t), valor(t));
        assert chave(t) !in Mapear(g0, Chave) by {
          assert |Mapear(g, Chave)| > |Mapear(g0, Chave)|;
          AcumularChaves(g0, chave(t), valor(t));
        }
        ValorDeChaveNova(p, t, chave, valor);
      }
    }
  }

  /** An entry already present gains the new transaction's amount exactly
      when the transaction has its key. */
  lemma {:induction false} ValorDeChaveAntiga<T>(p: seq<T>, t: T, chave: T -> string, valor: T -> real, e: Grupo)
    requires e.valor == SumBy(Filter(p, ComChave(chave, e.chave)), valor)
    ensures e.valor + (if e.chave == chave(t) then valor(t) else 0.0)
            == SumBy(Filter(p + [t], ComChave(chave, e.chave)), valor)
  {
    SumByFilterUltimo(p, t, ComChave(chave, e.chave), valor);
    assert ComChave(chave, e.chave)(t) == (chave(t) == e.chave);
  }

  /** A new entry holds the new transaction's amount alone. */
  lemma {:induction false} ValorDeChaveNova<T>(p: seq<T>, t: T, chave: T -> string, valor: T -> real)
    requires chave(t) !in Unicos(Mapear(p, chave))
    ensures valor(t) == SumBy(Filter(p + [t], ComChave(chave, chave(t))), valor)
  {
    SumByFilterUltimo(p, t, ComChave(chave, chave(t)), valor);
    NovaChaveSemHistorico(p, chave, valor, chave(t));
  }

  /** A key the dictionary does not hold yet has no transactions so far. */
  lemma {:induction false} NovaChaveSemHistorico<T>(p: seq<T>, chave: T -> string, valor: T -> real, k: string)
    requires k !in Unicos(Mapear(p, chave))
    ensures SumBy(Filter(p, ComChave(chave, k)), valor) == 0.0
  {
    var f := ComChave(chave, k);
    UnicosMembros(Mapear(p, chave), k);
    forall j | 0 <= j < |p| ensures !f(p[j]) {
      assert Mapear(p, chave)[j] == chave(p[j]);
    }
    FilterNone(p, f);
  }

  lemma {:induction false} SumByFilterUltimo<T>(s: seq<T>, x: T, f: T -> bool, valor: T -> real)
    ensures SumBy(Filter(s + [x], f), valor) == SumBy(Filter(s, f), valor) + (if f(x) then valor(x) else 0.0)
  {
    assert (s + [x])[..|s|] == s;
    assert Filter(s + [x], f) == Filter(s, f) + (if f(x) then [x] else []);
    SumByAppend(Filter(s, f), if f(x) then [x] else [], valor);
    assert SumBy([x], valor) == valor(x) by {
      assert [x][..0] == [];
    }
  }

  /** The bucket for key value `i`: `s.filter(x => chave(x) === i).reduce(...)`. */
  function Balde<T>(s: seq<T>, chave: T -> int, valor: T -> real, i: int): real {
    SumBy(Filter(s, NoBalde(chave, i)), valor)
  }

  function NoBalde<T>(chave: T -> int, i: int): T -> bool {
    (x: T) => chave(x) == i
  }

  function NoIntervalo<T>(chave: T -> int, lo: int, hi: int): T -> bool {
    (x: T) => lo <= chave(x) < hi
  }

  /** The buckets `lo .. hi - 1` added up. */
  function SomaBaldes<T>(s: seq<T>, chave: T -> int, valor: T -> real, lo: int, hi: int): real
    decreases hi - lo
  {
    if hi <= lo then 0.0 else SomaBaldes(s, chave, valor, lo, hi - 1) + Balde(s, chave, valor, hi - 1)
  }

  lemma {:induction false} SomaBaldesUltimo<T>(s: seq<T>, x: T, chave: T -> int, valor: T -> real, lo: int, hi: int)
    ensures SomaBaldes(s + [x], chave, valor, lo, hi)
            == SomaBaldes(s, chave, valor, lo, hi) + (if lo <= chave(x) < hi then valor(x) else 0.0)
    decreases hi - lo
  {
    if lo < hi {
      SomaBaldesUltimo(s, x, chave, valor, lo, hi - 1);
      var f := NoBalde(chave, hi - 1);
      assert (s + [x])[..|s|] == s;
      assert Filter(s + [x], f) == Filter(s, f) + (if f(x) then [x] else []);
      SumByAppend(Filter(s, f), if f(x) then [x] else [], valor);
      assert SumBy([x], valor) == valor(x) by {
        assert [x][..0] == [];
      }
    }
  }

  /** The buckets together hold exactly the elements whose key is in range. */
  lemma {:induction false} SomaBaldesTotal<T>(s: seq<T>, chave: T -> int, valor: T -> real, lo: int, hi: int)
    ensures SomaBaldes(s, chave, valor, lo, hi) == SumBy(Filter(s, NoIntervalo(chave, lo, hi)), valor)
    decreases |s|
  {
    if s == [] {
      SomaBaldesVazio(chave, valor, lo, hi);
    } else {
      var n := |s| - 1;
      var x := s[n];
      SomaBaldesTotal(s[..n], chave, valor, lo, hi);
      assert s == s[..n] + [x];
      SomaBaldesUltimo(s[..n], x, chave, valor, lo, hi);
      var f := NoIntervalo(chave, lo, hi);
      SumByAppend(Filter(s[..n], f), if f(x) then [x] else [], valor);
      assert SumBy([x], valor) == valor(x) by {
        assert [x][..0] == [];
      }
    }
  }

  lemma {:induction false} SomaBaldesVazio<T>(chave: T -> int, valor: T -> real, lo: int, hi: int)
    ensures SomaBaldes([], chave, valor, lo, hi) == 0.0
    decreases hi - lo
  {
    if lo < hi {
      SomaBaldesVazio(chave, valor, lo, hi - 1);
    }
  }

  /** A list whose entry `j` holds bucket `lo + j` totals the buckets. */
  lemma {:induction false} SumByDosBaldes<E, T>(es: seq<E>, f: E -> real, s: seq<T>, chave: T -> int, valor: T -> real, lo: int)
    requires forall j :: 0 <= j < |es| ==> f(es[j]) == Balde(s, chave, valor, lo + j)
    ensures SumBy(es, f) == SomaBaldes(s, chave, valor, lo, lo + |es|)
    decreases |es|
  {
    if es != [] {
      SumByDosBaldes(es[..|es| - 1], f, s, chave, valor, lo);
    }
  }

  /** A list whose entry `j` holds bucket `lo + j` totals the elements
      whose key lies in the list's range of buckets. */
  lemma {:induction false} BaldesSomamIntervalo<E, T>(es: seq<E>, f: E -> real, s: seq<T>, chave: T -> int, valor: T -> real, lo: int)
    requires forall j :: 0 <= j < |es| ==> f(es[j]) == Balde(s, chave, valor, lo + j)
    ensures SumBy(es, f) == SumBy(Filter(s, NoIntervalo(chave, lo, lo + |es|)), valor)
  {
    SumByDosBaldes(es, f, s, chave, valor, lo);
    SomaBaldesTotal(s, chave, valor, lo, lo + |es|);
  }

  /** When every key lies in `lo .. hi - 1`, the buckets together total
      the whole input. */
  lemma {:induction false} SomaBaldesCompleta<T>(s: seq<T>, chave: T -> int, valor: T -> real, lo: int, hi: int)
    requires forall i :: 0 <= i < |s| ==> lo <= chave(s[i]) < hi
    ensures SomaBaldes(s, chave, valor, lo, hi) == SumBy(s, valor)
    decreases |s|
  {
    if s == [] {
      SomaBaldesVazio(chave, valor, lo, hi);
    } else {
      var n := |s| - 1;
      var x := s[n];
      assert lo <= chave(x) < hi;
      SomaBaldesCompleta(s[..n], chave, valor, lo, hi);
      assert s == s[..n] + [x];
      SomaBaldesUltimo(s[..n], x, chave, valor, lo, hi);
    }
  }

  /** A list whose entry `j` holds bucket `lo + j`, over an input whose keys
      all lie in the list's range, totals the whole input. */
  lemma {:induction false} BaldesSomamTudo<E, T>(es: seq<E>, f: E -> real, s: seq<T>, chave: T -> int, valor: T -> real, lo: int)
    requires forall j :: 0 <= j < |es| ==> f(es[j]) == Balde(s, chave, valor, lo + j)
    requires forall i :: 0 <= i < |s| ==> lo <= chave(s[i]) < lo + |es|
    ensures SumBy(es, f) == SumBy(s, valor)
  {
    SomaBaldesCompleta(s, chave, valor, lo, lo + |es|);
    SumByDosBaldes(es, f, s, chave, valor, lo);
  }

  /** When every key is in range, the range keeps the whole input. */
  lemma {:induction false} IntervaloCompleto<T>(s: seq<T>, chave: T -> int, valor: T -> real, lo: int, hi: int)
    requires forall x :: x in s ==> lo <= chave(x) < hi
    ensures SumBy(Filter(s, NoIntervalo(chave, lo, hi)), valor) == SumBy(s, valor)
  {
    FilterAll(s, NoIntervalo(chave, lo, hi));
  }

  /** Grouping by the key `h(mes(t))`, with `h` injective, lists the
      groups by the distinct values of `mes` in order of appearance. */
  lemma {:induction false} ChavesMapeadas<T>(ts: seq<T>, chave: T -> string, mes: T -> int, h: int -> string, valor: T -> real)
    requires Injetiva(h)
    requires Mapear(ts, chave) == Mapear(Mapear(ts, mes), h)
    ensures Mapear(Agrupado(ts, chave, valor), Chave) == Mapear(Unicos(Mapear(ts, mes)), h)
  {
    AgrupadoDistinto(ts, chave, valor);
    UnicosMapeados(Mapear(ts, mes), h);
  }

  /** A non-decreasing `mes` has strictly increasing distinct values. */
  lemma {:induction false} MesesCrescentes<T>(ts: seq<T>, mes: T -> int)
    requires forall i, j :: 0 <= i < j < |ts| ==> mes(ts[i]) <= mes(ts[j])
    ensures var ms := Unicos(Mapear(ts, mes));
            forall i, j :: 0 <= i < j < |ms| ==> ms[i] < ms[j]
  {
    var ms := Mapear(ts, mes);
    forall i, j | 0 <= i < j < |ms| ensures ms[i] <= ms[j] {
      assert ms[i] == mes(ts[i]) && ms[j] == mes(ts[j]);
    }
    UnicosCrescentes(ms);
  }

  /** Grouping by the key `h(mes(t))` of a non-decreasing `mes`, with `h`
      injective, lists the groups by strictly increasing `mes`. */
  lemma {:induction false} ChavesEmOrdem<T>(ts: seq<T>, chave: T -> string, mes: T -> int, h: int -> string, valor: T -> real)
    requires Injetiva(h)
    requires Mapear(ts, chave) == Mapear(Mapear(ts, mes), h)
    requires forall i, j :: 0 <= i < j < |ts| ==> mes(ts[i]) <= mes(ts[j])
    ensures var ms := Unicos(Mapear(ts, mes));
            Mapear(Agrupado(ts, chave, valor), Chave) == Mapear(ms, h)
            && forall i, j :: 0 <= i < j < |ms| ==> ms[i] < ms[j]
  {
    ChavesMapeadas(ts, chave, mes, h, valor);
    MesesCrescentes(ts, mes);
  }
}
