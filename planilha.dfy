/** The dashboard of app/planilha.tsx: `agruparPorCategoria` folds the entries
    into one bucket per category id (a default 'outros' bucket for entries
    without one), then derives one pie slice per bucket and a bar series with a
    trailing sentinel. The fold is a loop that updates a record in place; the
    slice and bar derivations are pure expressions.

    `Object.entries`/`Object.values` enumerate the buckets in an order this
    model does not pin down: the derivations take that order as `ordem`, any
    duplicate-free listing of the bucket keys. */
module Planilha {
  import opened Modelos
  import opened Numeros

  /** The key of the default bucket. */
  const Outros: string := "outros"

  /** `item.categoriaId || 'outros'`. */
  function ChaveCategoria(d: Dado): string
  {
    match d.categoriaId
    case None => Outros
    case Some(id) => OuTexto(id, Outros)
  }

  /** An entry lands in the default bucket exactly when its category id is
      missing, empty or literally "outros"; otherwise under its own id. */
  lemma ChaveCategoriaOutros(d: Dado)
    ensures ChaveCategoria(d) == Outros <==>
      d.categoriaId.None? || d.categoriaId.value == "" || d.categoriaId.value == Outros
    ensures ChaveCategoria(d) != Outros ==> d.categoriaId == Some(ChaveCategoria(d))
  {
  }

  // ---------------------------------------------------------------------------
  // The bucket fold (app/planilha.tsx:35-41)
  // ---------------------------------------------------------------------------

  /** One iteration of the `forEach`:
      `agrupado[categoriaId] = (agrupado[categoriaId] || 0) + valor`. */
  function Acumular(parse: Parser, agrupado: map<string, Numero>, d: Dado): map<string, Numero>
  {
    var k := ChaveCategoria(d);
    agrupado[k := Mais(OuZero(Ler(agrupado, k)), ValorDe(parse, d))]
  }

  /** The record `agrupado` after the `forEach` over `dados`. */
  function Agrupado(parse: Parser, dados: seq<Dado>): map<string, Numero>
  {
    if dados == [] then map[] else Acumular(parse, Agrupado(parse, dados[..|dados| - 1]), dados[|dados| - 1])
  }

  /** The entries of `dados` whose bucket key is in `chaves`, in order. */
  function FiltroEm(dados: seq<Dado>, chaves: set<string>): seq<Dado>
  {
    if dados == [] then []
    else
      var d := dados[|dados| - 1];
      FiltroEm(dados[..|dados| - 1], chaves) + (if ChaveCategoria(d) in chaves then [d] else [])
  }

  /** One bucket on its own: the running value `(acc || 0) + valor` over the
      entries of that bucket, `None` while there is none. */
  function Acumulado(parse: Parser, s: seq<Dado>): (r: Option<Numero>)
    ensures r.None? <==> s == []
  {
    if s == [] then None
    else Some(Mais(OuZero(Acumulado(parse, s[..|s| - 1])), ValorDe(parse, s[|s| - 1])))
  }

  /** Appending to a sequence extends its filter by the appended entry alone. */
  lemma FiltroAnexar(dados: seq<Dado>, d: Dado, chaves: set<string>)
    ensures FiltroEm(dados + [d], chaves) ==
      FiltroEm(dados, chaves) + (if ChaveCategoria(d) in chaves then [d] else [])
  {
    assert (dados + [d])[..|dados|] == dados;
  }

  /** The filter keeps exactly the entries whose key is selected. */
  lemma {:induction false} FiltroMembros(dados: seq<Dado>, chaves: set<string>)
    ensures forall x :: x in FiltroEm(dados, chaves) <==> x in dados && ChaveCategoria(x) in chaves
  {
    if dados != [] {
      var p, d := dados[..|dados| - 1], dados[|dados| - 1];
      assert dados == p + [d];
      FiltroMembros(p, chaves);
    }
  }

  /** Each bucket depends on exactly the entries mapped to its key, in their
      order: a key has a bucket iff some entry maps to it, and its value is that
      of the fold over those entries alone. */
  lemma {:induction false} BaldeIndependente(parse: Parser, dados: seq<Dado>, k: string)
    ensures Ler(Agrupado(parse, dados), k) == Acumulado(parse, FiltroEm(dados, {k}))
  {
    if dados != [] {
      var p, d := dados[..|dados| - 1], dados[|dados| - 1];
      assert dados == p + [d];
      BaldeIndependente(parse, p, k);
      FiltroAnexar(p, d, {k});
      assert Agrupado(parse, dados) == Acumular(parse, Agrupado(parse, p), d);
      if ChaveCategoria(d) == k {
        var f := FiltroEm(dados, {k});
        assert f == FiltroEm(p, {k}) + [d];
        assert f[..|f| - 1] == FiltroEm(p, {k}) && f[|f| - 1] == d;
      } else {
        assert FiltroEm(dados, {k}) == FiltroEm(p, {k});
      }
    }
  }

  /** The bucket keys are exactly the distinct keys of the entries: no bucket
      for an unused category and none missing. */
  lemma ChavesDoAgrupado(parse: Parser, dados: seq<Dado>)
    ensures Agrupado(parse, dados).Keys == set x | x in dados :: ChaveCategoria(x)
  {
    forall k
      ensures k in Agrupado(parse, dados) <==> k in set x | x in dados :: ChaveCategoria(x)
    {
      BaldeIndependente(parse, dados, k);
      FiltroMembros(dados, {k});
      var f := FiltroEm(dados, {k});
      if f != [] {
        assert f[0] in f;
      }
    }
  }

  /** The value of a bucket whose amounts all parse is their exact sum. */
  lemma {:induction false} AcumuladoFinito(parse: Parser, s: seq<Dado>)
    requires s != [] && TodosFinitos(parse, s)
    ensures Acumulado(parse, s) == Some(Finito(SomaReal(parse, s)))
  {
    var p := s[..|s| - 1];
    if p != [] {
      assert TodosFinitos(parse, p) by {
        assert forall i :: 0 <= i < |p| ==> p[i] == s[i];
      }
      AcumuladoFinito(parse, p);
    }
    assert ValorDe(parse, s[|s| - 1]).Finito?;
  }

  /** A NaN bucket is reset by the next entry of that bucket, because NaN is
      falsy for `|| 0`: the entries before it no longer count. */
  lemma AcumuladoDescartaNaN(parse: Parser, s: seq<Dado>, d: Dado)
    requires Acumulado(parse, s) == Some(NaN)
    ensures Acumulado(parse, s + [d]) == Some(ValorDe(parse, d))
  {
    assert (s + [d])[..|s|] == s;
  }

  /** Filtering keeps every amount finite. */
  lemma FiltroFinito(parse: Parser, dados: seq<Dado>, chaves: set<string>)
    requires TodosFinitos(parse, dados)
    ensures TodosFinitos(parse, FiltroEm(dados, chaves))
  {
    var f := FiltroEm(dados, chaves);
    FiltroMembros(dados, chaves);
    forall i | 0 <= i < |f|
      ensures ValorDe(parse, f[i]).Finito?
    {
      assert f[i] in f;
      var j :| 0 <= j < |dados| && dados[j] == f[i];
    }
  }

  /** When the amounts parse, each bucket holds the exact sum of the parsed
      amounts of the entries mapped to its key (an empty amount reading "0"). */
  lemma BaldeSoma(parse: Parser, dados: seq<Dado>, k: string)
    requires k in Agrupado(parse, dados)
    requires TodosFinitos(parse, FiltroEm(dados, {k}))
    ensures Agrupado(parse, dados)[k] == Finito(SomaReal(parse, FiltroEm(dados, {k})))
  {
    BaldeIndependente(parse, dados, k);
    AcumuladoFinito(parse, FiltroEm(dados, {k}));
  }

  // ---------------------------------------------------------------------------
  // The total of the buckets (app/planilha.tsx:43)
  // ---------------------------------------------------------------------------

  predicate SemRepeticao(ordem: seq<string>)
  {
    forall i, j :: 0 <= i < j < |ordem| ==> ordem[i] != ordem[j]
  }

  /** `ordem` lists every key of `chaves` exactly once. */
  predicate Enumera(ordem: seq<string>, chaves: set<string>)
  {
    SemRepeticao(ordem) && (forall k :: k in ordem ==> k in chaves) && (forall k :: k in chaves ==> k in ordem)
  }

  /** `Object.values(agrupado).reduce((sum, val) => sum + val, 0)`, listing the
      values in the order `ordem`. The source computes it and then uses it nowhere. */
  function TotalBaldes(agrupado: map<string, Numero>, ordem: seq<string>): Numero
    requires forall k :: k in ordem ==> k in agrupado
  {
    if ordem == [] then Finito(0.0)
    else Mais(TotalBaldes(agrupado, ordem[..|ordem| - 1]), agrupado[ordem[|ordem| - 1]])
  }

  /** The sum, key by key in the order `ordem`, of the entries of each key. */
  ghost function SomaPorChave(parse: Parser, dados: seq<Dado>, ordem: seq<string>): real
  {
    if ordem == [] then 0.0
    else SomaPorChave(parse, dados, ordem[..|ordem| - 1]) + SomaReal(parse, FiltroEm(dados, {ordem[|ordem| - 1]}))
  }

  /** Summing the entries of a set of keys plus one more key splits in two. */
  lemma {:induction false} SomaDividida(parse: Parser, dados: seq<Dado>, chaves: set<string>, k: string)
    requires k !in chaves
    ensures SomaReal(parse, FiltroEm(dados, chaves + {k})) ==
      SomaReal(parse, FiltroEm(dados, {k})) + SomaReal(parse, FiltroEm(dados, chaves))
  {
    if dados != [] {
      var p, d := dados[..|dados| - 1], dados[|dados| - 1];
      assert dados == p + [d];
      SomaDividida(parse, p, chaves, k);
      var v := Real(ValorDe(parse, d));
      SomaFiltroAnexar(parse, p, d, chaves + {k});
      SomaFiltroAnexar(parse, p, d, {k});
      SomaFiltroAnexar(parse, p, d, chaves);
    }
  }

  /** Appending one entry adds its amount to the filtered sum when its key is selected. */
  lemma SomaFiltroAnexar(parse: Parser, dados: seq<Dado>, d: Dado, chaves: set<string>)
    ensures SomaReal(parse, FiltroEm(dados + [d], chaves)) ==
      SomaReal(parse, FiltroEm(dados, chaves)) + (if ChaveCategoria(d) in chaves then Real(ValorDe(parse, d)) else 0.0)
  {
    FiltroAnexar(dados, d, chaves);
    if ChaveCategoria(d) in chaves {
      SomaRealAnexar(parse, FiltroEm(dados, chaves), d);
    } else {
      assert FiltroEm(dados + [d], chaves) == FiltroEm(dados, chaves);
    }
  }

  /** Summing key by key over distinct keys is summing the entries of those keys. */
  lemma {:induction false} SomaPorChaveFiltro(parse: Parser, dados: seq<Dado>, ordem: seq<string>)
    requires SemRepeticao(ordem)
    ensures SomaPorChave(parse, dados, ordem) == SomaReal(parse, FiltroEm(dados, set x | x in ordem))
  {
    if ordem == [] {
      assert (set x | x in ordem) == {};
      FiltroVazio(dados);
    } else {
      var r, k := ordem[..|ordem| - 1], ordem[|ordem| - 1];
      var chaves := set x | x in r;
      UltimaChave(ordem);
      SomaPorChaveFiltro(parse, dados, r);
      SomaDividida(parse, dados, chaves, k);
    }
  }

  /** Splitting the last key off a duplicate-free listing. */
  lemma UltimaChave(ordem: seq<string>)
    requires SemRepeticao(ordem) && ordem != []
    ensures var r, k := ordem[..|ordem| - 1], ordem[|ordem| - 1];
      SemRepeticao(r) && k !in (set x | x in r) && (set x | x in ordem) == (set x | x in r) + {k}
  {
    var r, k := ordem[..|ordem| - 1], ordem[|ordem| - 1];
    assert ordem == r + [k];
  }

  /** No key selects no entry. */
  lemma FiltroVazio(dados: seq<Dado>)
    ensures FiltroEm(dados, {}) == []
  {
  }

  /** A filter that every entry passes keeps the whole sequence. */
  lemma {:induction false} FiltroTudo(dados: seq<Dado>, chaves: set<string>)
    requires forall x :: x in dados ==> ChaveCategoria(x) in chaves
    ensures FiltroEm(dados, chaves) == dados
  {
    if dados != [] {
      var p, d := dados[..|dados| - 1], dados[|dados| - 1];
      assert dados == p + [d];
      assert forall x :: x in p ==> x in dados;
      FiltroTudo(p, chaves);
      assert d in dados;
      FiltroAnexar(p, d, chaves);
    }
  }

  /** With finite amounts, reducing the buckets in the order `ordem` gives the
      key-by-key sum. */
  lemma {:induction false} TotalBaldesPorChave(parse: Parser, dados: seq<Dado>, ordem: seq<string>)
    requires forall k :: k in ordem ==> k in Agrupado(parse, dados)
    requires TodosFinitos(parse, dados)
    ensures TotalBaldes(Agrupado(parse, dados), ordem) == Finito(SomaPorChave(parse, dados, ordem))
  {
    if ordem != [] {
      var r, k := ordem[..|ordem| - 1], ordem[|ordem| - 1];
      assert forall x :: x in r ==> x in ordem;
      TotalBaldesPorChave(parse, dados, r);
      FiltroFinito(parse, dados, {k});
      BaldeSoma(parse, dados, k);
    }
  }

  /** With every amount parsing, the total of the buckets (in any order) is the
      sum over all entries, i.e. what the main screen's footer shows. */
  lemma TotalIgualSomaDasEntradas(parse: Parser, dados: seq<Dado>, ordem: seq<string>)
    requires Enumera(ordem, Agrupado(parse, dados).Keys)
    requires TodosFinitos(parse, dados)
    ensures TotalBaldes(Agrupado(parse, dados), ordem) == Finito(SomaReal(parse, dados))
    ensures TotalBaldes(Agrupado(parse, dados), ordem) == Reduzir(parse, dados)
  {
    TotalBaldesPorChave(parse, dados, ordem);
    SomaPorChaveFiltro(parse, dados, ordem);
    FiltroCobre(parse, dados, ordem);
    ReduzirSoma(parse, dados);
  }

  /** Selecting every bucket key selects every entry. */
  lemma FiltroCobre(parse: Parser, dados: seq<Dado>, ordem: seq<string>)
    requires Enumera(ordem, Agrupado(parse, dados).Keys)
    ensures FiltroEm(dados, set x | x in ordem) == dados
  {
    ChavesDoAgrupado(parse, dados);
    FiltroTudo(dados, (set x | x in ordem));
  }

  // ---------------------------------------------------------------------------
  // Pie slices (app/planilha.tsx:45-57)
  // ---------------------------------------------------------------------------

  /** A pie slice as the chart receives it. */
  datatype Fatia = Fatia(name: string, population: Numero, color: string,
                         legendFontColor: string, legendFontSize: int)

  /** `cats[i]` is the first category whose id is `id`. */
  predicate PrimeiraCom(cats: seq<Categoria>, id: string, i: int)
  {
    0 <= i < |cats| && cats[i].id == id && forall j :: 0 <= j < i ==> cats[j].id != id
  }

  /** `categorias.find((c) => c.id === id)`: the first category with that id. */
  function Buscar(cats: seq<Categoria>, id: string): (r: Option<Categoria>)
    ensures r.None? <==> forall i :: 0 <= i < |cats| ==> cats[i].id != id
    ensures r.Some? ==> exists i :: PrimeiraCom(cats, id, i) && cats[i] == r.value
  {
    if cats == [] then None
    else if cats[0].id == id then Some(cats[0])
    else
      var r := Buscar(cats[1..], id);
      assert r.Some? ==> exists i :: PrimeiraCom(cats, id, i) && cats[i] == r.value by {
        if r.Some? {
          var i :| PrimeiraCom(cats[1..], id, i) && cats[1..][i] == r.value;
          assert PrimeiraCom(cats, id, i + 1);
        }
      }
      r
  }

  /** The category a bucket key resolves to (lines 46-48): a fixed label for
      'outros' (the literal in the source has no id), else the first match. */
  function CategoriaDaChave(k: string, cats: seq<Categoria>): Option<Categoria>
  {
    if k == Outros then Some(Categoria(Outros, "Outros", "#cccccc")) else Buscar(cats, k)
  }

  /** The slice of bucket `k` with value `valor` (lines 50-56). */
  function FatiaDe(k: string, valor: Numero, cats: seq<Categoria>): Fatia
  {
    var c := CategoriaDaChave(k, cats);
    Fatia(
      if c.Some? then OuTexto(c.value.descricao, "Desconhecida") else "Desconhecida",
      valor,
      if c.Some? then OuTexto(c.value.cor, "#ccc") else "#ccc",
      "#333",
      14)
  }

  /** The default bucket is always labelled 'Outros' in '#cccccc'. */
  lemma FatiaOutros(valor: Numero, cats: seq<Categoria>)
    ensures FatiaDe(Outros, valor, cats) == Fatia("Outros", valor, "#cccccc", "#333", 14)
  {
  }

  /** A bucket whose id is found takes the first matching category's description
      and colour, each falling back when empty. */
  lemma FatiaEncontrada(k: string, valor: Numero, cats: seq<Categoria>, i: int)
    requires k != Outros && PrimeiraCom(cats, k, i)
    ensures FatiaDe(k, valor, cats) ==
      Fatia(OuTexto(cats[i].descricao, "Desconhecida"), valor, OuTexto(cats[i].cor, "#ccc"), "#333", 14)
  {
    var r := Buscar(cats, k);
    var j :| PrimeiraCom(cats, k, j) && cats[j] == r.value;
    assert !(j < i) && !(i < j);
  }

  /** A bucket whose id matches no category is 'Desconhecida' in '#ccc'. */
  lemma FatiaDesconhecida(k: string, valor: Numero, cats: seq<Categoria>)
    requires k != Outros
    requires forall i :: 0 <= i < |cats| ==> cats[i].id != k
    ensures FatiaDe(k, valor, cats) == Fatia("Desconhecida", valor, "#ccc", "#333", 14)
  {
  }

  /** `Object.entries(agrupado).map(...)`, the buckets listed in the order `ordem`. */
  function Pizza(agrupado: map<string, Numero>, cats: seq<Categoria>, ordem: seq<string>): seq<Fatia>
    requires forall k :: k in ordem ==> k in agrupado
  {
    if ordem == [] then []
    else [FatiaDe(ordem[0], agrupado[ordem[0]], cats)] + Pizza(agrupado, cats, ordem[1..])
  }

  /** `Pizza` maps the keys one by one, in order. */
  lemma {:induction false} PizzaPorPosicao(agrupado: map<string, Numero>, cats: seq<Categoria>, ordem: seq<string>)
    requires forall k :: k in ordem ==> k in agrupado
    ensures |Pizza(agrupado, cats, ordem)| == |ordem|
    ensures forall i :: 0 <= i < |ordem| ==>
      Pizza(agrupado, cats, ordem)[i] == FatiaDe(ordem[i], agrupado[ordem[i]], cats)
  {
    if ordem != [] {
      var resto := ordem[1..];
      assert forall k :: k in resto ==> k in ordem;
      PizzaPorPosicao(agrupado, cats, resto);
      var p := Pizza(agrupado, cats, ordem);
      assert p == [FatiaDe(ordem[0], agrupado[ordem[0]], cats)] + Pizza(agrupado, cats, resto);
      forall i | 1 <= i < |ordem|
        ensures p[i] == FatiaDe(ordem[i], agrupado[ordem[i]], cats)
      {
        assert p[i] == Pizza(agrupado, cats, resto)[i - 1] && resto[i - 1] == ordem[i];
      }
    }
  }

  /** A duplicate-free listing is as long as the set it lists. */
  lemma {:induction false} CardinalidadeSemRepeticao(ordem: seq<string>)
    requires SemRepeticao(ordem)
    ensures |set x | x in ordem| == |ordem|
  {
    if ordem != [] {
      var r, k := ordem[..|ordem| - 1], ordem[|ordem| - 1];
      assert ordem == r + [k];
      assert SemRepeticao(r);
      CardinalidadeSemRepeticao(r);
      assert (set x | x in ordem) == (set x | x in r) + {k};
      assert k !in (set x | x in r);
    }
  }

  /** Exactly one slice per bucket: as many slices as buckets, the i-th slice is
      that of the i-th listed key and carries its bucket's value, and every
      bucket appears at exactly one position. */
  lemma PizzaUmaFatiaPorBalde(agrupado: map<string, Numero>, cats: seq<Categoria>, ordem: seq<string>)
    requires Enumera(ordem, agrupado.Keys)
    ensures var p := Pizza(agrupado, cats, ordem);
      && |p| == |ordem| == |agrupado|
      && (forall i :: 0 <= i < |p| ==> p[i] == FatiaDe(ordem[i], agrupado[ordem[i]], cats))
      && (forall k :: k in agrupado ==> exists i :: 0 <= i < |p| && ordem[i] == k && p[i].population == agrupado[k])
      && (forall i, j :: 0 <= i < j < |p| ==> ordem[i] != ordem[j])
  {
    PizzaPorPosicao(agrupado, cats, ordem);
    CardinalidadeSemRepeticao(ordem);
    assert (set x | x in ordem) == agrupado.Keys;
    forall k | k in agrupado
      ensures exists i :: 0 <= i < |ordem| && ordem[i] == k
    {
      assert k in ordem;
    }
  }

  // ---------------------------------------------------------------------------
  // Bar series (app/planilha.tsx:59-66) and the empty state (line 79)
  // ---------------------------------------------------------------------------

  /** One dataset of the bar chart. */
  datatype Serie = Serie(data: seq<Numero>)

  /** The bar chart's data: `{labels, datasets}`. */
  datatype Barras = Barras(labels: seq<string>, datasets: seq<Serie>)

  /** `pizza.map((p) => p.name)`. */
  function Nomes(pizza: seq<Fatia>): (r: seq<string>)
    ensures |r| == |pizza|
    ensures forall i :: 0 <= i < |pizza| ==> r[i] == pizza[i].name
  {
    if pizza == [] then [] else [pizza[0].name] + Nomes(pizza[1..])
  }

  /** `pizza.map((p) => p.population)`. */
  function Populacoes(pizza: seq<Fatia>): (r: seq<Numero>)
    ensures |r| == |pizza|
    ensures forall i :: 0 <= i < |pizza| ==> r[i] == pizza[i].population
  {
    if pizza == [] then [] else [pizza[0].population] + Populacoes(pizza[1..])
  }

  /** `barras`: the slice names followed by '' and the slice values followed by 0,
      in a single dataset. */
  function BarrasDe(pizza: seq<Fatia>): (b: Barras)
    ensures |b.labels| == |pizza| + 1 && b.labels[|pizza|] == ""
    ensures forall i :: 0 <= i < |pizza| ==> b.labels[i] == pizza[i].name
    ensures |b.datasets| == 1
    ensures |b.datasets[0].data| == |pizza| + 1 && b.datasets[0].data[|pizza|] == Finito(0.0)
    ensures forall i :: 0 <= i < |pizza| ==> b.datasets[0].data[i] == pizza[i].population
  {
    Barras(Nomes(pizza) + [""], [Serie(Populacoes(pizza) + [Finito(0.0)])])
  }

  /** The charts are drawn when there is a slice; otherwise the text
      "Nenhum dado disponível" is shown. */
  predicate MostraGraficos(pizza: seq<Fatia>)
  {
    |pizza| > 0
  }

  /** A worked instance: entries of 100 and 50 under "catA" and one of 25 with
      no category give the buckets {catA: 150, outros: 25}, totalling 175. */
  lemma ExemploAgrupamento()
    ensures var parse: Parser := s => if s == "100" then Finito(100.0) else if s == "50" then Finito(50.0)
                                      else if s == "25" then Finito(25.0) else NaN;
      var dados := [Dado("a", "100", Some("catA")), Dado("b", "50", Some("catA")), Dado("c", "25", None)];
      && Agrupado(parse, dados) == map["catA" := Finito(150.0), Outros := Finito(25.0)]
      && TotalBaldes(Agrupado(parse, dados), ["catA", Outros]) == Finito(175.0)
  {
    var parse: Parser := s => if s == "100" then Finito(100.0) else if s == "50" then Finito(50.0)
                              else if s == "25" then Finito(25.0) else NaN;
    var dados := [Dado("a", "100", Some("catA")), Dado("b", "50", Some("catA")), Dado("c", "25", None)];
    assert dados[..2] == [dados[0], dados[1]] && dados[..2][..1] == [dados[0]] && dados[..2][..1][..0] == [];
    assert Agrupado(parse, [dados[0]]) == map["catA" := Finito(100.0)];
    assert Agrupado(parse, dados[..2]) == map["catA" := Finito(150.0)];
    var m := Agrupado(parse, dados);
    var ordem := ["catA", Outros];
    assert ordem[..1] == ["catA"] && ordem[..1][..0] == [];
    assert TotalBaldes(m, ordem[..1]) == Finito(150.0);
  }

  // ---------------------------------------------------------------------------
  // agruparPorCategoria
  // ---------------------------------------------------------------------------

  /** `agruparPorCategoria`, with `ordem` the order in which `Object.entries`
      lists the buckets. */
  method AgruparPorCategoria(parse: Parser, dados: seq<Dado>, categorias: seq<Categoria>, ordem: seq<string>)
    returns (pizza: seq<Fatia>, barras: Barras)
    requires Enumera(ordem, Agrupado(parse, dados).Keys)
    ensures pizza == Pizza(Agrupado(parse, dados), categorias, ordem)
    ensures barras == BarrasDe(pizza)
    ensures |pizza| == |set x | x in dados :: ChaveCategoria(x)|
    ensures MostraGraficos(pizza) <==> dados != []
  {
    var agrupado: map<string, Numero> := map[];
    for i := 0 to |dados|
      invariant agrupado == Agrupado(parse, dados[..i])
    {
      var item := dados[i];
      var categoriaId := ChaveCategoria(item);
      var valor := ValorDe(parse, item);
      agrupado := agrupado[categoriaId := Mais(OuZero(Ler(agrupado, categoriaId)), valor)];
      assert dados[..i + 1][..i] == dados[..i];
    }
    assert dados[..|dados|] == dados;
    // The source also computes `total` (TotalBaldes) here and never uses it.
    pizza := Pizza(agrupado, categorias, ordem);
    barras := BarrasDe(pizza);
    PizzaUmaFatiaPorBalde(agrupado, categorias, ordem);
    ChavesDoAgrupado(parse, dados);
    if dados != [] {
      assert ChaveCategoria(dados[0]) in agrupado;
    }
  }
}
