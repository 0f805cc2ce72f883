/** The generic search `buscar<T>` of src/index.ts and what it sees of each record:
    the text of every field the record has. */
module Busca {
  import opened Tipos
  import opened Listas
  import opened Textos
  import opened Categorias
  import opened Produtos

  /** The `toString` of the non-text field values, which this model leaves
      uninterpreted: numbers, dates and the category kind. */
  datatype Formato = Formato(numero: real -> string, data: Data -> string, tipoCategoria: TipoCategoria -> string)

  /** Some field, lower-cased, contains the lower-cased term. */
  ghost predicate Casa(campos: seq<string>, termo: string) {
    exists k :: 0 <= k < |campos| && Contem(Minusculas(campos[k]), Minusculas(termo))
  }

  /** The inner loop of `buscar`: walks the fields and stops at the first that contains the term. */
  function AlgumCampoContem(campos: seq<string>, termo: string): (r: bool)
    ensures r == Casa(campos, termo)
    decreases |campos|
  {
    if campos == [] then false
    else if Contem(Minusculas(campos[0]), Minusculas(termo)) then true
    else
      assert forall k :: 0 < k < |campos| ==> campos[k] == campos[1..][k - 1];
      AlgumCampoContem(campos[1..], termo)
  }

  /** The filter callback of `buscar`. */
  function Criterio<T>(termo: string, campos: T -> seq<string>): T -> bool {
    x => AlgumCampoContem(campos(x), termo)
  }

  /** `buscar<T>`: the items of `lista`, in their order, with some field matching `termo`
      regardless of case. */
  function Buscar<T(!new)>(lista: seq<T>, termo: string, campos: T -> seq<string>): (r: seq<T>)
    ensures Subsequencia(r, lista)
    ensures forall x :: x in r <==> x in lista && Casa(campos(x), termo)
    ensures (forall x :: x in lista ==> !Casa(campos(x), termo)) ==> r == []
  {
    Filtrar(lista, Criterio(termo, campos))
  }

  /** A matching item occurs in the result as many times as in the list. */
  lemma BuscarMultiplicidade<T(!new)>(lista: seq<T>, termo: string, campos: T -> seq<string>)
    ensures forall x :: multiset(Buscar(lista, termo, campos))[x] ==
                        if Casa(campos(x), termo) then multiset(lista)[x] else 0
  {
    FiltrarMultiplicidade(lista, Criterio(termo, campos));
  }

  /** An empty term matches every item that has at least one field. */
  lemma BuscarTermoVazio<T(!new)>(lista: seq<T>, campos: T -> seq<string>)
    requires forall x :: x in lista ==> |campos(x)| > 0
    ensures Buscar(lista, "", campos) == lista
  {
    forall x | x in lista
      ensures Criterio("", campos)(x)
    {
      ContemVazioEProprio(Minusculas(campos(x)[0]));
    }
    FiltrarTodos(lista, Criterio("", campos));
  }

  /** Searching is insensitive to the case of the term. */
  lemma BuscarIgnoraCaixa<T(!new)>(lista: seq<T>, termo: string, campos: T -> seq<string>)
    ensures Buscar(lista, Minusculas(termo), campos) == Buscar(lista, termo, campos)
  {
    MinusculasIdempotente(termo);
    FiltrarExtensional(lista, Criterio(Minusculas(termo), campos), Criterio(termo, campos));
  }

  /** What `for (const prop in item)` visits in a category: every member it has,
      `dataAtualizacao` only when present. */
  function CamposCategoria(c: Categoria, fmt: Formato): (r: seq<string>)
    ensures c.nome in r && c.descricao in r
    ensures fmt.numero(c.id as real) in r && fmt.data(c.dataCriacao) in r
    ensures fmt.tipoCategoria(c.tipo) in r
    ensures c.dataAtualizacao.Some? ==> fmt.data(c.dataAtualizacao.value) in r
    ensures |r| == if c.dataAtualizacao.Some? then 6 else 5
  {
    [fmt.numero(c.id as real), c.nome, c.descricao, fmt.data(c.dataCriacao)]
    + (match c.dataAtualizacao case Some(d) => [fmt.data(d)] case None => [])
    + [fmt.tipoCategoria(c.tipo)]
  }

  /** What `for (const prop in item)` visits in a product: its nine members. */
  function CamposProduto(p: Produto, fmt: Formato): (r: seq<string>)
    ensures p.nome in r && p.descricao in r && p.tipo in r
    ensures fmt.numero(p.id as real) in r && fmt.numero(p.categoriaId as real) in r
    ensures fmt.numero(p.preco) in r && fmt.numero(p.quantidade as real) in r
    ensures fmt.data(p.dataCriacao) in r && fmt.data(p.dataAtualizacao) in r
    ensures |r| == 9
  {
    [fmt.numero(p.id as real), p.nome, p.descricao, fmt.numero(p.preco), fmt.numero(p.quantidade as real),
     fmt.numero(p.categoriaId as real), fmt.data(p.dataCriacao), fmt.data(p.dataAtualizacao), p.tipo]
  }

  function CamposDeCategoria(fmt: Formato): Categoria -> seq<string> {
    c => CamposCategoria(c, fmt)
  }

  function CamposDeProduto(fmt: Formato): Produto -> seq<string> {
    p => CamposProduto(p, fmt)
  }

  /** `buscarCategoria`: searching the categories by a name finds every category of that name. */
  lemma BuscarCategoriaPeloNome(cs: seq<Categoria>, c: Categoria, fmt: Formato)
    requires c in cs
    ensures c in Buscar(cs, c.nome, CamposDeCategoria(fmt))
  {
    var campos := CamposCategoria(c, fmt);
    var k :| 0 <= k < |campos| && campos[k] == c.nome;
    ContemVazioEProprio(Minusculas(c.nome));
    assert Casa(campos, c.nome);
  }

  /** `buscarProduto`: an empty term lists every product. */
  lemma BuscarProdutosTermoVazio(ps: seq<Produto>, fmt: Formato)
    ensures Buscar(ps, "", CamposDeProduto(fmt)) == ps
  {
    BuscarTermoVazio(ps, CamposDeProduto(fmt));
  }

  /** `buscarCategoria`: an empty term lists every category. */
  lemma BuscarCategoriasTermoVazio(cs: seq<Categoria>, fmt: Formato)
    ensures Buscar(cs, "", CamposDeCategoria(fmt)) == cs
  {
    BuscarTermoVazio(cs, CamposDeCategoria(fmt));
  }
}
