/** The in-memory inventory of src/index.ts: the two insertion-ordered lists
    `categorias` and `produtos`, the two identifier counters, and the operations
    that change them, each taken as one call with its inputs already read. */
module Repositorio {
  import opened Tipos
  import opened Listas
  import opened Textos
  import opened Categorias
  import opened Produtos

  /** What an operation reports back to the menu. */
  datatype Resultado =
    | Ok
    | CategoriaNaoEncontrada  // adicionarProduto: no category has the given id
    | ValorNegativo           // adicionarProduto: negative price or quantity
    | PossuiDependentes       // removerCategoria: some product refers to the category
    | Cancelado               // removerCategoria: the answer to "(s/n)" was not "s"
    | NaoEncontrado           // no element has the given id

  /** The category kind names, compared after lower-casing. */
  const NOME_PRODUTO: string := "produto"
  const NOME_SERVICO: string := "servi\U{E7}o"

  /** The kind typed for a new category; any other text is taken as `Produto`. */
  function ParseTipoCategoria(texto: string): (r: TipoCategoria)
    ensures r == TipoCategoria.Servico <==> Minusculas(texto) == NOME_SERVICO
  {
    if Minusculas(texto) == NOME_PRODUTO then TipoCategoria.Produto
    else if Minusculas(texto) == NOME_SERVICO then TipoCategoria.Servico
    else TipoCategoria.Produto
  }

  /** The category kind does not depend on the case of what was typed. */
  lemma ParseTipoCategoriaIgnoraCaixa(texto: string)
    ensures ParseTipoCategoria(Minusculas(texto)) == ParseTipoCategoria(texto)
  {
    MinusculasIdempotente(texto);
  }

  /** Typed in capitals, "SERVIÇO" gives `Servico`; without its cedilla it is not
      recognised and gives `Produto`. */
  lemma ParseTipoCategoriaExemplos()
    ensures ParseTipoCategoria("SERVI\U{C7}O") == TipoCategoria.Servico
    ensures ParseTipoCategoria("Servico") == TipoCategoria.Produto
  {
    assert Minusculas("SERVI\U{C7}O") == NOME_SERVICO;
    assert Minusculas("Servico")[5] == 'c';
  }

  /** The kind typed for a new product: a value of `TipoProduto` exactly as
      written, anything else `TipoProduto.Eletronico`. */
  function ParseTipoProduto(texto: string, catalogo: Catalogo): (r: string)
    ensures r in catalogo.valores
    ensures texto in catalogo.valores ==> r == texto
    ensures texto !in catalogo.valores ==> r == catalogo.eletronico
  {
    if texto in catalogo.valores then texto else catalogo.eletronico
  }

  /** The "blank keeps the old value" rule of the updates (`if (nome) x.nome = nome`). */
  function Mesclado(atual: string, novo: string): string {
    if novo == "" then atual else novo
  }

  /** The same rule for a number read as text: `None` is the blank answer. */
  function MescladoNumero<T>(atual: T, novo: Option<T>): T {
    match novo
    case None => atual
    case Some(v) => v
  }

  /** A category after the answers of `atualizarCategoria`: a non-blank name or
      description replaces the old one; nothing else changes, `dataAtualizacao` included. */
  function CategoriaAtualizada(c: Categoria, nome: string, descricao: string): (r: Categoria)
    ensures r.id == c.id && r.tipo == c.tipo && r.dataCriacao == c.dataCriacao
    ensures r.dataAtualizacao == c.dataAtualizacao
    ensures r.nome == (if nome == "" then c.nome else nome)
    ensures r.descricao == (if descricao == "" then c.descricao else descricao)
  {
    c.(nome := Mesclado(c.nome, nome), descricao := Mesclado(c.descricao, descricao))
  }

  /** A product after the answers of `atualizarProduto`: each answered field
      replaced, identifier, kind and creation date kept, `dataAtualizacao` set to `agora`. */
  function ProdutoAtualizado(p: Produto, nome: string, descricao: string, preco: Option<real>,
                             quantidade: Option<int>, categoriaId: Option<Id>, agora: Data): (r: Produto)
    ensures r.id == p.id && r.tipo == p.tipo && r.dataCriacao == p.dataCriacao
    ensures r.dataAtualizacao == agora
    ensures r.nome == (if nome == "" then p.nome else nome)
    ensures r.descricao == (if descricao == "" then p.descricao else descricao)
    ensures r.preco == (if preco.None? then p.preco else preco.value)
    ensures r.quantidade == (if quantidade.None? then p.quantidade else quantidade.value)
    ensures r.categoriaId == (if categoriaId.None? then p.categoriaId else categoriaId.value)
  {
    Produtos.Produto(p.id, Mesclado(p.nome, nome), Mesclado(p.descricao, descricao),
                     MescladoNumero(p.preco, preco), MescladoNumero(p.quantidade, quantidade),
                     MescladoNumero(p.categoriaId, categoriaId), p.dataCriacao, agora, p.tipo)
  }

  function IdCategoria(c: Categoria): Id { c.id }
  function IdProduto(p: Produto): Id { p.id }
  function CategoriaDoProduto(p: Produto): Id { p.categoriaId }

  /** The order of the checks of `removerCategoria`: existence, then dependents,
      then confirmation. */
  ghost function DecisaoRemocao(cs: seq<Categoria>, ps: seq<Produto>, id: Id, confirmacao: string): Resultado {
    if forall c :: c in cs ==> c.id != id then NaoEncontrado
    else if exists p :: p in ps && p.categoriaId == id then PossuiDependentes
    else if Minusculas(confirmacao) == "s" then Ok
    else Cancelado
  }

  /** Once no product refers to an existing category, answering "s" or "S" removes it. */
  lemma RemocaoLiberada(cs: seq<Categoria>, ps: seq<Produto>, id: Id, confirmacao: string)
    requires exists c :: c in cs && c.id == id
    requires forall p :: p in ps ==> p.categoriaId != id
    requires confirmacao == "s" || confirmacao == "S"
    ensures DecisaoRemocao(cs, ps, id, confirmacao) == Ok
  {
    ConfirmacaoSomenteS(confirmacao);
  }

  /** A category some product refers to is never removed, whatever the answer. */
  lemma RemocaoBloqueada(cs: seq<Categoria>, ps: seq<Produto>, id: Id, confirmacao: string)
    requires exists c :: c in cs && c.id == id
    requires exists p :: p in ps && p.categoriaId == id
    ensures DecisaoRemocao(cs, ps, id, confirmacao) == PossuiDependentes
  {
  }

  /** `produtosAssociados` is non-empty exactly when some product refers to the category. */
  lemma Associados(ps: seq<Produto>, id: Id)
    ensures |Filtrar(ps, IdIgual(CategoriaDoProduto, id))| > 0 <==> exists p :: p in ps && p.categoriaId == id
  {
    var associados := Filtrar(ps, IdIgual(CategoriaDoProduto, id));
    if |associados| > 0 {
      assert associados[0] in associados;
      assert CategoriaDoProduto(associados[0]) == associados[0].categoriaId;
    }
    if exists p :: p in ps && p.categoriaId == id {
      var p :| p in ps && p.categoriaId == id;
      assert CategoriaDoProduto(p) == id;
      assert p in associados;
    }
  }

  /** Removing a category no product refers to: the identifiers stay increasing,
      exactly one category goes, and every reference stays resolvable. */
  lemma RemoverCategoriaLivre(cs: seq<Categoria>, ps: seq<Produto>, id: Id)
    requires IdsCrescentes(cs, IdCategoria)
    requires exists c :: c in cs && c.id == id
    requires forall p :: p in ps ==> p.categoriaId != id
    ensures var r := Filtrar(cs, IdDiferente(IdCategoria, id));
      && IdsCrescentes(r, IdCategoria)
      && |r| == |cs| - 1
      && forall p :: p in ps && p.categoriaId in Ids(cs, IdCategoria) ==> p.categoriaId in Ids(r, IdCategoria)
  {
    var r := Filtrar(cs, IdDiferente(IdCategoria, id));
    FiltrarPreservaIdsCrescentes(cs, IdDiferente(IdCategoria, id), IdCategoria);
    RemoverIdPresenteRemoveUm(cs, IdCategoria, id);
    forall p | p in ps && p.categoriaId in Ids(cs, IdCategoria)
      ensures p.categoriaId in Ids(r, IdCategoria)
    {
      var c :| c in cs && IdCategoria(c) == p.categoriaId;
      assert c in r;
    }
  }

  class Inventario {
    /** The values of `TipoProduto`. */
    const catalogo: Catalogo
    var categorias: seq<Categoria>
    var produtos: seq<Produto>
    /** `produtoIdCounter`, `categoriaIdCounter`: the next identifier to hand out. */
    var proximoIdProduto: nat
    var proximoIdCategoria: nat

    /** The invariant every operation keeps: identifiers come from the counters,
        so they increase along each list and lie below the counter; no category
        ever gets a `dataAtualizacao`; every product kind is a `TipoProduto`. */
    ghost predicate Valid()
      reads this
    {
      && 1 <= proximoIdCategoria && 1 <= proximoIdProduto
      && IdsCrescentes(categorias, IdCategoria)
      && (forall c :: c in categorias ==> 1 <= c.id < proximoIdCategoria)
      && IdsCrescentes(produtos, IdProduto)
      && (forall p :: p in produtos ==> 1 <= p.id < proximoIdProduto)
      && (forall c :: c in categorias ==> c.dataAtualizacao.None?)
      && (forall p :: p in produtos ==> p.tipo in catalogo.valores)
    }

    /** Every product refers to an existing category. */
    ghost predicate ReferenciasValidas()
      reads this
    {
      forall p :: p in produtos ==> p.categoriaId in Ids(categorias, IdCategoria)
    }

    /** No product has a negative price or quantity. */
    ghost predicate ValoresNaoNegativos()
      reads this
    {
      forall p :: p in produtos ==> p.preco >= 0.0 && p.quantidade >= 0
    }

    /** The module state at start-up: empty lists, both counters at 1. */
    constructor (catalogo: Catalogo)
      ensures Valid() && this.catalogo == catalogo
      ensures categorias == [] && produtos == []
      ensures proximoIdProduto == 1 && proximoIdCategoria == 1
      ensures ReferenciasValidas() && ValoresNaoNegativos()
    {
      this.catalogo := catalogo;
      categorias := [];
      produtos := [];
      proximoIdProduto := 1;
      proximoIdCategoria := 1;
    }

    /** `adicionarCategoria`: appends a category with the next identifier. */
    method AdicionarCategoria(nome: string, descricao: string, tipo: string, agora: Data) returns (id: Id)
      requires Valid()
      modifies this
      ensures Valid()
      ensures id == old(proximoIdCategoria) && proximoIdCategoria == id + 1
      ensures forall c :: c in old(categorias) ==> c.id < id
      ensures categorias == old(categorias) + [Categoria(id, nome, descricao, agora, None, ParseTipoCategoria(tipo))]
      ensures produtos == old(produtos) && proximoIdProduto == old(proximoIdProduto)
      ensures old(ReferenciasValidas()) ==> ReferenciasValidas()
    {
      var tipoCategoria := ParseTipoCategoria(tipo);
      id := proximoIdCategoria;
      proximoIdCategoria := proximoIdCategoria + 1;
      categorias := categorias + [Categoria(id, nome, descricao, agora, None, tipoCategoria)];
    }

    /** `adicionarProduto`: the category must exist, then price and quantity must
        not be negative; only then is an identifier taken and the product appended.
        `criacao` and `atualizacao` are the two separate readings of the clock. */
    method AdicionarProduto(nome: string, descricao: string, preco: real, quantidade: int,
                            categoriaId: Id, tipo: string, criacao: Data, atualizacao: Data)
      returns (r: Resultado)
      requires Valid()
      modifies this
      ensures Valid()
      ensures r == Ok || r == CategoriaNaoEncontrada || r == ValorNegativo
      ensures r == CategoriaNaoEncontrada <==> forall c :: c in old(categorias) ==> c.id != categoriaId
      ensures r == ValorNegativo <==>
        (exists c :: c in old(categorias) && c.id == categoriaId) && (preco < 0.0 || quantidade < 0)
      ensures r != Ok ==> produtos == old(produtos) && proximoIdProduto == old(proximoIdProduto)
      ensures r == Ok ==>
        && proximoIdProduto == old(proximoIdProduto) + 1
        && (forall p :: p in old(produtos) ==> p.id < old(proximoIdProduto))
        && produtos == old(produtos) + [Produtos.Produto(old(proximoIdProduto), nome, descricao, preco, quantidade,
                                                         categoriaId, criacao, atualizacao, ParseTipoProduto(tipo, catalogo))]
      ensures categorias == old(categorias) && proximoIdCategoria == old(proximoIdCategoria)
      ensures old(ReferenciasValidas()) ==> ReferenciasValidas()
      ensures old(ValoresNaoNegativos()) ==> ValoresNaoNegativos()
    {
      var categoriaExiste := Algum(categorias, IdIgual(IdCategoria, categoriaId));
      if !categoriaExiste {
        return CategoriaNaoEncontrada;
      }
      if preco < 0.0 || quantidade < 0 {
        return ValorNegativo;
      }
      var tipoProduto := ParseTipoProduto(tipo, catalogo);
      var id := proximoIdProduto;
      proximoIdProduto := proximoIdProduto + 1;
      produtos := produtos + [Produtos.Produto(id, nome, descricao, preco, quantidade, categoriaId,
                                               criacao, atualizacao, tipoProduto)];
      r := Ok;
    }

    /** `atualizarCategoria`: at the first category with the identifier, a non-blank
        name or description replaces the old one; `dataAtualizacao` is never set. */
    method AtualizarCategoria(id: Id, nome: string, descricao: string) returns (r: Resultado)
      requires Valid()
      modifies this
      ensures Valid()
      ensures r == Ok || r == NaoEncontrado
      ensures r == NaoEncontrado <==> forall c :: c in old(categorias) ==> c.id != id
      ensures r == NaoEncontrado ==> categorias == old(categorias)
      ensures r == Ok ==>
        var i := PrimeiroIndice(old(categorias), IdIgual(IdCategoria, id));
        && 0 <= i && old(categorias)[i].id == id
        && categorias == old(categorias)[i := CategoriaAtualizada(old(categorias)[i], nome, descricao)]
      ensures produtos == old(produtos)
      ensures proximoIdProduto == old(proximoIdProduto) && proximoIdCategoria == old(proximoIdCategoria)
      ensures old(ReferenciasValidas()) ==> ReferenciasValidas()
    {
      var i := PrimeiroIndice(categorias, IdIgual(IdCategoria, id));
      if i == -1 {
        return NaoEncontrado;
      }
      var c := CategoriaAtualizada(categorias[i], nome, descricao);
      SubstituirMesmoId(categorias, i, c, IdCategoria);
      assert categorias[i] in categorias;
      categorias := categorias[i := c];
      r := Ok;
    }

    /** `atualizarProduto`: at the first product with the identifier, every non-blank
        answer replaces the old value, with no check of sign or category, and
        `dataAtualizacao` is always set to `agora`. */
    method AtualizarProduto(id: Id, nome: string, descricao: string, preco: Option<real>,
                            quantidade: Option<int>, categoriaId: Option<Id>, agora: Data)
      returns (r: Resultado)
      requires Valid()
      modifies this
      ensures Valid()
      ensures r == Ok || r == NaoEncontrado
      ensures r == NaoEncontrado <==> forall p :: p in old(produtos) ==> p.id != id
      ensures r == NaoEncontrado ==> produtos == old(produtos)
      ensures r == Ok ==>
        var i := PrimeiroIndice(old(produtos), IdIgual(IdProduto, id));
        && 0 <= i && old(produtos)[i].id == id
        && produtos == old(produtos)[i := ProdutoAtualizado(old(produtos)[i], nome, descricao, preco, quantidade, categoriaId, agora)]
      ensures categorias == old(categorias)
      ensures proximoIdProduto == old(proximoIdProduto) && proximoIdCategoria == old(proximoIdCategoria)
      ensures (old(ValoresNaoNegativos()) && (preco.Some? ==> preco.value >= 0.0)
               && (quantidade.Some? ==> quantidade.value >= 0)) ==> ValoresNaoNegativos()
      ensures old(ReferenciasValidas()) && categoriaId.None? ==> ReferenciasValidas()
    {
      var i := PrimeiroIndice(produtos, IdIgual(IdProduto, id));
      if i == -1 {
        return NaoEncontrado;
      }
      var p := ProdutoAtualizado(produtos[i], nome, descricao, preco, quantidade, categoriaId, agora);
      SubstituirMesmoId(produtos, i, p, IdProduto);
      assert produtos[i] in produtos;
      produtos := produtos[i := p];
      r := Ok;
    }

    /** `removerCategoria`: refused when no category has the identifier, then when
        some product refers to it, then unless the answer is "s" in either case;
        otherwise the category leaves the list and the rest keep their order. */
    method RemoverCategoria(id: Id, confirmacao: string) returns (r: Resultado)
      requires Valid()
      modifies this
      ensures Valid()
      ensures r == DecisaoRemocao(old(categorias), produtos, id, confirmacao)
      ensures r != Ok ==> categorias == old(categorias)
      ensures r == Ok ==>
        && (forall c :: c in categorias <==> c in old(categorias) && c.id != id)
        && Subsequencia(categorias, old(categorias))
        && |categorias| == |old(categorias)| - 1
      ensures produtos == old(produtos)
      ensures proximoIdProduto == old(proximoIdProduto) && proximoIdCategoria == old(proximoIdCategoria)
      ensures old(ReferenciasValidas()) ==> ReferenciasValidas()
    {
      var i := PrimeiroIndice(categorias, IdIgual(IdCategoria, id));
      if i == -1 {
        return NaoEncontrado;
      }
      var categoria := categorias[i];
      assert IdCategoria(categoria) == categoria.id;
      assert categoria in categorias && categoria.id == id;
      var associados := Filtrar(produtos, IdIgual(CategoriaDoProduto, categoria.id));
      Associados(produtos, id);
      if |associados| > 0 {
        return PossuiDependentes;
      }
      if Minusculas(confirmacao) == "s" {
        RemoverCategoriaLivre(categorias, produtos, id);
        categorias := Filtrar(categorias, IdDiferente(IdCategoria, id));
        r := Ok;
      } else {
        r := Cancelado;
      }
    }

    /** `removerProduto`: keeps the products whose identifier differs, in order;
        an unknown identifier changes nothing and is not reported. */
    method RemoverProduto(id: Id)
      requires Valid()
      modifies this
      ensures Valid()
      ensures forall p :: p in produtos <==> p in old(produtos) && p.id != id
      ensures Subsequencia(produtos, old(produtos))
      ensures (forall p :: p in old(produtos) ==> p.id != id) ==> produtos == old(produtos)
      ensures (exists p :: p in old(produtos) && p.id == id) ==> |produtos| == |old(produtos)| - 1
      ensures categorias == old(categorias)
      ensures proximoIdProduto == old(proximoIdProduto) && proximoIdCategoria == old(proximoIdCategoria)
      ensures old(ReferenciasValidas()) ==> ReferenciasValidas()
      ensures old(ValoresNaoNegativos()) ==> ValoresNaoNegativos()
    {
      ghost var antes := produtos;
      produtos := Filtrar(produtos, IdDiferente(IdProduto, id));
      FiltrarPreservaIdsCrescentes(antes, IdDiferente(IdProduto, id), IdProduto);
      if forall p :: p in antes ==> p.id != id {
        RemoverIdAusenteNadaMuda(antes, IdProduto, id);
      } else {
        RemoverIdPresenteRemoveUm(antes, IdProduto, id);
      }
    }
  }
}
