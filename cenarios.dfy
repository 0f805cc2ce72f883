/** Sessions of the inventory menu, written as clients of `Inventario`: each
    runs a few operations and states what the contracts alone let one conclude. */
module Cenarios {
  import opened Tipos
  import opened Textos
  import opened Categorias
  import opened Produtos
  import opened Repositorio

  const ELETRONICO: string := "Eletronico"

  function CatalogoExemplo(): (c: Catalogo)
    ensures c.eletronico == ELETRONICO
  {
    TiposProduto({ELETRONICO, "Alimento"}, ELETRONICO)
  }

  /** A category with a product cannot be removed; once the product is gone it can. */
  method RemocaoBloqueadaELiberada() returns (resultados: seq<Resultado>, restantes: seq<Categoria>)
    ensures resultados == [Ok, PossuiDependentes, Ok]
    ensures restantes == []
  {
    var inv := new Inventario(CatalogoExemplo());
    var idCategoria := inv.AdicionarCategoria("Tools", "", "Produto", Data(0));
    assert inv.categorias[0] in inv.categorias && inv.categorias[0].id == 1;
    var adicao := inv.AdicionarProduto("Hammer", "", 10.0, 5, idCategoria, "Martelo", Data(0), Data(0));
    assert adicao == Ok;
    var martelo := inv.produtos[0];
    assert martelo.id == 1 && martelo.categoriaId == 1 && martelo in inv.produtos;
    var ferramentas := inv.categorias[0];
    assert inv.categorias == [ferramentas] && ferramentas.id == 1;
    RemocaoBloqueada(inv.categorias, inv.produtos, 1, "s");
    var bloqueada := inv.RemoverCategoria(idCategoria, "s");
    inv.RemoverProduto(1);
    assert inv.produtos == [] && inv.categorias == [ferramentas];
    RemocaoLiberada(inv.categorias, inv.produtos, 1, "s");
    var liberada := inv.RemoverCategoria(idCategoria, "s");
    resultados, restantes := [adicao, bloqueada, liberada], inv.categorias;
  }

  /** An identifier is never handed out twice, even after the category that had it is removed. */
  method IdentificadorNaoReutilizado() returns (primeiro: Id, segundo: Id)
    ensures primeiro == 1 && segundo == 2
  {
    var inv := new Inventario(CatalogoExemplo());
    primeiro := inv.AdicionarCategoria("A", "", "x", Data(0));
    ConfirmacaoSomenteS("S");
    var r := inv.RemoverCategoria(primeiro, "S");
    assert r == Ok;
    segundo := inv.AdicionarCategoria("B", "", "x", Data(1));
  }

  /** `adicionarProduto` checks the category before the amounts, and adds nothing when either fails. */
  method AdicaoDeProdutoRecusada() returns (semCategoria: Resultado, negativo: Resultado, quantos: nat)
    ensures semCategoria == CategoriaNaoEncontrada && negativo == ValorNegativo
    ensures quantos == 0
  {
    var inv := new Inventario(CatalogoExemplo());
    var id := inv.AdicionarCategoria("Livros", "", "SERVI\U{C7}O", Data(0));
    ParseTipoCategoriaExemplos();
    assert inv.categorias[0].tipo == TipoCategoria.Servico;
    semCategoria := inv.AdicionarProduto("x", "", -1.0, -1, id + 1, "", Data(0), Data(0));
    negativo := inv.AdicionarProduto("x", "", 1.0, -1, id, "", Data(0), Data(0));
    quantos := |inv.produtos|;
  }

  /** `atualizarProduto` re-checks nothing: a negative price and an unknown category
      are accepted, so the two properties `adicionarProduto` guards are lost. */
  method AtualizacaoDeProdutoSemValidacao() returns (r: Resultado, p: Produto)
    ensures r == Ok && p.preco == -1.0 && p.categoriaId == 99 && p.dataAtualizacao == Data(5)
  {
    var inv := new Inventario(CatalogoExemplo());
    var idCategoria := inv.AdicionarCategoria("Livros", "", "", Data(0));
    var adicao := inv.AdicionarProduto("x", "", 1.0, 1, idCategoria, ELETRONICO, Data(0), Data(0));
    assert adicao == Ok && inv.produtos[0].id == 1;
    r := inv.AtualizarProduto(1, "", "", Some(-1.0), None, Some(99), Data(5));
    p := inv.produtos[0];
    assert p in inv.produtos;
    assert !inv.ValoresNaoNegativos();
    assert !inv.ReferenciasValidas();
  }

  /** `atualizarCategoria` with a blank name keeps the name, and stamps no date. */
  method AtualizacaoDeCategoriaEmBranco() returns (r: Resultado, c: Categoria)
    ensures r == Ok && c.nome == "Livros" && c.descricao == "Usados" && c.dataAtualizacao == None
  {
    var inv := new Inventario(CatalogoExemplo());
    var id := inv.AdicionarCategoria("Livros", "Novos", "", Data(0));
    r := inv.AtualizarCategoria(id, "", "Usados");
    c := inv.categorias[0];
  }
}
