/** The record `Produto` (src/produto.ts). */
module Produtos {
  import opened Tipos

  /** `preco` and `quantidade` are plain numbers: nothing in the type keeps them
      non-negative. `categoriaId` refers to a `Categoria.id`; `tipo` is a value of
      the string enum `TipoProduto`. Unlike a category, `dataAtualizacao` is required. */
  datatype Produto = Produto(
    id: Id,
    nome: string,
    descricao: string,
    preco: real,
    quantidade: int,
    categoriaId: Id,
    dataCriacao: Data,
    dataAtualizacao: Data,
    tipo: string)
}
