/** The record `Categoria` (src/categoria.ts). */
module Categorias {
  import opened Tipos

  /** `dataAtualizacao` is the optional member `dataAtualizacao?: Date`. */
  datatype Categoria = Categoria(
    id: Id,
    nome: string,
    descricao: string,
    dataCriacao: Data,
    dataAtualizacao: Option<Data>,
    tipo: TipoCategoria)
}
