/** Value types shared by the records of the inventory (the module `./tipos` of the
    program, which is not part of this model, is reduced to what the core relies on). */
module Tipos {

  datatype Option<T> = None | Some(value: T)

  /** An identifier: a JavaScript number that the program only ever fills with
      counter values and compares with `===`. */
  type Id = int

  /** A JavaScript `Date`, reduced to its time value in milliseconds. */
  datatype Data = Data(milissegundos: int)

  /** `TipoCategoria`: the two members the program uses. */
  datatype TipoCategoria = Produto | Servico

  /** The string values of the enum `TipoProduto`, with the value of
      `TipoProduto.Eletronico`, which is one of them. */
  datatype TiposProduto = TiposProduto(valores: set<string>, eletronico: string)

  type Catalogo = t: TiposProduto | t.eletronico in t.valores
    witness TiposProduto({""}, "")
}
