# Inventory repository of the terminal inventory manager, in Dafny

The program is a terminal menu over an in-memory inventory. The inventory has
two insertion-ordered lists, `categorias` and `produtos`, and two identifier
counters, `categoriaIdCounter` and `produtoIdCounter`, which both start at 1.
This project models that state and the operations that change or search it:

- add, update and remove a category;
- add, update and remove a product;
- the generic case-insensitive search `buscar`.

Each operation is one call whose inputs (the answers to the prompts) are
already collected.

Modules, following the program's structure:

- `Tipos`: the shared value types. `Id` is an integer. A `Date` is reduced to
  its time value (`Data`). `TipoCategoria` has the two members the program uses.
  The string enum `TipoProduto` becomes a `Catalogo`: a set of values that
  contains the value of `Eletronico`.
- `Categorias`, `Produtos`: the records of src/categoria.ts and src/produto.ts.
  `Categoria.dataAtualizacao` is an `Option`. `Produto.dataAtualizacao` is required.
- `Listas`: the array methods the code calls (`filter`, `findIndex`, `some`) as
  functions on sequences, with lemmas about order and identifiers.
- `Textos`: `toLowerCase` and `includes`.
- `Busca`: `buscar<T>` over the text of every field of a record. Each field's
  `toString` is a parameter (`Formato`).
- `Repositorio`: the class `Inventario`. It holds the four pieces of module state
  as fields, and each operation is a method that `modifies this`.
  - `Valid()` is the invariant every method keeps. Identifiers strictly increase
    along each list and lie in `[1, counter)`, so each counter value is handed
    out once and never reused after a removal. No category ever carries a
    `dataAtualizacao`. Every product kind is a `TipoProduto` value.
  - `ReferenciasValidas()` says every product's `categoriaId` names an existing
    category. Every operation keeps it, except a product update that changes
    `categoriaId`.
  - `ValoresNaoNegativos()` says no price or quantity is negative. Every operation
    keeps it, except a product update that supplies a negative value.
  - `DecisaoRemocao` states the order of the checks of `removerCategoria`:
    existence, then dependents, then confirmation.
- `Cenarios`: client sessions that use only the method contracts. They cover
  removal blocked by a dependent product and then released, identifiers not
  reused after a removal, a rejected product addition, and the two updates.

The model follows the code where the code is weaker than one would expect:

- `atualizarCategoria` never sets `dataAtualizacao`, even when a field changes.
- `atualizarProduto` does not re-check that price and quantity are non-negative,
  and does not check that the new `categoriaId` exists. It always sets
  `dataAtualizacao`, even when every answer is blank.
- `removerProduto` never reports an unknown identifier.
- Nothing checks for a duplicate identifier. The counters make duplicates
  impossible, and `Valid()` proves it.
- A new product takes two separate readings of the clock, one for `dataCriacao`
  and one for `dataAtualizacao`. The two dates are separate parameters and are
  not assumed equal.
- Removal confirmation is the typed string compared after lower-casing with `"s"`.
  Exactly `"s"` and `"S"` confirm (`Textos.ConfirmacaoSomenteS`).

## Model

| member | source | states |
|---|---|---|
| `Listas.Filtrar` | src/index.ts:118-125 | `filter` keeps exactly the elements satisfying the predicate, as a subsequence of the input in its order |
| `Listas.FiltrarMultiplicidade` | src/index.ts:118-125 | every kept element occurs as often in the result as in the input, and the others not at all |
| `Listas.PrimeiroIndice` | src/index.ts:143 | `findIndex` gives -1 exactly when no element matches, and otherwise the first matching index |
| `Listas.Algum` | src/index.ts:204 | `some` holds exactly when some element satisfies the predicate |
| `Listas.FiltrarTodos` | src/index.ts:304 | filtering with a predicate every element satisfies returns the sequence unchanged |
| `Listas.FiltrarExtensional` | src/index.ts:118-125 | two predicates that agree on the elements present filter alike |
| `Listas.FiltrarPreservaIdsCrescentes` | src/index.ts:180 | filtering keeps identifiers strictly increasing along the list |
| `Listas.RemoverIdPresenteRemoveUm` | src/index.ts:180 | with strictly increasing identifiers, filtering out an identifier that occurs removes exactly one element |
| `Listas.RemoverIdAusenteNadaMuda` | src/index.ts:304 | filtering out an identifier that does not occur leaves the list unchanged |
| `Listas.SubstituirMesmoId` | src/index.ts:147-148 | replacing an element in place by one with the same identifier keeps identifiers increasing and the identifier set unchanged |
| `Textos.Minusculas` | src/index.ts:85 | `toLowerCase` keeps the length and lower-cases each character in place |
| `Textos.MinusculasIdempotente` | src/index.ts:120 | lower-casing twice is lower-casing once |
| `Textos.Contem` | src/index.ts:120 | `includes` holds exactly when the term occurs at some index of the string |
| `Textos.ContemVazioEProprio` | src/index.ts:120 | every string contains the empty string and itself |
| `Textos.ConfirmacaoSomenteS` | src/index.ts:179 | the removal confirmation accepts exactly "s" and "S" |
| `Busca.AlgumCampoContem` | src/index.ts:119-124 | the loop over the fields returns true exactly when some field, lower-cased, contains the lower-cased term |
| `Busca.Buscar` | src/index.ts:117-126 | the result is a subsequence of the list in its order; an item is in it exactly when some field matches regardless of case; no matching item gives an empty result |
| `Busca.BuscarMultiplicidade` | src/index.ts:117-126 | a matching item occurs in the result as often as in the list |
| `Busca.BuscarTermoVazio` | src/index.ts:117-126 | an empty term keeps every item that has at least one field |
| `Busca.BuscarIgnoraCaixa` | src/index.ts:120 | the result does not depend on the case of the term |
| `Busca.CamposCategoria` | src/categoria.ts:3-10 | the fields a category exposes to the search: all five members, and `dataAtualizacao` only when present |
| `Busca.CamposProduto` | src/produto.ts:3-13 | the fields a product exposes to the search: all nine members |
| `Busca.BuscarCategoriaPeloNome` | src/index.ts:127-129 | searching the categories by a category's name finds that category |
| `Busca.BuscarCategoriasTermoVazio` | src/index.ts:127-129 | searching the categories with an empty term lists them all |
| `Busca.BuscarProdutosTermoVazio` | src/index.ts:257-259 | searching the products with an empty term lists them all |
| `Repositorio.ParseTipoCategoria` | src/index.ts:84-92 | the kind is `Servico` exactly when the lower-cased text is "serviço"; any other text, recognised or not, gives `Produto` |
| `Repositorio.ParseTipoCategoriaIgnoraCaixa` | src/index.ts:85-87 | the category kind does not depend on the case of the text |
| `Repositorio.ParseTipoCategoriaExemplos` | src/index.ts:87-91 | "SERVIÇO" gives `Servico`; "Servico" without the cedilla falls back to `Produto` |
| `Repositorio.ParseTipoProduto` | src/index.ts:219-225 | the result is always a `TipoProduto` value: the text itself when it is one, `Eletronico` otherwise |
| `Repositorio.CategoriaAtualizada` | src/index.ts:147-148 | a blank name or description keeps the old value; identifier, kind, dates and `dataAtualizacao` are kept |
| `Repositorio.ProdutoAtualizado` | src/index.ts:280-285 | each blank answer keeps the old value and each other answer replaces it unchecked; identifier, kind and creation date are kept; `dataAtualizacao` becomes the given time |
| `Repositorio.RemocaoLiberada` | src/index.ts:164-181 | an existing category with no dependent products is removed when the answer is "s" or "S" |
| `Repositorio.RemocaoBloqueada` | src/index.ts:166-174 | an existing category with a dependent product is refused whatever the answer |
| `Repositorio.Associados` | src/index.ts:168-171 | the list of associated products is non-empty exactly when some product has that `categoriaId` |
| `Repositorio.RemoverCategoriaLivre` | src/index.ts:180 | removing a category without dependents keeps identifiers increasing, removes exactly one category and leaves every product reference resolvable |
| `Repositorio.Inventario.constructor` | src/index.ts:12-15 | the initial state: both lists empty, both counters at 1 |
| `Repositorio.Inventario.AdicionarCategoria` | src/index.ts:84-100 | returns the current counter and increments it; the identifier exceeds every existing one; the category is appended with the parsed kind and no `dataAtualizacao`; products untouched |
| `Repositorio.Inventario.AdicionarProduto` | src/index.ts:204-238 | an unknown category is reported first, whatever the amounts; then a negative price or quantity; on either, products and counter are unchanged; otherwise exactly one product with the given fields and the next identifier is appended |
| `Repositorio.Inventario.AtualizarCategoria` | src/index.ts:141-160 | an unknown identifier changes nothing; otherwise only the first category with that identifier changes, by the blank-keeps rule, and never gains a `dataAtualizacao`; products untouched |
| `Repositorio.Inventario.AtualizarProduto` | src/index.ts:271-300 | an unknown identifier changes nothing; otherwise only the first product with that identifier changes, by the blank-keeps rule, with `dataAtualizacao` set; categories untouched; non-negativity and references survive only when the answers respect them |
| `Repositorio.Inventario.RemoverCategoria` | src/index.ts:164-191 | the outcome follows the checks in order (existence, dependents, confirmation); only success changes the list; it then removes exactly the category with that identifier, keeps the others in order, and never touches products |
| `Repositorio.Inventario.RemoverProduto` | src/index.ts:302-309 | keeps exactly the products with a different identifier, in order; an unknown identifier changes nothing; a known one removes exactly one product; categories untouched |
| `Cenarios.RemocaoBloqueadaELiberada` | src/index.ts:164-191 | a category with a product is refused; once the product is removed it is removed and the list is empty |
| `Cenarios.IdentificadorNaoReutilizado` | src/index.ts:94 | after adding and removing category 1, the next category gets identifier 2 |
| `Cenarios.AdicaoDeProdutoRecusada` | src/index.ts:204-217 | an unknown category with negative amounts reports the category; a known one with a negative quantity reports the amount; nothing is added |
| `Cenarios.AtualizacaoDeProdutoSemValidacao` | src/index.ts:280-285 | a product update accepts a negative price and an unknown category and stamps the new date |
| `Cenarios.AtualizacaoDeCategoriaEmBranco` | src/index.ts:145-148 | a blank name keeps the name, a new description replaces the old, and no date is set |

## Left out

- Terminal I/O is left out: the readline prompts, the menu, `console.table`, and the `processarOpcao` dispatch loop with its callbacks. Each operation is one atomic call with its answers as parameters.
- `listarCategorias` and `listarProdutos` only print; the lists are the fields `categorias` and `produtos` themselves.
- `registrarErro` and the append to `erros.log` are filesystem I/O.
- The `try`/`catch` blocks are left out: nothing in the modelled logic throws.
- The async structure is left out: there is no concurrency.
- Number parsing is left out (`parseFloat`, `parseInt`, `isNaN`, the retry loop of `lerNumero`). Ids, quantities and category ids are integers, prices are reals, and NaN is never a value. A numeric update answer is an `Option`, where `None` stands for the blank string.
  - An unparsable id in `atualizarCategoria`, `atualizarProduto` or `removerProduto` would become NaN, which equals no identifier. That behaves like an unknown id.
  - A non-blank but unparsable numeric answer in `atualizarProduto` would store NaN. The model cannot express that.
- Repositorio.Inventario.AdicionarProduto: quantity and category id are integers, although the code reads both with `parseFloat` and so also accepts fractions. A fractional category id never matches a category.
- `new Date()` is left out: the clock readings are parameters.
- The `toString` of numbers, dates and the category kind inside `buscar` is left out: it is a `Formato` parameter. Strings render as themselves.
- The concrete members of `TipoProduto` and `TipoCategoria` are left out: the module `./tipos` is not part of this model. `TipoCategoria` has the two members the code names. `TipoProduto` is any set of strings that contains the value of `Eletronico`.
- Textos.Minusculas: `toLowerCase` is modelled for A–Z and for the Latin-1 capitals U+00C0–U+00DE except U+00D7, which covers "SERVIÇO". The case mappings of other scripts, and those that change a string's length, are not modelled.
- `for (const prop in item)` is modelled by the fixed field lists of `Busca.CamposCategoria` and `Busca.CamposProduto`. The model therefore depends on no enumeration order and sees no extra properties an object might carry.
