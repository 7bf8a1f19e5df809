# lojaestoque core, in Dafny

A model of the domain and repository layers of `lojaestoque`, a Go inventory and
point-of-sale backend. The model covers:

- **`Decimal`**: the nullable money wrapper (`internal/domain/decimal.go`), with its JSON
  and SQL encodings and explicit null handling. The apd decimal beneath it is an abstract
  type. Its parsing, printing and sign are the fields of an `Apd` value that every
  operation receives.
- **`Produto`** (`internal/domain/produto.go`): the constructor, the ordered five-check
  validation, and three setters that check only their own field. The setters mutate a
  `ProdutoRef` in place.
- **The product repository** (`internal/repository/produto_repository.go`): a class over
  an in-memory `produtos` table with an id counter. `Save` inserts, or merges by
  (supplier id, supplier code). `Delete` reports `NoRows` when nothing was removed.
  `Update` rewrites by key. `Find` builds the filtered, paged query and runs the row loop.
- **The sales repository** (`internal/repository/vendas_repository.go`): `SalvarVenda`
  inserts the header, then one batched insert of all items built in a loop, inside a
  transaction. The transaction is a snapshot that `Rollback` restores. The repository also
  covers `BuscarVendas`'s query and `DeletarVenda`.
- **The client repository** (`internal/repository/cliente_repository.go`): `BuscarClientes`'s
  query and row loop, and `AtualizarCliente`'s SET list.
- **Paging** (`internal/middleware/pagination.go`): the `page`/`limit` defaulting rule, and
  the offset the handlers compute from it.

How the store is represented:

- **SQL text** is a sequence of tokens, words and `?` placeholders (`Sql.Query`).
  "Arguments match placeholders" is therefore a count (`Sql.WellFormed`). `Sql.Render`
  gives the text.
- **The three search operations** share one WHERE/LIMIT tail (`Sql.PagedStatement`) and
  one abort-on-error row loop (`Sql.Collect`).
- **Store failures** are parameters. `Some(msg)` makes that call fail with
  `StoreFailure(msg)`.
- **Query answers** are a parameter mapping the statement sent to the rows returned, each
  row as its scan outcome.

## Model

| member | source | states |
|---|---|---|
| Sql.LikePattern | internal/repository/produto_repository.go:78 | the filter argument is the value with one `%` before and one after it, and nothing else |
| Sql.AppendCondition | internal/repository/produto_repository.go:76-79 | appending one filter adds its clause to the clauses and its argument to the arguments, keeping the two lists in step |
| Sql.PagedStatement | internal/repository/produto_repository.go:97-101 | the shared tail adds ` WHERE ` and the AND-joined clauses only when some clause exists, then ` LIMIT ? OFFSET ?`, and appends `limit` and `offset` to the arguments |
| Sql.PagedShape | internal/repository/produto_repository.go:97-101 | if each clause has one placeholder and the base has none, the statement has one argument per placeholder and ends with `limit`, `offset` |
| Sql.PagedWhere | internal/repository/produto_repository.go:97-99 | the WHERE part is present exactly when at least one filter is |
| Sql.Collect | internal/repository/produto_repository.go:109-134 | the row loop converts every row in order. The first failing row abandons the read: no partial list, and that row's error is returned |
| Sql.RenderConcat | internal/repository/cliente_repository.go:101-103 | the text of a concatenation is the concatenation of the texts, as `sql +=` builds it |
| Decimals.ParseText | internal/domain/decimal.go:44-48 | `SetString` succeeds exactly when `parse` does, and the result holds the parsed value |
| Decimals.MarshalJSON | internal/domain/decimal.go:18-23 | an absent value is the token `null` and nothing else is. A present one is its string form in double quotes |
| Decimals.Value | internal/domain/decimal.go:53-58 | an absent value becomes nil and nothing else does. A present one becomes its string form |
| Decimals.UnmarshalResult | internal/domain/decimal.go:26-50 | exactly `null` gives absent. A JSON string gives what parsing it gives. Input that is neither a JSON string nor a JSON number is an error |
| Decimals.ScanResult | internal/domain/decimal.go:61-83 | nil gives absent and nothing else does. A string and a byte slice are both parsed. Any other driver type is the type error |
| Decimals.BytesToString | internal/domain/decimal.go:72 | `string(v)` keeps one character per byte |
| Decimals.UnmarshalQuoted | internal/domain/decimal.go:32-49 | decoding `"s"` is parsing `s` when `s` needs no escape, and a syntax error otherwise |
| Decimals.MarshalRoundTrip | internal/domain/decimal.go:18-50 | decoding what `MarshalJSON` wrote gives back the same value, absent or present, given that apd reads back what it prints |
| Decimals.ValueRoundTrip | internal/domain/decimal.go:53-83 | scanning what `Value` wrote gives back the same value |
| Decimals.ScanBytesAsText | internal/domain/decimal.go:68-72 | `Scan` of a byte slice is `Scan` of the string with those bytes |
| Decimals.DecimalRef.UnmarshalJSON | internal/domain/decimal.go:26-50 | on success the receiver holds the decoded value. On error it is returned and the receiver is unchanged |
| Decimals.DecimalRef.Scan | internal/domain/decimal.go:61-83 | on success the receiver holds the scanned value. On error it is returned and the receiver is unchanged |
| Produtos.Validate | internal/domain/produto.go:48-65 | no error exactly when name, supplier, code, stock and price are all valid. Each message is reported exactly when its check is the first to fail, in the order name, supplier, code, stock, price |
| Produtos.NewProduto | internal/domain/produto.go:19-45 | an undecodable price gives `preço inválido` wrapping the decode error. Otherwise the product is returned exactly when it validates, and carries the given fields and the parsed price |
| Produtos.WithNome | internal/domain/produto.go:68-74 | an empty name is refused with its message. Otherwise only the name changes |
| Produtos.WithQuantidadeEstoque | internal/domain/produto.go:77-83 | a negative stock is refused with its message. Otherwise only the stock changes |
| Produtos.WithPreco | internal/domain/produto.go:86-96 | succeeds exactly when the price decodes and is not negative, and then only the price changes. A decode failure is wrapped in `preço inválido` |
| Produtos.SettersPreserveValidity | internal/domain/produto.go:67-96 | a setter that succeeds on a valid product leaves it valid |
| Produtos.SettersSkipValidation | internal/domain/produto.go:98-101 | a setter can succeed on a product that stays invalid, which only `ValidateAndUpdate` reports |
| Produtos.ProdutoRef.SetNome | internal/domain/produto.go:68-74 | the receiver changes only when the name is non-empty, and then only its name |
| Produtos.ProdutoRef.SetQuantidadeEstoque | internal/domain/produto.go:77-83 | the receiver changes only when the stock is not negative, and then only its stock |
| Produtos.ProdutoRef.SetPreco | internal/domain/produto.go:86-96 | the receiver changes only when the price decodes and is not negative, and then only its price |
| Produtos.ProdutoRef.ValidateAndUpdate | internal/domain/produto.go:99-101 | is exactly `Validate` of the current fields |
| ProdutoRepo.Lookup | internal/repository/produto_repository.go:27-33 | finds the first row with the (supplier id, code) key, and finds none exactly when no row has it |
| ProdutoRepo.SaveInserts | internal/repository/produto_repository.go:36-48 | with no row for the key, one row is appended with a fresh id and the product's name, key, stock and price. The old rows are untouched |
| ProdutoRepo.SaveMerges | internal/repository/produto_repository.go:54-64 | with a row for the key, that row's stock becomes old plus incoming and its price the incoming one. Its name and every other row are unchanged, and so is the row count |
| ProdutoRepo.SaveTwice | internal/repository/produto_repository.go:56-62 | two saves of one new key with stocks a then b leave a single row for the key, with stock a + b and the second price |
| ProdutoRepo.SavePreservesValid | internal/repository/produto_repository.go:24-68 | `Save` keeps ids distinct and below the counter, and keys unique |
| ProdutoRepo.InsertKeepsValid | internal/repository/produto_repository.go:36-48 | the insert branch keeps the table valid |
| ProdutoRepo.MergeKeepsValid | internal/repository/produto_repository.go:54-64 | the merge branch keeps the table valid |
| ProdutoRepo.ProdutoRepository.constructor | internal/repository/produto_repository.go:19-21 | a new repository starts from an empty, valid table |
| ProdutoRepo.ProdutoRepository.Save | internal/repository/produto_repository.go:24-68 | a lookup failure is returned wrapped in `erro ao buscar produto existente`, and a write failure as is. Both leave the table unchanged. Otherwise the table becomes the upsert of the old one |
| ProdutoRepo.RemoveIdCount | internal/repository/produto_repository.go:140-147 | the delete removes something exactly when some row has the id, and removes nothing otherwise |
| ProdutoRepo.RemoveIdExactly | internal/repository/produto_repository.go:140 | with distinct ids, the delete removes exactly the row with the id and keeps the others in order |
| ProdutoRepo.DeletePreservesValid | internal/repository/produto_repository.go:139-149 | deleting a present id keeps the table valid |
| ProdutoRepo.ProdutoRepository.Delete | internal/repository/produto_repository.go:139-149 | the rows with the id are removed. `NoRows` is reported exactly when no row had the id, and then nothing changed. A store failure is returned as is and changes nothing |
| ProdutoRepo.UpdateKeepsKeys | internal/repository/produto_repository.go:152-160 | `Update` never changes a row's id, supplier or code. Rows with the key get the product's name, stock and price, and the other rows stay |
| ProdutoRepo.UpdateMissingKey | internal/repository/produto_repository.go:154-158 | an update of a key no row has changes nothing |
| ProdutoRepo.UpdatePreservesValid | internal/repository/produto_repository.go:152-160 | `Update` keeps the table valid |
| ProdutoRepo.ProdutoRepository.Update | internal/repository/produto_repository.go:152-160 | the rows with the key are rewritten and no count is checked. A store failure is returned and changes nothing |
| ProdutoRepo.KeyConditionsShape | internal/repository/produto_repository.go:76-87 | the name, supplier and code filters give one one-placeholder condition each |
| ProdutoRepo.FindConditionsShape | internal/repository/produto_repository.go:76-95 | one condition per filter present, each with one placeholder |
| ProdutoRepo.FindShape | internal/repository/produto_repository.go:72-101 | one argument per placeholder, `limit` and `offset` last. The name argument is `%name%` and comes first. WHERE is present exactly when a filter is |
| ProdutoRepo.FindClauses | internal/repository/produto_repository.go:73-95 | the clauses and arguments are appended in the order name, supplier, code, minimum price, maximum price, one pair per filter present |
| ProdutoRepo.FindStatement | internal/repository/produto_repository.go:72-101 | the statement sent is the paged search over those conditions, and it is well formed |
| ProdutoRepo.RowToProduto | internal/repository/produto_repository.go:115-129 | a scan failure is that row's error. Otherwise the row becomes what `NewProduto` gives, with a supplier named like the product |
| ProdutoRepo.Find | internal/repository/produto_repository.go:71-136 | a failing query is returned. A row that fails to scan or to build abandons the read with no list and that row's error. Otherwise every row becomes a product in order, and the iteration error is returned beside the list |
| VendasRepo.ItemArgs | internal/repository/vendas_repository.go:37-45 | five arguments per item |
| VendasRepo.ItemArgsGroup | internal/repository/vendas_repository.go:37-45 | arguments `5k .. 5k+5` are item k's sale id, product id, quantity, unit price and total |
| VendasRepo.BuildItemValues | internal/repository/vendas_repository.go:34-45 | the loop produces one `(?, ?, ?, ?, ?)` group per item and the items' arguments in item order |
| VendasRepo.ItemGroupPlaceholders | internal/repository/vendas_repository.go:38 | a group has five placeholders |
| VendasRepo.ItemBatchWellFormed | internal/repository/vendas_repository.go:34-50 | the batch statement has 5·len(items) placeholders, matching its arguments |
| VendasRepo.BatchRows | internal/repository/vendas_repository.go:50 | the batch insert adds one row per group of five arguments |
| VendasRepo.CommittedShape | internal/repository/vendas_repository.go:19-54 | a commit adds one header and one item row per item. Each item row refers to the new sale and carries its item's values in order, and the stored rows are untouched |
| VendasRepo.SalvarAtomic | internal/repository/vendas_repository.go:19-55 | an error is reported exactly when some store call fails, and then both tables are as before. Without error, the header and every item are committed |
| VendasRepo.SalvarSetsOnlyId | internal/repository/vendas_repository.go:32-45 | only the sale's id changes, to the header's id, once the header insert succeeded. The items in memory keep their ids and sale ids |
| VendasRepo.VendasRepository.constructor | internal/repository/vendas_repository.go:16-18 | a new repository starts from empty tables |
| VendasRepo.VendasRepository.Rollback | internal/repository/vendas_repository.go:29 | the tables return to the transaction's starting state |
| VendasRepo.VendasRepository.InsertHeader | internal/repository/vendas_repository.go:24-32 | the header is appended under the next sale id, which is returned |
| VendasRepo.VendasRepository.InsertBatch | internal/repository/vendas_repository.go:50 | the batch rows are appended under the next item ids |
| VendasRepo.VendasRepository.SalvarVenda | internal/repository/vendas_repository.go:19-55 | the error, the tables and the sale are those `SalvarOutcome` gives for the failing call |
| VendasRepo.RemoveVendaKeeps | internal/repository/vendas_repository.go:139 | the delete keeps exactly the rows with another id, and changes nothing when no row has the id |
| VendasRepo.VendasRepository.DeletarVenda | internal/repository/vendas_repository.go:138-144 | rows with the id are removed and no error is reported, whether or not a row had the id |
| VendasRepo.PartShape | internal/repository/vendas_repository.go:64-91 | a present filter gives one condition with one placeholder, an absent one none |
| VendasRepo.NameConditionsShape | internal/repository/vendas_repository.go:64-75 | the client-name, product-name and total filters give one one-placeholder condition each |
| VendasRepo.BuscarConditionsShape | internal/repository/vendas_repository.go:64-91 | one condition per filter present, each with one placeholder |
| VendasRepo.BuscarShape | internal/repository/vendas_repository.go:56-93 | one argument per placeholder, with `limit` and `offset` last. WHERE is present exactly when a filter is |
| VendasRepo.BuscarArgs | internal/repository/vendas_repository.go:64-93 | a client-name filter is the first argument, as `%name%`. A status filter is the last filter argument, as `%status%` |
| VendasRepo.BuscarClauses | internal/repository/vendas_repository.go:63-91 | clauses and arguments are appended in filter order, one pair per filter present. Names and status match `%value%`, while total and dates are exact |
| VendasRepo.BuscarStatement | internal/repository/vendas_repository.go:56-93 | the statement sent is the paged search over those conditions, and it is well formed |
| VendasRepo.BuscarVendas | internal/repository/vendas_repository.go:56-113 | a failing query is returned. A failing row abandons the read with no list. Otherwise there is one empty sale per row, and the iteration error is not reported |
| ClienteRepo.BuscarConditionsShape | internal/repository/cliente_repository.go:24-31 | one condition per filter present, each with one placeholder |
| ClienteRepo.BuscarShape | internal/repository/cliente_repository.go:18-36 | one argument per placeholder, with `limit` and `offset` last. WHERE is present exactly when the name or phone filter is |
| ClienteRepo.BuscarArgs | internal/repository/cliente_repository.go:24-36 | the name argument is `%name%` and comes first. The phone argument is `%phone%` and is the last filter argument |
| ClienteRepo.BuscarOrder | internal/repository/cliente_repository.go:24-34 | with both filters, the name clause precedes the phone clause |
| ClienteRepo.BuscarStatement | internal/repository/cliente_repository.go:18-36 | the statement sent is the paged search over those conditions, and it is well formed |
| ClienteRepo.RowToCliente | internal/repository/cliente_repository.go:50-54 | a scan failure is that row's error. Otherwise the row becomes the client with the four scanned columns |
| ClienteRepo.BuscarClientes | internal/repository/cliente_repository.go:18-58 | a failing query is returned. A failing row abandons the read with no list. Otherwise every row becomes a client in order, and the iteration error is not reported |
| ClienteRepo.SetClausesChoice | internal/repository/cliente_repository.go:95-100 | `nome = ?` is present exactly when the name is non-empty and `telefone = ?` exactly when the phone is, the name's first |
| ClienteRepo.UpdateTextPlaceholders | internal/repository/cliente_repository.go:93-103 | the update has one placeholder per SET clause, plus the id's |
| ClienteRepo.AtualizarClienteStatement | internal/repository/cliente_repository.go:92-104 | the text is the head, the comma-joined clauses and `WHERE id = ? `. The arguments are always name, phone and id |
| ClienteRepo.AtualizarClienteMismatch | internal/repository/cliente_repository.go:101-104 | the statement as written is well formed exactly when both fields are non-empty |
| ClienteRepo.AtualizarTelefoneOnly | internal/repository/cliente_repository.go:101-104 | a phone-only update has two placeholders and three arguments |
| ClienteRepo.UpdateTextTelefoneOnly | internal/repository/cliente_repository.go:101-103 | that update's text is `UPDATE clientes SET telefone = ?WHERE id = ? `, with no separator before WHERE |
| ClienteRepo.AtualizarClienteStatementFixed | internal/repository/cliente_repository.go:92-104 | the same text, with one argument per SET clause in clause order and the id last. It is well formed for every client |
| ClienteRepo.SetArgsMatch | internal/repository/cliente_repository.go:92-104 | arguments chosen clause by clause always match the placeholders |
| Pagination.Atoi | internal/middleware/pagination.go:20 | accepts exactly an optionally signed run of digits whose value fits an `int`, and returns that value |
| Pagination.AtoiItoa | internal/middleware/pagination.go:20 | parsing reads back every `int` printed in decimal |
| Pagination.QueryGet | internal/middleware/pagination.go:18-20 | the first value under the key, or empty when there is none |
| Pagination.OrDefault | internal/middleware/pagination.go:20-28 | the parsed value when it is an integer of at least 1, the default otherwise. The result is at least 1 and fits an `int` |
| Pagination.Normalise | internal/middleware/pagination.go:16-33 | page and limit are always at least 1 and fit an `int`. They follow the rule with defaults 1 and 10 |
| Pagination.NormaliseDefaults | internal/middleware/pagination.go:20-28 | missing, non-numeric and below-1 values become 1 and 10 |
| Pagination.NormalisePassThrough | internal/middleware/pagination.go:20-28 | valid page and limit values pass through unchanged |
| Pagination.NormaliseIdempotent | internal/middleware/pagination.go:20-28 | normalising the query for a normalised paging gives it back |
| Pagination.Wrap64 | internal/handler/produto_handler.go:96 | the result of Go `int` arithmetic is in range, and equals the exact value when that fits |
| Pagination.OffsetAsWritten | internal/handler/produto_handler.go:94-96 | the handlers' offset is an `int`, computed with wrap-around |
| Pagination.OffsetAsWrittenWraps | internal/handler/produto_handler.go:96 | a page the middleware accepts gives the most negative offset |
| Pagination.Offset | internal/handler/produto_handler.go:94-96 | the offset exists exactly when it fits an `int`. It is then non-negative, a multiple of the limit, and skips exactly page − 1 pages |
| Pagination.OffsetAgrees | internal/handler/produto_handler.go:96 | where the corrected offset exists, the handlers compute the same value |
| Pagination.OffsetNextPage | internal/handler/produto_handler.go:96 | the next page starts `limit` rows later, so pages neither overlap nor leave gaps |

## Left out

- HTTP handlers, JSON request decoding, status codes, chi routing and the server's `main` are request plumbing. The handlers' offset is modelled; nothing else of theirs is.
- `UpdateProduto` ignores the setters' errors and looks the product up with the id used as an offset (internal/handler/produto_handler.go:156-173). This handler behaviour is not modelled.
- The context writes in `Pagination` and the `next.ServeHTTP` call are plumbing.
- Database bootstrap (internal/database/db.go) and the frontend are I/O.
- The float path of `UnmarshalJSON` (`json.Unmarshal` into a `float64`, then `SetFloat64`) is binary floating point. It is the abstract `Apd.fromNumber`; only the JSON-number syntax check before it is modelled.
- apd's parsing, printing and sign come from a library whose code is not part of this model. They are the abstract `Apd` fields, and round trips assume that apd reads back what it prints.
- Decimals.UnmarshalResult: a JSON string with a backslash escape or a control character is refused as not a string. The source would unescape it and then parse it.
- `time.Time` values are opaque (`Sql.Instant`), and a nil payment date is `None`.
- The store is not a SQL engine. LIKE/ILIKE matching, paging and join semantics are not modelled, and neither is SQLite's lack of ILIKE. The search operations are modelled up to the statement they send and the loop over the answer they receive.
- The batch insert with an empty VALUES list is syntactically invalid SQL. The model only builds its text; `InsertBatch` adds no rows for it.
- Row scanning is driver behaviour, so each row's scan outcome is an input. `Find` scans eight targets from a six-column SELECT. `BuscarVendas` passes non-pointers to `Scan` and appends an empty `Sale{}` per row. Under database/sql these scans fail on every row.
- The `fmt.Print(err)` in `BuscarClientes` is output.
- Filter maps are typed records. A filter value of another dynamic type makes the source panic in a type assertion; that panic is not modelled.
- The read-then-write race in `Save` under concurrent requests is out of scope. `Save` is one sequential step.
- ProdutoRepo.ProdutoRepository.Save: requires a present price. With a nil price the source calls `String` on a nil apd decimal and panics.
- ProdutoRepo.Upsert: the merged stock is an unbounded sum. In the source it is an `int64` addition that wraps past 2^63 − 1. Stocks and ids are unbounded integers throughout.
- VendasRepo.VendasRepository.SalvarVenda: the store's autoincrement ids are counters, and a rollback restores them. A failed commit counts as rolled back.
- `DeletarVenda` removes only the header row. Whether the store cascades to `vendas_produtos` depends on a schema that is not part of this model.
- The AtualizarCliente `Exec` itself is not run against a table. The model stops at the statement, which is where the mismatch below lies. An update with both fields empty gives `UPDATE clientes SET WHERE id = ? `, which is not valid SQL.
- `SalvarCliente`, `DeletarCliente`, `BuscarClientePorId` and `buscarVendaPorId` are single statements with no logic beyond the query, so they are not modelled.

## Findings

| source | as written | input that shows it | evidently intended | confidence | as-written member | corrected member |
|---|---|---|---|---|---|---|
| internal/repository/cliente_repository.go:104 | `Exec` always passes name, phone and id, whichever SET clauses were emitted | a client with an empty name and phone `5555-0000`: the text has two placeholders and three arguments, and the empty name is bound to `telefone` | one argument per emitted clause, in clause order, then the id | not executed; high | ClienteRepo.AtualizarTelefoneOnly | ClienteRepo.AtualizarClienteStatementFixed |
| internal/handler/produto_handler.go:96 | `offset := (page - 1) * limit` in Go `int` wraps around | `page=4611686018427387905&limit=2`: both pass the middleware, and the offset is −9223372036854775808 | an offset that is non-negative and a multiple of the limit, with the request refused when it does not fit | not executed; medium | Pagination.OffsetAsWrittenWraps | Pagination.Offset |
