/**
 * The sales repository of internal/repository/vendas_repository.go over in-memory
 * `vendas` and `vendas_produtos` tables: `SalvarVenda` writes a sale header and then all
 * its items in one batched insert inside a transaction that is rolled back on any
 * failure; `BuscarVendas` builds the filtered, paged search; `DeletarVenda` removes by id.
 *
 * Store failures are fault parameters: `Some(msg)` makes that store call fail with
 * `StoreFailure(msg)`.
 */
module VendasRepo {
  import opened Wrappers
  import opened Sql
  import opened Decimals
  import opened Vendas

  /** A row of `vendas`. */
  datatype VendaRow = VendaRow(id: int, clienteId: int, dataVenda: Instant, total: Sql.Value, statusPagamento: string)

  /** A row of `vendas_produtos`: its id and the five values the insert bound to it. */
  datatype ItemRow = ItemRow(
    id: int,
    vendaId: Sql.Value,
    produtoId: Sql.Value,
    quantidade: Sql.Value,
    precoUnitario: Sql.Value,
    total: Sql.Value)

  /** Both tables with the ids their next inserts receive. */
  datatype Store = Store(vendas: seq<VendaRow>, nextVendaId: int, itens: seq<ItemRow>, nextItemId: int)

  /** Which store call of `SalvarVenda` fails: opening the transaction, the header insert,
      the item insert, or the commit. */
  datatype Faults = Faults(begin: Option<string>, header: Option<string>, items: Option<string>, commit: Option<string>)

  const NoFaults := Faults(None, None, None, None)

  // ----- the item batch -----

  /** `(?, ?, ?, ?, ?)` */
  const ItemGroup: Query :=
    [Word("("), Param, Word(", "), Param, Word(", "), Param, Word(", "), Param, Word(", "), Param, Word(")")]

  const ItemInsertHead: Query :=
    [Word("\n  INSERT INTO vendas_produtos\n    (venda_id, produto_id, quantidade, preco_unitario, total)\n  VALUES ")]

  function Groups(n: nat): (gs: seq<Query>)
    ensures |gs| == n && forall i :: 0 <= i < n ==> gs[i] == ItemGroup
  {
    seq(n, _ => ItemGroup)
  }

  /** The five arguments of one item: sale id, product id, quantity, unit price, total. */
  function GroupArgs(saleId: int, apd: Apd, item: SaleItem): seq<Sql.Value> {
    [Int64(saleId), Int64(item.productId), Int64(item.quantity),
     Decimals.Value(apd, item.unitPrice), Decimals.Value(apd, item.total)]
  }

  /** The arguments of the batch: each item's five, in item order. */
  function ItemArgs(saleId: int, apd: Apd, items: seq<SaleItem>): (args: seq<Sql.Value>)
    ensures |args| == 5 * |items|
  {
    if items == [] then []
    else ItemArgs(saleId, apd, items[..|items| - 1]) + GroupArgs(saleId, apd, items[|items| - 1])
  }

  /** The arguments at positions `5k .. 5k+5` are those of item `k`. */
  lemma {:induction false} ItemArgsGroup(saleId: int, apd: Apd, items: seq<SaleItem>, k: nat)
    requires k < |items|
    ensures ItemArgs(saleId, apd, items)[5 * k..5 * k + 5] == GroupArgs(saleId, apd, items[k])
  {
    var n := |items|;
    var init := items[..n - 1];
    var prefix := ItemArgs(saleId, apd, init);
    assert ItemArgs(saleId, apd, items) == prefix + GroupArgs(saleId, apd, items[n - 1]);
    if k < n - 1 {
      ItemArgsGroup(saleId, apd, init, k);
      assert init[k] == items[k];
      assert (prefix + GroupArgs(saleId, apd, items[n - 1]))[5 * k..5 * k + 5] == prefix[5 * k..5 * k + 5];
    }
  }

  /** The loop of `SalvarVenda`: one group and the item's five arguments appended per item,
      in item order. */
  method BuildItemValues(saleId: int, apd: Apd, items: seq<SaleItem>)
    returns (valueStrings: seq<Query>, valueArgs: seq<Sql.Value>)
    ensures valueStrings == Groups(|items|)
    ensures valueArgs == ItemArgs(saleId, apd, items)
  {
    valueStrings := [];
    valueArgs := [];
    for i := 0 to |items|
      invariant valueStrings == Groups(i)
      invariant valueArgs == ItemArgs(saleId, apd, items[..i])
    {
      var item := items[i];
      valueStrings := valueStrings + [ItemGroup];
      valueArgs := valueArgs + [Int64(saleId), Int64(item.productId), Int64(item.quantity),
                                Decimals.Value(apd, item.unitPrice), Decimals.Value(apd, item.total)];
      assert items[..i + 1][..i] == items[..i];
    }
    assert items[..|items|] == items;
  }

  /** The item statement: the groups joined by `,` after the insert head, with the items'
      arguments. */
  function ItemBatch(saleId: int, apd: Apd, items: seq<SaleItem>): Statement {
    Statement(ItemInsertHead + Join(Groups(|items|), [Word(",")]), ItemArgs(saleId, apd, items))
  }

  /** The item statement has five placeholders and five arguments per item. */
  lemma ItemBatchWellFormed(saleId: int, apd: Apd, items: seq<SaleItem>)
    ensures WellFormed(ItemBatch(saleId, apd, items))
    ensures Placeholders(ItemBatch(saleId, apd, items).sql) == 5 * |items|
  {
    var n := |items|;
    ItemGroupPlaceholders();
    JoinPlaceholders(Groups(n), [Word(",")]);
    PlaceholdersInUniform(Groups(n), 5);
    PlaceholdersConcat(ItemInsertHead, Join(Groups(n), [Word(",")]));
  }

  lemma ItemGroupPlaceholders()
    ensures Placeholders(ItemGroup) == 5
  {
  }

  /** The rows a batch insert adds: one per group of five arguments, numbered from
      `nextId`. */
  function BatchRows(nextId: int, args: seq<Sql.Value>): (rows: seq<ItemRow>)
    ensures |rows| == |args| / 5
  {
    seq(|args| / 5, k requires 0 <= k < |args| / 5 =>
      ItemRow(nextId + k, args[5 * k], args[5 * k + 1], args[5 * k + 2], args[5 * k + 3], args[5 * k + 4]))
  }

  // ----- the transaction -----

  /** The header row `SalvarVenda` inserts; the total is bound through the wrapper's `Value`. */
  function HeaderRow(id: int, apd: Apd, sale: Sale): VendaRow {
    VendaRow(id, sale.clientId, sale.dataVenda, Decimals.Value(apd, sale.total), sale.paymentStatus)
  }

  /** The store after a committed `SalvarVenda`: the header under the next sale id, then the
      batch rows. */
  function Committed(s: Store, apd: Apd, sale: Sale): Store {
    var saleId := s.nextVendaId;
    var args := ItemArgs(saleId, apd, sale.items);
    Store(s.vendas + [HeaderRow(saleId, apd, sale)], saleId + 1,
          s.itens + BatchRows(s.nextItemId, args), s.nextItemId + |args| / 5)
  }

  /** A committed sale adds exactly one header and one item row per item, every item row
      referring to the new sale and carrying its item's values in order; the rows already
      stored are untouched. */
  lemma CommittedShape(s: Store, apd: Apd, sale: Sale)
    ensures var c := Committed(s, apd, sale);
      && c.vendas[..|s.vendas|] == s.vendas
      && c.vendas[|s.vendas|..] == [HeaderRow(s.nextVendaId, apd, sale)]
      && |c.itens| == |s.itens| + |sale.items|
      && c.itens[..|s.itens|] == s.itens
      && forall k :: 0 <= k < |sale.items| ==>
           c.itens[|s.itens| + k] ==
             ItemRow(s.nextItemId + k, Int64(s.nextVendaId), Int64(sale.items[k].productId),
                     Int64(sale.items[k].quantity), Decimals.Value(apd, sale.items[k].unitPrice),
                     Decimals.Value(apd, sale.items[k].total))
  {
    var c := Committed(s, apd, sale);
    var args := ItemArgs(s.nextVendaId, apd, sale.items);
    assert |args| / 5 == |sale.items|;
    forall k | 0 <= k < |sale.items|
      ensures c.itens[|s.itens| + k] ==
                ItemRow(s.nextItemId + k, Int64(s.nextVendaId), Int64(sale.items[k].productId),
                        Int64(sale.items[k].quantity), Decimals.Value(apd, sale.items[k].unitPrice),
                        Decimals.Value(apd, sale.items[k].total))
    {
      ItemArgsGroup(s.nextVendaId, apd, sale.items, k);
      var g := args[5 * k..5 * k + 5];
      assert g == GroupArgs(s.nextVendaId, apd, sale.items[k]);
      assert args[5 * k] == g[0] && args[5 * k + 1] == g[1] && args[5 * k + 2] == g[2];
      assert args[5 * k + 3] == g[3] && args[5 * k + 4] == g[4];
      assert c.itens[|s.itens| + k] == BatchRows(s.nextItemId, args)[k];
    }
  }

  /** What `SalvarVenda` leaves behind: its error, the tables, and the sale. */
  datatype Outcome = Outcome(err: Option<Error>, store: Store, sale: Sale)

  /** The effect of `SalvarVenda` on store `s` and sale `sale`, given which store call
      fails. A failure to begin or to insert the header leaves everything as it was; once the
      header is in, the sale carries the header's id even if the item insert or the commit
      then fails and the tables are rolled back; without failure the store is `Committed`. */
  function SalvarOutcome(s: Store, apd: Apd, sale: Sale, faults: Faults): Outcome {
    if faults.begin.Some? then Outcome(Some(StoreFailure(faults.begin.value)), s, sale)
    else if faults.header.Some? then Outcome(Some(StoreFailure(faults.header.value)), s, sale)
    else
      var saved := sale.(id := s.nextVendaId);
      if faults.items.Some? then Outcome(Some(StoreFailure(faults.items.value)), s, saved)
      else if faults.commit.Some? then Outcome(Some(StoreFailure(faults.commit.value)), s, saved)
      else Outcome(None, Committed(s, apd, sale), saved)
  }

  /** All or nothing: a `SalvarVenda` that reports an error leaves both tables as they were,
      and one that reports none has committed the header and every item. */
  lemma SalvarAtomic(s: Store, apd: Apd, sale: Sale, faults: Faults)
    ensures var o := SalvarOutcome(s, apd, sale, faults);
      && (o.err.Some? <==> faults != NoFaults)
      && (o.err.Some? ==> o.store == s)
      && (o.err.None? ==> o.store == Committed(s, apd, sale))
  {
  }

  /** `SalvarVenda` changes only the sale's id, to the id its header got, and only once the
      header insert succeeded; the items in memory keep their ids and sale ids. */
  lemma SalvarSetsOnlyId(s: Store, apd: Apd, sale: Sale, faults: Faults)
    ensures var o := SalvarOutcome(s, apd, sale, faults);
      && o.sale.(id := sale.id) == sale
      && o.sale.items == sale.items
      && (faults.begin.None? && faults.header.None? ==> o.sale.id == s.nextVendaId)
      && (faults.begin.Some? || faults.header.Some? ==> o.sale == sale)
  {
  }

  /** A `*Sale`: the variable whose `ID` `SalvarVenda` fills in. */
  class SaleRef {
    var sale: Sale

    constructor (s: Sale)
      ensures sale == s
    {
      sale := s;
    }
  }

  /** `VendasRepository`, with the two tables it writes. */
  class VendasRepository {
    var vendas: seq<VendaRow>
    var nextVendaId: int
    var itens: seq<ItemRow>
    var nextItemId: int

    function Contents(): Store
      reads this
    {
      Store(vendas, nextVendaId, itens, nextItemId)
    }

    constructor ()
      ensures Contents() == Store([], 1, [], 1)
    {
      vendas, nextVendaId, itens, nextItemId := [], 1, [], 1;
    }

    /** `tx.Rollback()`: the tables return to the state the transaction began from. */
    method Rollback(snapshot: Store)
      modifies this
      ensures Contents() == snapshot
    {
      vendas, nextVendaId, itens, nextItemId := snapshot.vendas, snapshot.nextVendaId, snapshot.itens, snapshot.nextItemId;
    }

    /** `SalvarVenda`: the error, the tables and the sale are those `SalvarOutcome` gives. */
    method SalvarVenda(ref: SaleRef, apd: Apd, faults: Faults) returns (err: Option<Error>)
      modifies this, ref
      ensures Outcome(err, Contents(), ref.sale) == SalvarOutcome(old(Contents()), apd, old(ref.sale), faults)
    {
      if faults.begin.Some? {
        return Some(StoreFailure(faults.begin.value));
      }
      var snapshot := Contents();
      if faults.header.Some? {
        Rollback(snapshot);
        return Some(StoreFailure(faults.header.value));
      }
      var sale := ref.sale;
      var saleId := InsertHeader(apd, sale);
      ref.sale := sale.(id := saleId);
      var valueStrings, valueArgs := BuildItemValues(saleId, apd, sale.items);
      var st := Statement(ItemInsertHead + Join(valueStrings, [Word(",")]), valueArgs);
      assert st == ItemBatch(saleId, apd, sale.items);
      if faults.items.Some? {
        Rollback(snapshot);
        return Some(StoreFailure(faults.items.value));
      }
      InsertBatch(st);
      if faults.commit.Some? {
        Rollback(snapshot);
        return Some(StoreFailure(faults.commit.value));
      }
      assert Contents() == Committed(snapshot, apd, sale);
      err := None;
    }

    /** The header insert and `LastInsertId`. */
    method InsertHeader(apd: Apd, sale: Sale) returns (saleId: int)
      modifies this
      ensures saleId == old(nextVendaId)
      ensures Contents() == old(Contents()).(vendas := old(vendas) + [HeaderRow(saleId, apd, sale)], nextVendaId := saleId + 1)
    {
      saleId := nextVendaId;
      vendas := vendas + [HeaderRow(saleId, apd, sale)];
      nextVendaId := nextVendaId + 1;
    }

    /** The item insert: one row per group of five arguments. */
    method InsertBatch(st: Statement)
      modifies this
      ensures Contents() == old(Contents()).(itens := old(itens) + BatchRows(old(nextItemId), st.args),
                                             nextItemId := old(nextItemId) + |st.args| / 5)
    {
      itens := itens + BatchRows(nextItemId, st.args);
      nextItemId := nextItemId + |st.args| / 5;
    }

    /** `DeletarVenda`: the rows with the id are removed and no error is reported, whether
        or not a row had it. */
    method DeletarVenda(id: int, execFault: Option<string>) returns (err: Option<Error>)
      modifies this
      ensures execFault.Some? ==> err == Some(StoreFailure(execFault.value)) && Contents() == old(Contents())
      ensures execFault.None? ==>
                err == None && Contents() == old(Contents()).(vendas := RemoveVenda(old(vendas), id))
    {
      if execFault.Some? {
        return Some(StoreFailure(execFault.value));
      }
      vendas := RemoveVenda(vendas, id);
      err := None;
    }
  }

  /** `DELETE FROM vendas WHERE id = ?` */
  function RemoveVenda(vendas: seq<VendaRow>, id: int): seq<VendaRow> {
    if vendas == [] then [] else (if vendas[0].id == id then [] else [vendas[0]]) + RemoveVenda(vendas[1..], id)
  }

  /** The delete keeps exactly the rows with another id, in order; when no row has the id
      it changes nothing. */
  lemma {:induction false} RemoveVendaKeeps(vendas: seq<VendaRow>, id: int)
    ensures forall r :: r in RemoveVenda(vendas, id) <==> r in vendas && r.id != id
    ensures (forall i :: 0 <= i < |vendas| ==> vendas[i].id != id) ==> RemoveVenda(vendas, id) == vendas
  {
    if vendas != [] {
      RemoveVendaKeeps(vendas[1..], id);
      assert vendas == [vendas[0]] + vendas[1..];
      assert forall i :: 1 <= i < |vendas| ==> vendas[i] == vendas[1..][i - 1];
    }
  }

  // ----- BuscarVendas -----

  /** The filters `BuscarVendas` understands; an absent key is `None`. */
  datatype VendaFiltros = VendaFiltros(
    nomeCliente: Option<string>,
    nomeProduto: Option<string>,
    total: Option<string>,
    dataPagamento: Option<string>,
    dataVenda: Option<string>,
    statusPagamento: Option<string>)

  const BuscarBase: Query := [Word(
    "SELECT v.* FROM vendas v \n\tjoin clientes c on c.id = v.cliente_id \n\tjoin vendas_produtos vp on vp.venda_id = v.id\n\tjoin produto p on vp.produto_id = p.id \n\t")]

  const NomeClienteLike: Query := [Word("c.nome ILIKE "), Param]
  const NomeProdutoLike: Query := [Word("p.nome ILIKE "), Param]
  const TotalIgual: Query := [Word("v.total = "), Param]
  const DataPagamentoIgual: Query := [Word("v.data_pagamento = "), Param]
  const DataVendaIgual: Query := [Word("v.data_venda = "), Param]
  const StatusLike: Query := [Word("v.status_pagamento ILIKE "), Param]

  /** The condition a filter contributes, if present: the name and status filters match
      `%value%`, the total and dates are compared exactly. */
  function Part(o: Option<string>, clause: Query, like: bool): seq<Condition> {
    if o.Some? then [Condition(clause, Text(if like then LikePattern(o.value) else o.value))] else []
  }

  /** The conditions of the filters present, in the order client name, product name, total,
      payment date, sale date, payment status. */
  function BuscarConditions(f: VendaFiltros): seq<Condition> {
    Part(f.nomeCliente, NomeClienteLike, true) + Part(f.nomeProduto, NomeProdutoLike, true)
    + Part(f.total, TotalIgual, false) + Part(f.dataPagamento, DataPagamentoIgual, false)
    + Part(f.dataVenda, DataVendaIgual, false) + Part(f.statusPagamento, StatusLike, true)
  }

  function CountPresent(f: VendaFiltros): nat {
    (if f.nomeCliente.Some? then 1 else 0) + (if f.nomeProduto.Some? then 1 else 0)
    + (if f.total.Some? then 1 else 0) + (if f.dataPagamento.Some? then 1 else 0)
    + (if f.dataVenda.Some? then 1 else 0) + (if f.statusPagamento.Some? then 1 else 0)
  }

  lemma PartShape(o: Option<string>, clause: Query, like: bool)
    requires Placeholders(clause) == 1
    ensures |Part(o, clause, like)| == (if o.Some? then 1 else 0)
    ensures OnePlaceholderEach(Part(o, clause, like))
  {
  }

  lemma BuscarConditionsShape(f: VendaFiltros)
    ensures |BuscarConditions(f)| == CountPresent(f)
    ensures OnePlaceholderEach(BuscarConditions(f))
  {
    var a := NameConditions(f);
    NameConditionsShape(f);
    var p4 := Part(f.dataPagamento, DataPagamentoIgual, false);
    var p5 := Part(f.dataVenda, DataVendaIgual, false);
    var p6 := Part(f.statusPagamento, StatusLike, true);
    assert Placeholders(DataPagamentoIgual) == 1 && Placeholders(DataVendaIgual) == 1 && Placeholders(StatusLike) == 1;
    PartShape(f.dataPagamento, DataPagamentoIgual, false);
    PartShape(f.dataVenda, DataVendaIgual, false);
    PartShape(f.statusPagamento, StatusLike, true);
    OnePlaceholderEachConcat(a, p4);
    OnePlaceholderEachConcat(a + p4, p5);
    OnePlaceholderEachConcat(a + p4 + p5, p6);
  }

  /** The first three conditions: client name, product name and total. */
  function NameConditions(f: VendaFiltros): seq<Condition> {
    Part(f.nomeCliente, NomeClienteLike, true) + Part(f.nomeProduto, NomeProdutoLike, true)
    + Part(f.total, TotalIgual, false)
  }

  lemma NameConditionsShape(f: VendaFiltros)
    ensures |NameConditions(f)| ==
            (if f.nomeCliente.Some? then 1 else 0) + (if f.nomeProduto.Some? then 1 else 0)
            + (if f.total.Some? then 1 else 0)
    ensures OnePlaceholderEach(NameConditions(f))
  {
    var p1 := Part(f.nomeCliente, NomeClienteLike, true);
    var p2 := Part(f.nomeProduto, NomeProdutoLike, true);
    var p3 := Part(f.total, TotalIgual, false);
    assert Placeholders(NomeClienteLike) == 1 && Placeholders(NomeProdutoLike) == 1 && Placeholders(TotalIgual) == 1;
    PartShape(f.nomeCliente, NomeClienteLike, true);
    PartShape(f.nomeProduto, NomeProdutoLike, true);
    PartShape(f.total, TotalIgual, false);
    OnePlaceholderEachConcat(p1, p2);
    OnePlaceholderEachConcat(p1 + p2, p3);
  }

  /** The search statement of `BuscarVendas` has one argument per placeholder, `limit` and
      `offset` last; the WHERE part is there exactly when a filter is present. */
  lemma BuscarShape(f: VendaFiltros, limit: int, offset: int)
    ensures var st := Paged(BuscarBase, BuscarConditions(f), limit, offset);
      && WellFormed(st)
      && |st.args| == CountPresent(f) + 2
      && st.args[CountPresent(f)..] == [Int64(limit), Int64(offset)]
      && (CountPresent(f) == 0 <==> st.sql == BuscarBase + PageSuffix)
  {
    var conds := BuscarConditions(f);
    BuscarConditionsShape(f);
    assert Placeholders(BuscarBase) == 0;
    PagedShape(BuscarBase, conds, limit, offset);
    PagedWhere(BuscarBase, conds, limit, offset);
  }

  /** A client-name filter leads the arguments, as `%name%`, and a status filter comes last
      among the filters, as `%status%`. */
  lemma BuscarArgs(f: VendaFiltros, limit: int, offset: int)
    ensures var st := Paged(BuscarBase, BuscarConditions(f), limit, offset);
      && (f.nomeCliente.Some? ==> st.args[0] == Text(LikePattern(f.nomeCliente.value)))
      && (f.statusPagamento.Some? ==> st.args[CountPresent(f) - 1] == Text(LikePattern(f.statusPagamento.value)))
  {
    var conds := BuscarConditions(f);
    BuscarConditionsShape(f);
    var args := ConditionArgs(conds);
    assert Paged(BuscarBase, conds, limit, offset).args == args + [Int64(limit), Int64(offset)];
    if f.nomeCliente.Some? {
      assert conds[0] == Part(f.nomeCliente, NomeClienteLike, true)[0];
      assert args[0] == conds[0].arg;
    }
    if f.statusPagamento.Some? {
      assert conds[|conds| - 1] == Part(f.statusPagamento, StatusLike, true)[0];
      assert args[|conds| - 1] == conds[|conds| - 1].arg;
    }
  }

  /** The clauses and arguments `BuscarVendas` appends, one pair per filter present. */
  method BuscarClauses(f: VendaFiltros) returns (clauses: seq<Query>, args: seq<Sql.Value>)
    ensures clauses == Clauses(BuscarConditions(f)) && args == ConditionArgs(BuscarConditions(f))
  {
    clauses, args := [], [];
    ghost var conds: seq<Condition> := [];
    ghost var prev: seq<Condition>;
    if f.nomeCliente.Some? {
      var c := Condition(NomeClienteLike, Text(LikePattern(f.nomeCliente.value)));
      clauses, args := AppendCondition(clauses, args, conds, c);
      conds := conds + [c];
    }
    assert conds == Part(f.nomeCliente, NomeClienteLike, true);
    prev := conds;
    if f.nomeProduto.Some? {
      var c := Condition(NomeProdutoLike, Text(LikePattern(f.nomeProduto.value)));
      clauses, args := AppendCondition(clauses, args, conds, c);
      conds := conds + [c];
    }
    assert conds == prev + Part(f.nomeProduto, NomeProdutoLike, true);
    prev := conds;
    if f.total.Some? {
      var c := Condition(TotalIgual, Text(f.total.value));
      clauses, args := AppendCondition(clauses, args, conds, c);
      conds := conds + [c];
    }
    assert conds == prev + Part(f.total, TotalIgual, false);
    assert conds == NameConditions(f);
    prev := conds;
    if f.dataPagamento.Some? {
      var c := Condition(DataPagamentoIgual, Text(f.dataPagamento.value));
      clauses, args := AppendCondition(clauses, args, conds, c);
      conds := conds + [c];
    }
    assert conds == prev + Part(f.dataPagamento, DataPagamentoIgual, false);
    prev := conds;
    if f.dataVenda.Some? {
      var c := Condition(DataVendaIgual, Text(f.dataVenda.value));
      clauses, args := AppendCondition(clauses, args, conds, c);
      conds := conds + [c];
    }
    assert conds == prev + Part(f.dataVenda, DataVendaIgual, false);
    prev := conds;
    if f.statusPagamento.Some? {
      var c := Condition(StatusLike, Text(LikePattern(f.statusPagamento.value)));
      clauses, args := AppendCondition(clauses, args, conds, c);
      conds := conds + [c];
    }
    assert conds == prev + Part(f.statusPagamento, StatusLike, true);
    assert conds == BuscarConditions(f);
  }

  /** The statement `BuscarVendas` sends: the clauses, then the shared WHERE and paging tail. */
  method BuscarStatement(f: VendaFiltros, limit: int, offset: int) returns (st: Statement)
    ensures st == Paged(BuscarBase, BuscarConditions(f), limit, offset)
    ensures WellFormed(st)
  {
    var clauses, args := BuscarClauses(f);
    st := PagedStatement(BuscarBase, clauses, args, BuscarConditions(f), limit, offset);
    BuscarShape(f, limit, offset);
  }

  /** `BuscarVendas`: the store's answer to the search statement is `answer`, each row given
      as the error its scan reported, if any. A failing query is returned as is; a failing
      row abandons the read with no list; otherwise there is one empty `Sale{}` per row, and
      an error that ended the iteration is not reported. */
  method BuscarVendas(answer: Statement -> QueryResult<Option<Error>>, f: VendaFiltros, limit: int, offset: int)
    returns (vendas: seq<Sale>, err: Option<Error>)
    ensures var res := answer(Paged(BuscarBase, BuscarConditions(f), limit, offset));
      && (res.QueryFailed? ==> vendas == [] && err == Some(res.error))
      && (res.Rows? && (forall k :: 0 <= k < |res.rows| ==> res.rows[k].None?) ==>
            err == None && vendas == seq(|res.rows|, _ => ZeroSale))
      && (res.Rows? && (exists k :: 0 <= k < |res.rows| && res.rows[k].Some?) ==>
            && vendas == []
            && exists k :: 0 <= k < |res.rows| && res.rows[k] == err
                           && forall j :: 0 <= j < k ==> res.rows[j].None?)
  {
    var st := BuscarStatement(f, limit, offset);
    var res := answer(st);
    if res.QueryFailed? {
      return [], Some(res.error);
    }
    var failed: Option<Error>;
    vendas, failed := Collect(res.rows, (scan: Option<Error>) => if scan.Some? then Err(scan.value) else Ok(ZeroSale));
    if failed.Some? {
      return [], failed;
    }
    err := None;
  }
}
