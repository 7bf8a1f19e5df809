/**
 * The product repository of internal/repository/produto_repository.go over an in-memory
 * `produtos` table: `Save` inserts a product or merges it into the row with the same
 * (supplier id, supplier code), `Delete` removes by id, `Update` rewrites the rows with
 * the product's key, and `Find` builds the filtered, paged search and converts its rows.
 *
 * Store failures are the `Option<string>` fault parameters: `Some(msg)` makes that store
 * call fail with `StoreFailure(msg)`.
 */
module ProdutoRepo {
  import opened Wrappers
  import opened Sql
  import opened Decimals
  import opened Produtos

  /** A row of `produtos`; the price column holds the driver value it was written with. */
  datatype ProdutoRow = ProdutoRow(
    id: int,
    nome: string,
    fornecedorId: int,
    codigoFornecedor: string,
    quantidadeEstoque: int,
    preco: Sql.Value)

  /** The table's rows in insertion order and the id the next insert receives. */
  datatype Table = Table(rows: seq<ProdutoRow>, nextId: int)

  const ErrBuscarExistente := "erro ao buscar produto existente"

  predicate HasKey(r: ProdutoRow, fornecedorId: int, codigo: string) {
    r.fornecedorId == fornecedorId && r.codigoFornecedor == codigo
  }

  /** Ids are positive, below the counter and distinct, and no two rows share a
      (supplier id, supplier code) key. */
  predicate Valid(t: Table) {
    && 1 <= t.nextId
    && (forall i :: 0 <= i < |t.rows| ==> 1 <= t.rows[i].id < t.nextId)
    && (forall i, j :: 0 <= i < j < |t.rows| ==> t.rows[i].id != t.rows[j].id)
    && (forall i, j :: 0 <= i < j < |t.rows| ==>
          !HasKey(t.rows[j], t.rows[i].fornecedorId, t.rows[i].codigoFornecedor))
  }

  // ----- Save -----

  /** The lookup query of `Save`: the position of the first row with the key. */
  function Lookup(rows: seq<ProdutoRow>, fornecedorId: int, codigo: string): (r: Option<nat>)
    ensures r.None? <==> forall i :: 0 <= i < |rows| ==> !HasKey(rows[i], fornecedorId, codigo)
    ensures r.Some? ==> && r.value < |rows|
                        && HasKey(rows[r.value], fornecedorId, codigo)
                        && forall j :: 0 <= j < r.value ==> !HasKey(rows[j], fornecedorId, codigo)
  {
    if rows == [] then None
    else if HasKey(rows[0], fornecedorId, codigo) then Some(0)
    else
      match Lookup(rows[1..], fornecedorId, codigo)
      case None =>
        assert forall i :: 1 <= i < |rows| ==> rows[i] == rows[1..][i - 1];
        None
      case Some(k) => Some(k + 1)
  }

  /** The price as `Save` writes it: `p.Preco.String()`. */
  function PriceText(apd: Apd, p: Produto): Sql.Value
    requires p.preco.Present?
  {
    Text(apd.format(p.preco.dec))
  }

  /** `UPDATE produtos SET quantidade_estoque = ?, preco = ? WHERE id = ?` */
  function SetStockWhereId(rows: seq<ProdutoRow>, id: int, quantidade: int, preco: Sql.Value): seq<ProdutoRow> {
    seq(|rows|, i requires 0 <= i < |rows| =>
      if rows[i].id == id then rows[i].(quantidadeEstoque := quantidade, preco := preco) else rows[i])
  }

  /** The table after a `Save` that meets no store failure: an insert when no row has the
      key, otherwise the stock of the found row grows by the incoming stock and its price
      is replaced. */
  function Upsert(t: Table, apd: Apd, p: Produto): Table
    requires p.preco.Present?
  {
    match Lookup(t.rows, p.fornecedor.id, p.codigoFornecedor)
    case None =>
      Table(t.rows + [ProdutoRow(t.nextId, p.nome, p.fornecedor.id, p.codigoFornecedor, p.quantidadeEstoque,
                                 PriceText(apd, p))],
            t.nextId + 1)
    case Some(i) =>
      Table(SetStockWhereId(t.rows, t.rows[i].id, t.rows[i].quantidadeEstoque + p.quantidadeEstoque, PriceText(apd, p)),
            t.nextId)
  }

  /** With no row for the key, `Save` appends exactly one row carrying the product's name,
      key, stock and price, and leaves the other rows as they were. */
  lemma SaveInserts(t: Table, apd: Apd, p: Produto)
    requires p.preco.Present?
    requires Lookup(t.rows, p.fornecedor.id, p.codigoFornecedor).None?
    ensures var u := Upsert(t, apd, p);
      && |u.rows| == |t.rows| + 1
      && u.rows[..|t.rows|] == t.rows
      && u.rows[|t.rows|].id == t.nextId
      && u.rows[|t.rows|].nome == p.nome
      && HasKey(u.rows[|t.rows|], p.fornecedor.id, p.codigoFornecedor)
      && u.rows[|t.rows|].quantidadeEstoque == p.quantidadeEstoque
      && u.rows[|t.rows|].preco == Text(apd.format(p.preco.dec))
  {
    assert (t.rows + [Upsert(t, apd, p).rows[|t.rows|]])[..|t.rows|] == t.rows;
  }

  /** With a row for the key, `Save` keeps the row count, adds the incoming stock to that
      row, replaces its price and changes nothing else. */
  lemma SaveMerges(t: Table, apd: Apd, p: Produto)
    requires Valid(t)
    requires p.preco.Present?
    requires Lookup(t.rows, p.fornecedor.id, p.codigoFornecedor).Some?
    ensures var i := Lookup(t.rows, p.fornecedor.id, p.codigoFornecedor).value;
      var u := Upsert(t, apd, p);
      && u.nextId == t.nextId
      && |u.rows| == |t.rows|
      && u.rows[i] == t.rows[i].(quantidadeEstoque := t.rows[i].quantidadeEstoque + p.quantidadeEstoque,
                                 preco := Text(apd.format(p.preco.dec)))
      && forall j :: 0 <= j < |t.rows| && j != i ==> u.rows[j] == t.rows[j]
  {
    var i := Lookup(t.rows, p.fornecedor.id, p.codigoFornecedor).value;
    var u := Upsert(t, apd, p);
    forall j | 0 <= j < |t.rows| && j != i
      ensures u.rows[j] == t.rows[j]
    {
      assert t.rows[j].id != t.rows[i].id by {
        if j < i {} else {}
      }
    }
  }

  /** `Save` keeps the table valid: the new row gets a fresh id and a key no row has. */
  lemma SavePreservesValid(t: Table, apd: Apd, p: Produto)
    requires Valid(t)
    requires p.preco.Present?
    ensures Valid(Upsert(t, apd, p))
  {
    if Lookup(t.rows, p.fornecedor.id, p.codigoFornecedor).None? {
      InsertKeepsValid(t, apd, p);
    } else {
      MergeKeepsValid(t, apd, p);
    }
  }

  lemma InsertKeepsValid(t: Table, apd: Apd, p: Produto)
    requires Valid(t)
    requires p.preco.Present?
    requires Lookup(t.rows, p.fornecedor.id, p.codigoFornecedor).None?
    ensures Valid(Upsert(t, apd, p))
  {
    var u := Upsert(t, apd, p);
    var n := |t.rows|;
    assert forall i :: 0 <= i < n ==> u.rows[i] == t.rows[i];
    assert forall i :: 0 <= i < n ==> u.rows[i].id != u.rows[n].id;
    assert forall i :: 0 <= i < n ==> !HasKey(u.rows[n], u.rows[i].fornecedorId, u.rows[i].codigoFornecedor);
  }

  lemma MergeKeepsValid(t: Table, apd: Apd, p: Produto)
    requires Valid(t)
    requires p.preco.Present?
    requires Lookup(t.rows, p.fornecedor.id, p.codigoFornecedor).Some?
    ensures Valid(Upsert(t, apd, p))
  {
    var u := Upsert(t, apd, p);
    assert forall i :: 0 <= i < |t.rows| ==>
      u.rows[i].id == t.rows[i].id && HasKey(u.rows[i], t.rows[i].fornecedorId, t.rows[i].codigoFornecedor);
  }

  /** Two `Save`s of the same key into a table without it, with stocks `a` then `b`, leave
      one row for the key, with stock `a + b` and the second price. */
  lemma SaveTwice(t: Table, apd: Apd, p: Produto, a: int, b: int, preco2: Dec)
    requires Valid(t)
    requires p.preco.Present?
    requires Lookup(t.rows, p.fornecedor.id, p.codigoFornecedor).None?
    ensures var u := Upsert(Upsert(t, apd, p.(quantidadeEstoque := a)), apd,
                            p.(quantidadeEstoque := b, preco := Present(preco2)));
      && |u.rows| == |t.rows| + 1
      && Lookup(u.rows, p.fornecedor.id, p.codigoFornecedor) == Some(|t.rows|)
      && (forall j :: 0 <= j < |u.rows| && HasKey(u.rows[j], p.fornecedor.id, p.codigoFornecedor) ==> j == |t.rows|)
      && u.rows[|t.rows|].quantidadeEstoque == a + b
      && u.rows[|t.rows|].preco == Text(apd.format(preco2))
  {
    var p1 := p.(quantidadeEstoque := a);
    var p2 := p.(quantidadeEstoque := b, preco := Present(preco2));
    var t1 := Upsert(t, apd, p1);
    SaveInserts(t, apd, p1);
    SavePreservesValid(t, apd, p1);
    var n := |t.rows|;
    assert forall j :: 0 <= j < n ==> t1.rows[j] == t.rows[j];
    assert Lookup(t1.rows, p.fornecedor.id, p.codigoFornecedor) == Some(n);
    SaveMerges(t1, apd, p2);
    SavePreservesValid(t1, apd, p2);
  }

  // ----- Delete -----

  /** `DELETE FROM produtos WHERE id = ?` */
  function RemoveId(rows: seq<ProdutoRow>, id: int): seq<ProdutoRow> {
    if rows == [] then [] else (if rows[0].id == id then [] else [rows[0]]) + RemoveId(rows[1..], id)
  }

  /** The delete removes some row exactly when a row has the id, and removes nothing
      otherwise. */
  lemma {:induction false} RemoveIdCount(rows: seq<ProdutoRow>, id: int)
    ensures |RemoveId(rows, id)| <= |rows|
    ensures |RemoveId(rows, id)| == |rows| <==> forall i :: 0 <= i < |rows| ==> rows[i].id != id
    ensures (forall i :: 0 <= i < |rows| ==> rows[i].id != id) ==> RemoveId(rows, id) == rows
  {
    if rows != [] {
      RemoveIdCount(rows[1..], id);
      assert forall i :: 1 <= i < |rows| ==> rows[i] == rows[1..][i - 1];
      if rows[0].id != id {
        assert [rows[0]] + rows[1..] == rows;
      }
    }
  }

  /** With distinct ids, the delete removes exactly the row with the id. */
  lemma {:induction false} RemoveIdExactly(rows: seq<ProdutoRow>, id: int, i: nat)
    requires i < |rows| && rows[i].id == id
    requires forall a, b :: 0 <= a < b < |rows| ==> rows[a].id != rows[b].id
    ensures RemoveId(rows, id) == rows[..i] + rows[i + 1..]
  {
    if i == 0 {
      RemoveIdCount(rows[1..], id);
      assert forall k :: 0 <= k < |rows[1..]| ==> rows[1..][k] == rows[k + 1];
    } else {
      RemoveIdExactly(rows[1..], id, i - 1);
      assert rows[1..][..i - 1] == rows[1..i];
      assert rows[1..][i..] == rows[i + 1..];
      assert [rows[0]] + rows[1..i] == rows[..i];
    }
  }

  /** Deleting a present id keeps the table valid. */
  lemma DeletePreservesValid(t: Table, i: nat)
    requires Valid(t)
    requires i < |t.rows|
    ensures Valid(Table(RemoveId(t.rows, t.rows[i].id), t.nextId))
  {
    RemoveIdExactly(t.rows, t.rows[i].id, i);
    var r := t.rows[..i] + t.rows[i + 1..];
    assert forall k :: 0 <= k < |r| ==> r[k] == t.rows[if k < i then k else k + 1];
  }

  // ----- Update -----

  /** `UPDATE produtos SET nome = ?, codigo_fornecedor = ?, quantidade_estoque = ?, preco = ?
      WHERE fornecedor_id = ? AND codigo_fornecedor = ?`; the price is bound through the
      wrapper's `Value`. */
  function UpdateRows(rows: seq<ProdutoRow>, apd: Apd, p: Produto): seq<ProdutoRow> {
    seq(|rows|, i requires 0 <= i < |rows| =>
      if HasKey(rows[i], p.fornecedor.id, p.codigoFornecedor)
      then rows[i].(nome := p.nome, codigoFornecedor := p.codigoFornecedor,
                    quantidadeEstoque := p.quantidadeEstoque, preco := Decimals.Value(apd, p.preco))
      else rows[i])
  }

  /** `Update` selects by (supplier id, code), so it can never change a row's id or key;
      the selected rows get the product's name, stock and price, the others stay. */
  lemma UpdateKeepsKeys(rows: seq<ProdutoRow>, apd: Apd, p: Produto)
    ensures |UpdateRows(rows, apd, p)| == |rows|
    ensures forall i :: 0 <= i < |rows| ==>
              && UpdateRows(rows, apd, p)[i].id == rows[i].id
              && UpdateRows(rows, apd, p)[i].fornecedorId == rows[i].fornecedorId
              && UpdateRows(rows, apd, p)[i].codigoFornecedor == rows[i].codigoFornecedor
    ensures forall i :: 0 <= i < |rows| && !HasKey(rows[i], p.fornecedor.id, p.codigoFornecedor) ==>
              UpdateRows(rows, apd, p)[i] == rows[i]
    ensures forall i :: 0 <= i < |rows| && HasKey(rows[i], p.fornecedor.id, p.codigoFornecedor) ==>
              && UpdateRows(rows, apd, p)[i].nome == p.nome
              && UpdateRows(rows, apd, p)[i].quantidadeEstoque == p.quantidadeEstoque
              && UpdateRows(rows, apd, p)[i].preco == Decimals.Value(apd, p.preco)
  {
  }

  /** `Update` of a key no row has changes nothing, and reports nothing. */
  lemma UpdateMissingKey(rows: seq<ProdutoRow>, apd: Apd, p: Produto)
    requires Lookup(rows, p.fornecedor.id, p.codigoFornecedor).None?
    ensures UpdateRows(rows, apd, p) == rows
  {
  }

  lemma UpdatePreservesValid(t: Table, apd: Apd, p: Produto)
    requires Valid(t)
    ensures Valid(Table(UpdateRows(t.rows, apd, p), t.nextId))
  {
    UpdateKeepsKeys(t.rows, apd, p);
  }

  /** The repository: the `produtos` table it reads and writes. */
  class ProdutoRepository {
    var rows: seq<ProdutoRow>
    var nextId: int

    function Contents(): Table
      reads this
    {
      Table(rows, nextId)
    }

    constructor ()
      ensures Contents() == Table([], 1) && Valid(Contents())
    {
      rows := [];
      nextId := 1;
    }

    /** `Save`: a failing lookup is reported wrapped and a failing write as is, and then the
        table is unchanged; otherwise the table becomes `Upsert` of the old one. A nil price
        makes the source dereference nil, so the price must be present. */
    method Save(apd: Apd, p: Produto, lookupFault: Option<string>, execFault: Option<string>)
      returns (err: Option<Error>)
      requires p.preco.Present?
      modifies this
      ensures lookupFault.Some? ==>
                err == Some(Wrapped(ErrBuscarExistente, StoreFailure(lookupFault.value)))
                && Contents() == old(Contents())
      ensures lookupFault.None? && execFault.Some? ==>
                err == Some(StoreFailure(execFault.value)) && Contents() == old(Contents())
      ensures lookupFault.None? && execFault.None? ==>
                err == None && Contents() == Upsert(old(Contents()), apd, p)
    {
      var found := Lookup(rows, p.fornecedor.id, p.codigoFornecedor);
      if lookupFault.Some? {
        return Some(Wrapped(ErrBuscarExistente, StoreFailure(lookupFault.value)));
      }
      match found {
        case None =>
          if execFault.Some? {
            return Some(StoreFailure(execFault.value));
          }
          rows := rows + [ProdutoRow(nextId, p.nome, p.fornecedor.id, p.codigoFornecedor,
                                     p.quantidadeEstoque, Text(apd.format(p.preco.dec)))];
          nextId := nextId + 1;
        case Some(i) =>
          var id, qtdAtual := rows[i].id, rows[i].quantidadeEstoque;
          var novaQtde := qtdAtual + p.quantidadeEstoque;
          if execFault.Some? {
            return Some(StoreFailure(execFault.value));
          }
          rows := SetStockWhereId(rows, id, novaQtde, Text(apd.format(p.preco.dec)));
      }
      err := None;
    }

    /** `Delete`: the rows with the id are removed; `NoRows` is reported exactly when no
        row had it, and then the table is unchanged. */
    method Delete(id: int, execFault: Option<string>) returns (err: Option<Error>)
      modifies this
      ensures execFault.Some? ==> err == Some(StoreFailure(execFault.value)) && Contents() == old(Contents())
      ensures execFault.None? ==> rows == RemoveId(old(rows), id) && nextId == old(nextId)
      ensures execFault.None? ==> (err == Some(NoRows) <==> forall i :: 0 <= i < |old(rows)| ==> old(rows)[i].id != id)
      ensures execFault.None? ==> err.None? || err == Some(NoRows)
      ensures err == Some(NoRows) ==> Contents() == old(Contents())
    {
      if execFault.Some? {
        return Some(StoreFailure(execFault.value));
      }
      var remaining := RemoveId(rows, id);
      RemoveIdCount(rows, id);
      var affected := |rows| - |remaining|;
      rows := remaining;
      if affected == 0 {
        return Some(NoRows);
      }
      err := None;
    }

    /** `Update`: the rows with the product's key are rewritten; how many matched is not
        looked at. */
    method Update(apd: Apd, p: Produto, execFault: Option<string>) returns (err: Option<Error>)
      modifies this
      ensures execFault.Some? ==> err == Some(StoreFailure(execFault.value)) && Contents() == old(Contents())
      ensures execFault.None? ==> err == None && rows == UpdateRows(old(rows), apd, p) && nextId == old(nextId)
    {
      if execFault.Some? {
        return Some(StoreFailure(execFault.value));
      }
      rows := UpdateRows(rows, apd, p);
      err := None;
    }
  }

  // ----- Find -----

  /** The filters `Find` understands; an absent key is `None`. */
  datatype Filtros = Filtros(
    nome: Option<string>,
    fornecedorId: Option<int>,
    codigoFornecedor: Option<string>,
    precoMin: Option<Dec>,
    precoMax: Option<Dec>)

  const FindBase: Query :=
    [Word("SELECT id, nome, fornecedor_id, codigo_fornecedor, quantidade_estoque, preco FROM produtos")]

  const NomeLike: Query := [Word("nome LIKE "), Param]
  const FornecedorIgual: Query := [Word("fornecedor_id = "), Param]
  const CodigoIgual: Query := [Word("codigo_fornecedor = "), Param]
  const PrecoMinimo: Query := [Word("preco >= "), Param]
  const PrecoMaximo: Query := [Word("preco <= "), Param]

  function NomePart(f: Filtros): seq<Condition> {
    if f.nome.Some? then [Condition(NomeLike, Text(LikePattern(f.nome.value)))] else []
  }

  function FornecedorPart(f: Filtros): seq<Condition> {
    if f.fornecedorId.Some? then [Condition(FornecedorIgual, Int64(f.fornecedorId.value))] else []
  }

  function CodigoPart(f: Filtros): seq<Condition> {
    if f.codigoFornecedor.Some? then [Condition(CodigoIgual, Text(f.codigoFornecedor.value))] else []
  }

  function PrecoMinPart(apd: Apd, f: Filtros): seq<Condition> {
    if f.precoMin.Some? then [Condition(PrecoMinimo, Text(apd.format(f.precoMin.value)))] else []
  }

  function PrecoMaxPart(apd: Apd, f: Filtros): seq<Condition> {
    if f.precoMax.Some? then [Condition(PrecoMaximo, Text(apd.format(f.precoMax.value)))] else []
  }

  /** The conditions of the filters present, in the order name, supplier, code, minimum
      price, maximum price. */
  function FindConditions(apd: Apd, f: Filtros): seq<Condition> {
    NomePart(f) + FornecedorPart(f) + CodigoPart(f) + PrecoMinPart(apd, f) + PrecoMaxPart(apd, f)
  }

  function CountPresent(f: Filtros): nat {
    (if f.nome.Some? then 1 else 0) + (if f.fornecedorId.Some? then 1 else 0)
    + (if f.codigoFornecedor.Some? then 1 else 0) + (if f.precoMin.Some? then 1 else 0)
    + (if f.precoMax.Some? then 1 else 0)
  }

  lemma FindConditionsShape(apd: Apd, f: Filtros)
    ensures |FindConditions(apd, f)| == CountPresent(f)
    ensures OnePlaceholderEach(FindConditions(apd, f))
  {
    var a := NomePart(f) + FornecedorPart(f) + CodigoPart(f);
    KeyConditionsShape(f);
    assert Placeholders(PrecoMinimo) == 1 && Placeholders(PrecoMaximo) == 1;
    OnePlaceholderEachConcat(a, PrecoMinPart(apd, f));
    OnePlaceholderEachConcat(a + PrecoMinPart(apd, f), PrecoMaxPart(apd, f));
  }

  /** The name, supplier and code conditions: one placeholder each. */
  lemma KeyConditionsShape(f: Filtros)
    ensures |NomePart(f) + FornecedorPart(f) + CodigoPart(f)| ==
            (if f.nome.Some? then 1 else 0) + (if f.fornecedorId.Some? then 1 else 0)
            + (if f.codigoFornecedor.Some? then 1 else 0)
    ensures OnePlaceholderEach(NomePart(f) + FornecedorPart(f) + CodigoPart(f))
  {
    assert Placeholders(NomeLike) == 1 && Placeholders(FornecedorIgual) == 1 && Placeholders(CodigoIgual) == 1;
    OnePlaceholderEachConcat(NomePart(f), FornecedorPart(f));
    OnePlaceholderEachConcat(NomePart(f) + FornecedorPart(f), CodigoPart(f));
  }

  /** The search statement of `Find` has one argument per placeholder; its filter arguments
      come first, the name one (wrapped in `%`) leading when present, and `limit` and
      `offset` last; the WHERE part is there exactly when a filter is present. */
  lemma FindShape(apd: Apd, f: Filtros, limit: int, offset: int)
    ensures var st := Paged(FindBase, FindConditions(apd, f), limit, offset);
      && WellFormed(st)
      && |st.args| == CountPresent(f) + 2
      && st.args[CountPresent(f)..] == [Int64(limit), Int64(offset)]
      && (f.nome.Some? ==> st.args[0] == Text(LikePattern(f.nome.value)))
      && (CountPresent(f) == 0 <==> st.sql == FindBase + PageSuffix)
  {
    var conds := FindConditions(apd, f);
    FindConditionsShape(apd, f);
    assert Placeholders(FindBase) == 0;
    PagedShape(FindBase, conds, limit, offset);
    PagedWhere(FindBase, conds, limit, offset);
    if f.nome.Some? {
      assert conds[0] == NomePart(f)[0];
    }
  }

  /** The clauses and arguments `Find` appends, one pair per filter present. */
  method FindClauses(apd: Apd, f: Filtros) returns (clauses: seq<Query>, args: seq<Sql.Value>)
    ensures clauses == Clauses(FindConditions(apd, f)) && args == ConditionArgs(FindConditions(apd, f))
  {
    clauses, args := [], [];
    ghost var conds: seq<Condition> := [];
    ghost var prev: seq<Condition>;
    if f.nome.Some? {
      var c := Condition(NomeLike, Text(LikePattern(f.nome.value)));
      clauses, args := AppendCondition(clauses, args, conds, c);
      conds := conds + [c];
    }
    assert conds == NomePart(f);
    prev := conds;
    if f.fornecedorId.Some? {
      var c := Condition(FornecedorIgual, Int64(f.fornecedorId.value));
      clauses, args := AppendCondition(clauses, args, conds, c);
      conds := conds + [c];
    }
    assert conds == prev + FornecedorPart(f);
    prev := conds;
    if f.codigoFornecedor.Some? {
      var c := Condition(CodigoIgual, Text(f.codigoFornecedor.value));
      clauses, args := AppendCondition(clauses, args, conds, c);
      conds := conds + [c];
    }
    assert conds == prev + CodigoPart(f);
    prev := conds;
    if f.precoMin.Some? {
      var c := Condition(PrecoMinimo, Text(apd.format(f.precoMin.value)));
      clauses, args := AppendCondition(clauses, args, conds, c);
      conds := conds + [c];
    }
    assert conds == prev + PrecoMinPart(apd, f);
    prev := conds;
    if f.precoMax.Some? {
      var c := Condition(PrecoMaximo, Text(apd.format(f.precoMax.value)));
      clauses, args := AppendCondition(clauses, args, conds, c);
      conds := conds + [c];
    }
    assert conds == prev + PrecoMaxPart(apd, f);
    assert conds == FindConditions(apd, f);
  }

  /** The statement `Find` sends: the clauses, then the shared WHERE and paging tail. */
  method FindStatement(apd: Apd, f: Filtros, limit: int, offset: int) returns (st: Statement)
    ensures st == Paged(FindBase, FindConditions(apd, f), limit, offset)
    ensures WellFormed(st)
  {
    var clauses, args := FindClauses(apd, f);
    st := PagedStatement(FindBase, clauses, args, FindConditions(apd, f), limit, offset);
    FindShape(apd, f, limit, offset);
  }

  /** One row as `rows.Scan` leaves it: the scan error, or the eight values read. */
  datatype ProdutoScan =
    | ScanFailed(error: Error)
    | Scanned(id: int, nome: string, fornecedorId: int, codigoFornecedor: string, codigoBarras: string,
              quantidadeEstoque: int, preco: string, qtdMinima: int)

  /** A row becomes a product through `NewProduto`, with a supplier whose name is the
      product's name. */
  function RowToProduto(apd: Apd, s: ProdutoScan): (r: Result<Produto, Error>)
    ensures s.ScanFailed? ==> r == Err(s.error)
    ensures s.Scanned? ==> r == NewProduto(apd, s.id, s.nome, Fornecedor(s.fornecedorId, s.nome),
                                           s.codigoFornecedor, s.quantidadeEstoque, s.preco)
  {
    match s
    case ScanFailed(e) => Err(e)
    case Scanned(id, nome, fornecedorId, codigo, _, quantidade, preco, _) =>
      NewProduto(apd, id, nome, Fornecedor(fornecedorId, nome), codigo, quantidade, preco)
  }

  /** `Find`: the store's answer to the search statement is `answer`. A failing query is
      returned as is; a row that fails to scan or to build a product abandons the read with
      no list; otherwise every row becomes a product, in order, and the iteration error,
      if any, is returned beside the list. */
  method Find(apd: Apd, answer: Statement -> QueryResult<ProdutoScan>, f: Filtros, limit: int, offset: int)
    returns (produtos: seq<Produto>, err: Option<Error>)
    ensures var res := answer(Paged(FindBase, FindConditions(apd, f), limit, offset));
      && (res.QueryFailed? ==> produtos == [] && err == Some(res.error))
      && (res.Rows? && (forall k :: 0 <= k < |res.rows| ==> RowToProduto(apd, res.rows[k]).Ok?) ==>
            && |produtos| == |res.rows|
            && (forall k :: 0 <= k < |res.rows| ==> RowToProduto(apd, res.rows[k]) == Ok(produtos[k]))
            && err == res.iterError)
      && (res.Rows? && (exists k :: 0 <= k < |res.rows| && RowToProduto(apd, res.rows[k]).Err?) ==>
            && produtos == []
            && err.Some?
            && exists k :: 0 <= k < |res.rows| && RowToProduto(apd, res.rows[k]) == Err(err.value)
                           && forall j :: 0 <= j < k ==> RowToProduto(apd, res.rows[j]).Ok?)
  {
    var st := FindStatement(apd, f, limit, offset);
    var res := answer(st);
    if res.QueryFailed? {
      return [], Some(res.error);
    }
    var failed: Option<Error>;
    produtos, failed := Collect(res.rows, (s: ProdutoScan) => RowToProduto(apd, s));
    if failed.Some? {
      return [], failed;
    }
    err := res.iterError;
  }
}
