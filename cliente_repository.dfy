/**
 * The client repository of internal/repository/cliente_repository.go: the filtered, paged
 * search of `BuscarClientes` with its row loop, and the SET list of `AtualizarCliente`.
 */
module ClienteRepo {
  import opened Wrappers
  import opened Sql
  import opened Clientes

  // ----- BuscarClientes -----

  /** The filters `BuscarClientes` understands; an absent key is `None`. */
  datatype ClienteFiltros = ClienteFiltros(nome: Option<string>, telefone: Option<string>)

  const BuscarBase: Query := [Word("SELECT * FROM clientes ")]
  const NomeLike: Query := [Word("nome ILIKE "), Param]
  const TelefoneLike: Query := [Word("telefone LIKE "), Param]

  function NomePart(f: ClienteFiltros): seq<Condition> {
    if f.nome.Some? then [Condition(NomeLike, Text(LikePattern(f.nome.value)))] else []
  }

  function TelefonePart(f: ClienteFiltros): seq<Condition> {
    if f.telefone.Some? then [Condition(TelefoneLike, Text(LikePattern(f.telefone.value)))] else []
  }

  /** The conditions of the filters present: name before phone, both matched as `%value%`. */
  function BuscarConditions(f: ClienteFiltros): seq<Condition> {
    NomePart(f) + TelefonePart(f)
  }

  function CountPresent(f: ClienteFiltros): nat {
    (if f.nome.Some? then 1 else 0) + (if f.telefone.Some? then 1 else 0)
  }

  lemma BuscarConditionsShape(f: ClienteFiltros)
    ensures |BuscarConditions(f)| == CountPresent(f)
    ensures OnePlaceholderEach(BuscarConditions(f))
  {
    assert Placeholders(NomeLike) == 1 && Placeholders(TelefoneLike) == 1;
    OnePlaceholderEachConcat(NomePart(f), TelefonePart(f));
  }

  /** The search statement of `BuscarClientes` has one argument per placeholder, with
      `limit` and `offset` last; the WHERE part is there exactly when a filter is present. */
  lemma BuscarShape(f: ClienteFiltros, limit: int, offset: int)
    ensures var st := Paged(BuscarBase, BuscarConditions(f), limit, offset);
      && WellFormed(st)
      && |st.args| == CountPresent(f) + 2
      && st.args[CountPresent(f)..] == [Int64(limit), Int64(offset)]
      && (CountPresent(f) == 0 <==> st.sql == BuscarBase + PageSuffix)
  {
    var conds := BuscarConditions(f);
    BuscarConditionsShape(f);
    assert Placeholders(BuscarBase) == 0;
    PagedShape(BuscarBase, conds, limit, offset);
    PagedWhere(BuscarBase, conds, limit, offset);
  }

  /** The filter arguments are the values wrapped in `%`: the name's first, the phone's
      last. */
  lemma BuscarArgs(f: ClienteFiltros, limit: int, offset: int)
    ensures var st := Paged(BuscarBase, BuscarConditions(f), limit, offset);
      && (f.nome.Some? ==> st.args[0] == Text(LikePattern(f.nome.value)))
      && (f.telefone.Some? ==> st.args[CountPresent(f) - 1] == Text(LikePattern(f.telefone.value)))
  {
    var conds := BuscarConditions(f);
    BuscarConditionsShape(f);
    var args := ConditionArgs(conds);
    assert Paged(BuscarBase, conds, limit, offset).args == args + [Int64(limit), Int64(offset)];
    if f.nome.Some? {
      assert conds[0] == NomePart(f)[0];
      assert args[0] == conds[0].arg;
    }
    if f.telefone.Some? {
      assert conds[|conds| - 1] == TelefonePart(f)[0];
      assert args[|conds| - 1] == conds[|conds| - 1].arg;
    }
  }

  /** With both filters, the name clause comes first. */
  lemma BuscarOrder(f: ClienteFiltros)
    requires f.nome.Some? && f.telefone.Some?
    ensures Clauses(BuscarConditions(f)) == [NomeLike, TelefoneLike]
  {
    var conds := BuscarConditions(f);
    assert Clauses(conds) == [conds[0].clause, conds[1].clause];
  }

  /** The statement `BuscarClientes` sends: one clause and argument per filter present,
      then the shared WHERE and paging tail. */
  method BuscarStatement(f: ClienteFiltros, limit: int, offset: int) returns (st: Statement)
    ensures st == Paged(BuscarBase, BuscarConditions(f), limit, offset)
    ensures WellFormed(st)
  {
    var clauses: seq<Query>, args: seq<Sql.Value> := [], [];
    ghost var conds: seq<Condition> := [];
    ghost var prev: seq<Condition>;
    if f.nome.Some? {
      var c := Condition(NomeLike, Text(LikePattern(f.nome.value)));
      clauses, args := AppendCondition(clauses, args, conds, c);
      conds := conds + [c];
    }
    assert conds == NomePart(f);
    prev := conds;
    if f.telefone.Some? {
      var c := Condition(TelefoneLike, Text(LikePattern(f.telefone.value)));
      clauses, args := AppendCondition(clauses, args, conds, c);
      conds := conds + [c];
    }
    assert conds == prev + TelefonePart(f);
    assert conds == BuscarConditions(f);
    st := PagedStatement(BuscarBase, clauses, args, conds, limit, offset);
    BuscarShape(f, limit, offset);
  }

  /** One row as `rows.Scan` leaves it: the scan error, or the four columns. */
  datatype ClienteScan =
    | ScanFailed(error: Error)
    | Scanned(id: int, nome: string, telefone: string, dataCadastro: string)

  function RowToCliente(s: ClienteScan): (r: Result<Cliente, Error>)
    ensures s.ScanFailed? <==> r.Err?
    ensures s.ScanFailed? ==> r.error == s.error
    ensures s.Scanned? ==> r.value == Cliente(s.id, s.nome, s.telefone, s.dataCadastro)
  {
    match s
    case ScanFailed(e) => Err(e)
    case Scanned(id, nome, telefone, dataCadastro) => Ok(Cliente(id, nome, telefone, dataCadastro))
  }

  /** `BuscarClientes`: the store's answer to the search statement is `answer`. A failing
      query is returned as is; a row that fails to scan abandons the read with no list;
      otherwise every row becomes a client, in order, and an error that ended the iteration
      is not reported. */
  method BuscarClientes(answer: Statement -> QueryResult<ClienteScan>, f: ClienteFiltros, limit: int, offset: int)
    returns (clientes: seq<Cliente>, err: Option<Error>)
    ensures var res := answer(Paged(BuscarBase, BuscarConditions(f), limit, offset));
      && (res.QueryFailed? ==> clientes == [] && err == Some(res.error))
      && (res.Rows? && (forall k :: 0 <= k < |res.rows| ==> RowToCliente(res.rows[k]).Ok?) ==>
            && err == None
            && |clientes| == |res.rows|
            && forall k :: 0 <= k < |res.rows| ==> RowToCliente(res.rows[k]) == Ok(clientes[k]))
      && (res.Rows? && (exists k :: 0 <= k < |res.rows| && RowToCliente(res.rows[k]).Err?) ==>
            && clientes == []
            && err.Some?
            && exists k :: 0 <= k < |res.rows| && RowToCliente(res.rows[k]) == Err(err.value)
                           && forall j :: 0 <= j < k ==> RowToCliente(res.rows[j]).Ok?)
  {
    var st := BuscarStatement(f, limit, offset);
    var res := answer(st);
    if res.QueryFailed? {
      return [], Some(res.error);
    }
    var failed: Option<Error>;
    clientes, failed := Collect(res.rows, RowToCliente);
    if failed.Some? {
      return [], failed;
    }
    err := None;
  }

  // ----- AtualizarCliente -----

  const UpdateHead: Query := [Word("UPDATE clientes SET ")]
  const NomeSet: Query := [Word("nome = "), Param]
  const TelefoneSet: Query := [Word("telefone = "), Param]
  const UpdateTail: Query := [Word("WHERE id = "), Param, Word(" ")]

  /** The SET clauses: `nome = ?` when the name is non-empty, then `telefone = ?` when the
      phone is non-empty. */
  function SetClauses(c: Cliente): seq<Query> {
    (if c.nome != "" then [NomeSet] else []) + (if c.telefone != "" then [TelefoneSet] else [])
  }

  /** A field gets its SET clause exactly when it is non-empty, the name's before the
      phone's. */
  lemma SetClausesChoice(c: Cliente)
    ensures NomeSet in SetClauses(c) <==> c.nome != ""
    ensures TelefoneSet in SetClauses(c) <==> c.telefone != ""
    ensures |SetClauses(c)| <= 2
    ensures c.nome != "" && c.telefone != "" ==> SetClauses(c) == [NomeSet, TelefoneSet]
  {
    assert NomeSet != TelefoneSet by { assert NomeSet[0] != TelefoneSet[0]; }
  }

  /** The text of `AtualizarCliente`'s update: the head, the clauses joined by `, `, and the
      WHERE part with no separator before it. */
  function UpdateText(c: Cliente): Query {
    UpdateHead + Join(SetClauses(c), [Word(", ")]) + UpdateTail
  }

  /** The update has one placeholder per SET clause plus the id's. */
  lemma UpdateTextPlaceholders(c: Cliente)
    ensures Placeholders(UpdateText(c)) == |SetClauses(c)| + 1
    ensures |SetClauses(c)| == (if c.nome != "" then 1 else 0) + (if c.telefone != "" then 1 else 0)
  {
    var cs := SetClauses(c);
    assert Placeholders(NomeSet) == 1 && Placeholders(TelefoneSet) == 1;
    assert Placeholders(UpdateHead) == 0 && Placeholders(UpdateTail) == 1;
    assert Placeholders([Word(", ")]) == 0;
    assert forall i :: 0 <= i < |cs| ==> Placeholders(cs[i]) == 1;
    PlaceholdersInUniform(cs, 1);
    JoinPlaceholders(cs, [Word(", ")]);
    PlaceholdersConcat(UpdateHead, Join(cs, [Word(", ")]));
    PlaceholdersConcat(UpdateHead + Join(cs, [Word(", ")]), UpdateTail);
  }

  /** `AtualizarCliente` as written: the clauses are chosen by which fields are non-empty,
      but the arguments are always the name, the phone and the id. */
  method AtualizarClienteStatement(id: int, c: Cliente) returns (st: Statement)
    ensures st.sql == UpdateText(c)
    ensures st.args == [Text(c.nome), Text(c.telefone), Int64(id)]
  {
    var clauses: seq<Query> := [];
    if c.nome != "" {
      clauses := clauses + [NomeSet];
    }
    if c.telefone != "" {
      clauses := clauses + [TelefoneSet];
    }
    assert clauses == SetClauses(c);
    var sql := UpdateHead;
    sql := sql + Join(clauses, [Word(", ")]);
    sql := sql + UpdateTail;
    st := Statement(sql, [Text(c.nome), Text(c.telefone), Int64(id)]);
  }

  /** As written, placeholders and arguments agree only when both fields are non-empty. */
  lemma AtualizarClienteMismatch(id: int, c: Cliente)
    ensures WellFormed(Statement(UpdateText(c), [Text(c.nome), Text(c.telefone), Int64(id)]))
            <==> c.nome != "" && c.telefone != ""
  {
    UpdateTextPlaceholders(c);
  }

  /** An update of the phone alone: two placeholders against three arguments, so the
      statement is refused, and the name `""` sits where the phone was meant. */
  lemma AtualizarTelefoneOnly(id: int)
    ensures var c := Cliente(id, "", "5555-0000", "");
      && Placeholders(UpdateText(c)) == 2
      && !WellFormed(Statement(UpdateText(c), [Text(c.nome), Text(c.telefone), Int64(id)]))
  {
    var c := Cliente(id, "", "5555-0000", "");
    UpdateTextPlaceholders(c);
    assert SetClauses(c) == [TelefoneSet];
  }

  /** The text of that update: no separator between the last SET clause and `WHERE`. */
  lemma UpdateTextTelefoneOnly(id: int)
    ensures Render(UpdateText(Cliente(id, "", "5555-0000", ""))) == "UPDATE clientes SET telefone = ?WHERE id = ? "
  {
    var c := Cliente(id, "", "5555-0000", "");
    assert SetClauses(c) == [TelefoneSet];
    assert UpdateText(c) == UpdateHead + TelefoneSet + UpdateTail;
    RenderConcat(UpdateHead + TelefoneSet, UpdateTail);
    RenderConcat(UpdateHead, TelefoneSet);
    RenderWords(UpdateHead);
    var t := Render(TelefoneSet);
    assert t == "telefone = ?" by {
      assert TelefoneSet[..1] == [Word("telefone = ")];
      RenderWords(TelefoneSet[..1]);
    }
    var u := Render(UpdateTail);
    assert u == "WHERE id = ? " by {
      assert UpdateTail[..2] == [Word("WHERE id = "), Param];
      assert UpdateTail[..2][..1] == [Word("WHERE id = ")];
      RenderWords(UpdateTail[..2][..1]);
    }
    TelefoneOnlyPieces();
  }

  lemma TelefoneOnlyPieces()
    ensures "UPDATE clientes SET " + "telefone = ?" + "WHERE id = ? " == "UPDATE clientes SET telefone = ?WHERE id = ? "
  {
  }

  /** The arguments the clauses call for: the name when non-empty, then the phone when
      non-empty. */
  function SetArgs(c: Cliente): seq<Sql.Value> {
    (if c.nome != "" then [Text(c.nome)] else []) + (if c.telefone != "" then [Text(c.telefone)] else [])
  }

  /** `AtualizarCliente` with each argument appended beside its clause: the same text, and
      one argument per placeholder, the id last. */
  method AtualizarClienteStatementFixed(id: int, c: Cliente) returns (st: Statement)
    ensures st.sql == UpdateText(c)
    ensures st.args == SetArgs(c) + [Int64(id)]
    ensures WellFormed(st)
  {
    var clauses: seq<Query> := [];
    var args: seq<Sql.Value> := [];
    if c.nome != "" {
      clauses, args := clauses + [NomeSet], args + [Text(c.nome)];
    }
    if c.telefone != "" {
      clauses, args := clauses + [TelefoneSet], args + [Text(c.telefone)];
    }
    assert clauses == SetClauses(c) && args == SetArgs(c);
    var sql := UpdateHead;
    sql := sql + Join(clauses, [Word(", ")]);
    sql := sql + UpdateTail;
    st := Statement(sql, args + [Int64(id)]);
    SetArgsMatch(id, c);
  }

  /** Each clause's argument in the clause's place, and the id last: one per placeholder. */
  lemma SetArgsMatch(id: int, c: Cliente)
    ensures WellFormed(Statement(UpdateText(c), SetArgs(c) + [Int64(id)]))
  {
    UpdateTextPlaceholders(c);
  }
}
