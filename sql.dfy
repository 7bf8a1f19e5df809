/**
 * What the repositories need of Go's `database/sql`: the values a driver exchanges,
 * the errors, SQL statements as text plus arguments, the `WHERE ... LIMIT ? OFFSET ?`
 * shape shared by the three search queries, and the row loop that aborts on the first
 * failing row.
 */
module Sql {
  import opened Wrappers

  newtype byte = x: int | 0 <= x < 0x100

  /** A `time.Time`; the model only compares instants for equality. */
  datatype Instant = Instant(stamp: int)

  /** The zero `time.Time`. */
  const ZeroTime := Instant(0)

  /** A `driver.Value`: what an argument becomes once bound and what a column is read as.
      (`float64` is not modelled.) */
  datatype Value =
    | Null
    | Int64(i: int)
    | Bool(b: bool)
    | Bytes(bytes: seq<byte>)
    | Text(s: string)
    | Time(t: Instant)

  /** The errors of the modelled core. */
  datatype Error =
    | NoRows                                  // sql.ErrNoRows
    | StoreFailure(msg: string)               // any other failure reported by the store
    | Invalid(msg: string)                    // errors.New(msg) in the domain layer
    | DecimalSyntax(input: string)            // apd rejected the text
    | JsonSyntax(input: string)               // encoding/json rejected the input
    | Wrapped(context: string, cause: Error)  // fmt.Errorf("context: %w", cause)

  /** SQL text as the repositories write it: literal text and `?` placeholders. */
  datatype Token = Word(text: string) | Param

  type Query = seq<Token>

  /** The text sent to the store. */
  function Render(q: Query): string {
    if q == [] then "" else Render(q[..|q| - 1]) + (match q[|q| - 1] case Word(t) => t case Param => "?")
  }

  lemma {:induction false} RenderConcat(a: Query, b: Query)
    ensures Render(a + b) == Render(a) + Render(b)
  {
    if b != [] {
      assert (a + b)[..|a + b| - 1] == a + b[..|b| - 1];
      RenderConcat(a, b[..|b| - 1]);
    } else {
      assert a + b == a;
    }
  }

  lemma RenderWords(q: Query)
    requires |q| == 1 && q[0].Word?
    ensures Render(q) == q[0].text
  {
    assert q[..0] == [];
  }

  /** A statement as sent to the store: SQL text and positional arguments. */
  datatype Statement = Statement(sql: Query, args: seq<Value>)

  /** Number of `?` placeholders in a SQL text. */
  function Placeholders(q: Query): nat {
    multiset(q)[Param]
  }

  lemma PlaceholdersConcat(a: Query, b: Query)
    ensures Placeholders(a + b) == Placeholders(a) + Placeholders(b)
  {
    assert multiset(a + b) == multiset(a) + multiset(b);
  }

  /** A statement whose placeholders and arguments agree in number. */
  predicate WellFormed(st: Statement) {
    Placeholders(st.sql) == |st.args|
  }

  /** `strings.Join`. */
  function Join(parts: seq<Query>, sep: Query): Query {
    if |parts| == 0 then []
    else if |parts| == 1 then parts[0]
    else Join(parts[..|parts| - 1], sep) + sep + parts[|parts| - 1]
  }

  lemma JoinAppend(parts: seq<Query>, sep: Query, x: Query)
    requires |parts| > 0
    ensures Join(parts + [x], sep) == Join(parts, sep) + sep + x
  {
    assert (parts + [x])[..|parts|] == parts;
  }

  /** Total number of placeholders in a list of texts. */
  function PlaceholdersIn(parts: seq<Query>): nat {
    if |parts| == 0 then 0 else PlaceholdersIn(parts[..|parts| - 1]) + Placeholders(parts[|parts| - 1])
  }

  lemma {:induction false} PlaceholdersInUniform(parts: seq<Query>, k: nat)
    requires forall i :: 0 <= i < |parts| ==> Placeholders(parts[i]) == k
    ensures PlaceholdersIn(parts) == k * |parts|
  {
    if |parts| > 0 {
      PlaceholdersInUniform(parts[..|parts| - 1], k);
      assert k * (|parts| - 1) + k == k * |parts|;
    }
  }

  /** Joining with a separator that has no placeholder keeps exactly the parts' placeholders. */
  lemma {:induction false} JoinPlaceholders(parts: seq<Query>, sep: Query)
    requires Placeholders(sep) == 0
    ensures Placeholders(Join(parts, sep)) == PlaceholdersIn(parts)
  {
    if |parts| == 0 {
    } else if |parts| == 1 {
      assert parts[..0] == [];
    } else {
      var init, last := parts[..|parts| - 1], parts[|parts| - 1];
      JoinPlaceholders(init, sep);
      PlaceholdersConcat(Join(init, sep) + sep, last);
      PlaceholdersConcat(Join(init, sep), sep);
    }
  }

  /** One optional filter of a search: a clause with one placeholder and its argument. */
  datatype Condition = Condition(clause: Query, arg: Value)

  function Clauses(conds: seq<Condition>): (cs: seq<Query>)
    ensures |cs| == |conds|
  {
    seq(|conds|, i requires 0 <= i < |conds| => conds[i].clause)
  }

  function ConditionArgs(conds: seq<Condition>): (args: seq<Value>)
    ensures |args| == |conds|
  {
    seq(|conds|, i requires 0 <= i < |conds| => conds[i].arg)
  }

  lemma ConditionsAppend(conds: seq<Condition>, c: Condition)
    ensures Clauses(conds + [c]) == Clauses(conds) + [c.clause]
    ensures ConditionArgs(conds + [c]) == ConditionArgs(conds) + [c.arg]
  {
    assert Clauses(conds + [c]) == Clauses(conds) + [c.clause];
    assert ConditionArgs(conds + [c]) == ConditionArgs(conds) + [c.arg];
  }

  /** The pattern `"%" + v + "%"` that a LIKE filter matches against. */
  function LikePattern(v: string): (pat: string)
    ensures |pat| == |v| + 2 && pat[0] == '%' && pat[|pat| - 1] == '%' && pat[1..|pat| - 1] == v
  {
    "%" + v + "%"
  }

  /** `" WHERE " + strings.Join(clauses, " AND ")` when there is a clause, nothing otherwise. */
  function Where(clauses: seq<Query>): Query {
    if |clauses| > 0 then [Word(" WHERE ")] + Join(clauses, [Word(" AND ")]) else []
  }

  /** `" LIMIT ? OFFSET ?"` */
  const PageSuffix: Query := [Word(" LIMIT "), Param, Word(" OFFSET "), Param]

  /** The search statement built from a base query and the filters present, in order. */
  function Paged(base: Query, conds: seq<Condition>, limit: int, offset: int): Statement {
    Statement(base + Where(Clauses(conds)) + PageSuffix,
              ConditionArgs(conds) + [Int64(limit), Int64(offset)])
  }

  predicate OnePlaceholderEach(conds: seq<Condition>) {
    forall i :: 0 <= i < |conds| ==> Placeholders(conds[i].clause) == 1
  }

  lemma OnePlaceholderEachConcat(a: seq<Condition>, b: seq<Condition>)
    requires OnePlaceholderEach(a) && OnePlaceholderEach(b)
    ensures OnePlaceholderEach(a + b)
  {
    assert forall i :: |a| <= i < |a + b| ==> (a + b)[i] == b[i - |a|];
  }

  /** A search statement has as many arguments as placeholders and ends with `limit`
      and `offset`. */
  lemma PagedShape(base: Query, conds: seq<Condition>, limit: int, offset: int)
    requires Placeholders(base) == 0
    requires OnePlaceholderEach(conds)
    ensures WellFormed(Paged(base, conds, limit, offset))
    ensures |Paged(base, conds, limit, offset).args| == |conds| + 2
    ensures Paged(base, conds, limit, offset).args[|conds|..] == [Int64(limit), Int64(offset)]
  {
    var cs := Clauses(conds);
    var w := Where(cs);
    assert Placeholders(w) == |conds| by {
      assert forall i :: 0 <= i < |cs| ==> Placeholders(cs[i]) == 1;
      PlaceholdersInUniform(cs, 1);
      if conds != [] {
        JoinPlaceholders(cs, [Word(" AND ")]);
        PlaceholdersConcat([Word(" WHERE ")], Join(cs, [Word(" AND ")]));
      }
    }
    PlaceholdersConcat(base, w);
    PlaceholdersConcat(base + w, PageSuffix);
  }

  /** The WHERE part is there exactly when some filter is present. */
  lemma PagedWhere(base: Query, conds: seq<Condition>, limit: int, offset: int)
    ensures conds == [] <==> Paged(base, conds, limit, offset).sql == base + PageSuffix
  {
    var w := Where(Clauses(conds));
    if conds == [] {
      assert base + w == base;
    } else {
      assert |w| > 0;
      assert |base + w + PageSuffix| != |base + PageSuffix|;
    }
  }

  /** One filter of a search: its clause joins the clauses and its argument the arguments. */
  method AppendCondition(clauses: seq<Query>, args: seq<Value>, ghost conds: seq<Condition>, c: Condition)
    returns (clauses': seq<Query>, args': seq<Value>)
    requires clauses == Clauses(conds) && args == ConditionArgs(conds)
    ensures clauses' == Clauses(conds + [c]) && args' == ConditionArgs(conds + [c])
  {
    ConditionsAppend(conds, c);
    clauses', args' := clauses + [c.clause], args + [c.arg];
  }

  /** The tail the search operations share: the WHERE part when some clause was appended,
      then `LIMIT ? OFFSET ?` with `limit` and `offset` appended to the arguments. */
  method PagedStatement(base: Query, clauses: seq<Query>, args: seq<Value>, ghost conds: seq<Condition>,
                        limit: int, offset: int) returns (st: Statement)
    requires clauses == Clauses(conds) && args == ConditionArgs(conds)
    ensures st == Paged(base, conds, limit, offset)
  {
    var sql := base;
    if |clauses| > 0 {
      sql := sql + ([Word(" WHERE ")] + Join(clauses, [Word(" AND ")]));
    }
    assert sql == base + Where(clauses);
    sql := sql + PageSuffix;
    st := Statement(sql, args + [Int64(limit), Int64(offset)]);
  }

  /** What the store answers to a query: a failure, or the rows (each as its scan
      outcome) followed by the error, if any, that ended the iteration. */
  datatype QueryResult<R> = QueryFailed(error: Error) | Rows(rows: seq<R>, iterError: Option<Error>)

  /** The `for rows.Next() { ... }` loop of the search operations: each row is converted
      in order, and the first failure abandons the whole read with no partial list. */
  method Collect<R, T>(rows: seq<R>, convert: R -> Result<T, Error>) returns (items: seq<T>, err: Option<Error>)
    ensures err.None? ==> |items| == |rows| && forall k :: 0 <= k < |rows| ==> convert(rows[k]) == Ok(items[k])
    ensures err.Some? ==> items == [] && exists k :: 0 <= k < |rows| && convert(rows[k]) == Err(err.value)
                                                       && forall j :: 0 <= j < k ==> convert(rows[j]).Ok?
    ensures err.None? <==> forall k :: 0 <= k < |rows| ==> convert(rows[k]).Ok?
  {
    items := [];
    var i := 0;
    while i < |rows|
      invariant 0 <= i <= |rows|
      invariant |items| == i
      invariant forall k :: 0 <= k < i ==> convert(rows[k]) == Ok(items[k])
    {
      var r := convert(rows[i]);
      if r.Err? {
        return [], Some(r.error);
      }
      items := items + [r.value];
      i := i + 1;
    }
    err := None;
  }
}
