/**
 * The search handler of app/search/searchcontroller.py: table authorisation, keyword parsing, the
 * construction of the SELECT statement with its bound parameters, and the shaping of the rows into
 * records with passwords hidden. The statement is run by a driver oracle that stands for
 * `execute_query` and the database behind it.
 */
module Search {
  import opened Outcomes
  import opened Tables
  import Executor

  const NonAdminTables: seq<string> := ["books", "orders"]
  const AdminTables: seq<string> := NonAdminTables + ["users"]

  /** The tables a caller may search. */
  function AllowedTables(caller: Identity): seq<string>
  {
    if IsAdmin(caller) then AdminTables else NonAdminTables
  }

  /** The whitelist of `order_by` fields per table. */
  function ValidOrderBy(table: string): seq<string>
  {
    if table == "books" then ["title", "author", "price"]
    else if table == "orders" then ["order_date", "total"]
    else ["username", "email"]
  }

  /** The sort order as the query validates it (`^(asc|desc)$`). */
  datatype SortOrder = Asc | Desc

  /** `sort_order.upper()` */
  function Keyword(s: SortOrder): string
  {
    match s
    case Asc => "ASC"
    case Desc => "DESC"
  }

  function Forbidden(table: string): Error
  {
    HttpException(403, Message("You are not authorized to search in the '" + table + "' table."))
  }

  function InvalidKeyword(keyword: string): Error
  {
    HttpException(400, Message("Invalid keyword format: '" + keyword + "'"))
  }

  function InvalidOrderBy(field: string): Error
  {
    HttpException(400, Message("Invalid order_by field: '" + field + "'"))
  }

  // ---------------------------------------------------------------------------
  // Keywords and the WHERE part
  // ---------------------------------------------------------------------------

  /** `keyword.split(":", 1)`: the field before the first ':' and the value after it, if there is a ':'. */
  function SplitKeyword(keyword: string): (r: Option<(string, string)>)
    ensures r.None? <==> ':' !in keyword
    ensures r.Some? ==> keyword == r.value.0 + ":" + r.value.1 && ':' !in r.value.0
  {
    if keyword == [] then None
    else if keyword[0] == ':' then Some(("", keyword[1..]))
    else
      match SplitKeyword(keyword[1..])
      case None => None
      case Some((field, value)) => Some(([keyword[0]] + field, value))
  }

  /** The clause a keyword's field contributes. */
  function Clause(field: string): string
  {
    field + " LIKE %s"
  }

  /** The parameter a keyword's value contributes. */
  function Pattern(value: string): Value
  {
    Text("%" + value + "%")
  }

  /** The clauses and the parameters bound to them. */
  datatype Where = Where(clauses: seq<string>, params: seq<Value>)

  /**
   * The keywords, taken in order: each well-formed one adds its clause and its parameter; the first
   * one without a ':' stops the search with a 400.
   */
  function WhereOf(keywords: seq<string>): (r: Result<Where>)
    ensures r.Ok? <==> forall i :: 0 <= i < |keywords| ==> ':' in keywords[i]
    ensures r.Ok? ==> |r.value.clauses| == |keywords| && |r.value.params| == |keywords|
    ensures r.Ok? ==> forall i :: 0 <= i < |keywords| ==>
              SplitKeyword(keywords[i]).Some? &&
              r.value.clauses[i] == Clause(SplitKeyword(keywords[i]).value.0) &&
              r.value.params[i] == Pattern(SplitKeyword(keywords[i]).value.1)
    ensures r.Err? ==> exists i :: 0 <= i < |keywords| && ':' !in keywords[i] &&
                                   (forall j :: 0 <= j < i ==> ':' in keywords[j]) &&
                                   r.error == InvalidKeyword(keywords[i])
  {
    if keywords == [] then Ok(Where([], []))
    else
      var n := |keywords| - 1;
      assert forall i :: 0 <= i < n ==> keywords[..n][i] == keywords[i];
      match WhereOf(keywords[..n])
      case Err(e) => Err(e)
      case Ok(w) =>
        match SplitKeyword(keywords[n])
        case None => Err(InvalidKeyword(keywords[n]))
        case Some((field, value)) => Ok(Where(w.clauses + [Clause(field)], w.params + [Pattern(value)]))
  }

  /** The keyword loop of `search`: it builds exactly the clauses and parameters of `WhereOf`. */
  method BuildWhere(keywords: seq<string>) returns (r: Result<Where>)
    ensures r == WhereOf(keywords)
  {
    var clauses: seq<string> := [];
    var params: seq<Value> := [];
    var i := 0;
    while i < |keywords|
      invariant 0 <= i <= |keywords|
      invariant WhereOf(keywords[..i]) == Ok(Where(clauses, params))
    {
      WhereOfStep(keywords, i);
      match SplitKeyword(keywords[i])
      case None =>
        r := Err(InvalidKeyword(keywords[i]));
        WhereOfStops(keywords, i + 1);
        return;
      case Some((field, value)) =>
        clauses := clauses + [Clause(field)];
        params := params + [Pattern(value)];
      i := i + 1;
    }
    assert keywords[..i] == keywords;
    r := Ok(Where(clauses, params));
  }

  /** One more keyword: what `WhereOf` does with the next one. */
  lemma WhereOfStep(keywords: seq<string>, i: nat)
    requires i < |keywords|
    ensures WhereOf(keywords[..i + 1]) ==
              match WhereOf(keywords[..i])
              case Err(e) => Err(e)
              case Ok(w) =>
                match SplitKeyword(keywords[i])
                case None => Err(InvalidKeyword(keywords[i]))
                case Some((field, value)) => Ok(Where(w.clauses + [Clause(field)], w.params + [Pattern(value)]))
  {
    assert keywords[..i + 1][..i] == keywords[..i];
  }

  /** Once a prefix of the keywords fails, the whole list fails the same way. */
  lemma {:induction false} WhereOfStops(keywords: seq<string>, k: nat)
    requires k <= |keywords| && WhereOf(keywords[..k]).Err?
    ensures WhereOf(keywords) == WhereOf(keywords[..k])
    decreases |keywords| - k
  {
    if k < |keywords| {
      WhereOfStep(keywords, k);
      WhereOfStops(keywords, k + 1);
    } else {
      assert keywords[..k] == keywords;
    }
  }

  /** `" AND ".join(parts)` */
  function Join(parts: seq<string>, sep: string): string
  {
    if parts == [] then ""
    else if |parts| == 1 then parts[0]
    else parts[0] + sep + Join(parts[1..], sep)
  }

  // ---------------------------------------------------------------------------
  // The statement
  // ---------------------------------------------------------------------------

  /** The statement and the parameters `search` passes to `execute_query`. */
  datatype Statement = Statement(query: string, params: seq<Value>)

  /** `SELECT * FROM <table>`, then ` WHERE ...` only when some keyword was given. */
  function SelectFrom(table: string, clauses: seq<string>): string
  {
    "SELECT * FROM " + table + (if clauses != [] then " WHERE " + Join(clauses, " AND ") else "")
  }

  /** ` ORDER BY <field> <ASC|DESC>` */
  function OrderClause(field: string, order: SortOrder): string
  {
    " ORDER BY " + field + " " + Keyword(order)
  }

  /**
   * Steps 1 to 3 of `search`: the table check (before anything else), the keywords, then the
   * `order_by` whitelist of the table.
   */
  function SearchStatement(table: string, keywords: seq<string>, orderBy: Option<string>, order: SortOrder,
                           caller: Identity): (r: Result<Statement>)
    ensures table !in AllowedTables(caller) ==> r == Err(Forbidden(table))
    ensures table in AllowedTables(caller) && WhereOf(keywords).Err? ==> r == Err(WhereOf(keywords).error)
    ensures (table in AllowedTables(caller) && WhereOf(keywords).Ok? && Given(orderBy) &&
             orderBy.value !in ValidOrderBy(table)) ==> r == Err(InvalidOrderBy(orderBy.value))
    ensures r.Ok? <==> table in AllowedTables(caller) && WhereOf(keywords).Ok? &&
                       (Given(orderBy) ==> orderBy.value in ValidOrderBy(table))
    ensures r.Ok? ==> r.value.params == WhereOf(keywords).value.params
    ensures r.Ok? ==> r.value.query == SelectFrom(table, WhereOf(keywords).value.clauses) +
                                       (if Given(orderBy) then OrderClause(orderBy.value, order) else "")
  {
    if table !in AllowedTables(caller) then Err(Forbidden(table))
    else
      match WhereOf(keywords)
      case Err(e) => Err(e)
      case Ok(w) =>
        var query := SelectFrom(table, w.clauses);
        if Given(orderBy) then
          if orderBy.value !in ValidOrderBy(table) then Err(InvalidOrderBy(orderBy.value))
          else Ok(Statement(query + OrderClause(orderBy.value, order), w.params))
        else Ok(Statement(query, w.params))
  }

  /** A non-admin never reaches the `users` table, whatever else the request says. */
  lemma UsersTableIsAdminOnly(keywords: seq<string>, orderBy: Option<string>, order: SortOrder, caller: Identity)
    requires !IsAdmin(caller)
    ensures SearchStatement("users", keywords, orderBy, order, caller) == Err(Forbidden("users"))
  {
    assert "users" !in NonAdminTables by {
      assert NonAdminTables[0] != "users";
      assert NonAdminTables[1] != "users";
    }
  }

  // ---------------------------------------------------------------------------
  // Placeholders
  // ---------------------------------------------------------------------------

  /** The number of `%s` placeholders in a statement text. */
  function Placeholders(s: string): nat
  {
    if |s| < 2 then 0 else (if s[0] == '%' && s[1] == 's' then 1 else 0) + Placeholders(s[1..])
  }

  /** Counting over a concatenation: a placeholder can also straddle the seam. */
  lemma {:induction false} PlaceholdersConcat(a: string, b: string)
    ensures Placeholders(a + b) == Placeholders(a) + Placeholders(b) +
                                   (if a != [] && b != [] && a[|a| - 1] == '%' && b[0] == 's' then 1 else 0)
  {
    if a == [] {
      assert a + b == b;
    } else if |a| == 1 {
      if b != [] {
        assert (a + b)[1..] == b;
      }
    } else {
      assert (a + b)[1..] == a[1..] + b;
      PlaceholdersConcat(a[1..], b);
    }
  }

  lemma {:induction false} NoPercentNoPlaceholder(s: string)
    requires '%' !in s
    ensures Placeholders(s) == 0
  {
    if |s| >= 2 {
      assert s[0] != '%';
      assert s[1..][..] == s[1..];
      NoPercentNoPlaceholder(s[1..]);
    }
  }

  /** The placeholders contributed by the keyword fields themselves. */
  function FieldPlaceholders(keywords: seq<string>): nat
    requires forall i :: 0 <= i < |keywords| ==> ':' in keywords[i]
  {
    if keywords == [] then 0
    else Placeholders(SplitKeyword(keywords[0]).value.0) + FieldPlaceholders(keywords[1..])
  }

  /** A space-bounded separator never completes a placeholder at a seam. */
  lemma {:induction false} PlaceholdersJoin(parts: seq<string>)
    ensures Placeholders(Join(parts, " AND ")) == SumPlaceholders(parts)
  {
    if |parts| > 1 {
      PlaceholdersJoin(parts[1..]);
      NoPercentNoPlaceholder(" AND ");
      PlaceholdersConcat(parts[0], " AND ");
      PlaceholdersConcat(parts[0] + " AND ", Join(parts[1..], " AND "));
    }
  }

  function SumPlaceholders(parts: seq<string>): nat
  {
    if parts == [] then 0 else Placeholders(parts[0]) + SumPlaceholders(parts[1..])
  }

  lemma PlaceholdersClause(field: string)
    ensures Placeholders(Clause(field)) == Placeholders(field) + 1
  {
    PlaceholdersConcat(field, " LIKE %s");
    assert " LIKE %s"[6..] == "%s";
    assert " LIKE %s"[1..][1..][1..][1..][1..][1..] == "%s";
  }

  lemma {:induction false} ClausePlaceholders(keywords: seq<string>, clauses: seq<string>)
    requires forall i :: 0 <= i < |keywords| ==> ':' in keywords[i]
    requires |clauses| == |keywords|
    requires forall i :: 0 <= i < |keywords| ==> clauses[i] == Clause(SplitKeyword(keywords[i]).value.0)
    ensures SumPlaceholders(clauses) == |keywords| + FieldPlaceholders(keywords)
  {
    if keywords != [] {
      PlaceholdersClause(SplitKeyword(keywords[0]).value.0);
      ClausePlaceholders(keywords[1..], clauses[1..]);
    }
  }

  /**
   * The statement has one `%s` per bound parameter plus those written in the keyword fields, which
   * are copied into the text unescaped; so the count matches the parameters exactly when no field
   * contains a `%s` of its own.
   */
  lemma PlaceholdersMatchParams(table: string, keywords: seq<string>, orderBy: Option<string>, order: SortOrder,
                                caller: Identity)
    requires SearchStatement(table, keywords, orderBy, order, caller).Ok?
    ensures forall i :: 0 <= i < |keywords| ==> SplitKeyword(keywords[i]).Some?
    ensures var s := SearchStatement(table, keywords, orderBy, order, caller).value;
            Placeholders(s.query) == |s.params| + FieldPlaceholders(keywords)
    ensures var s := SearchStatement(table, keywords, orderBy, order, caller).value;
            Placeholders(s.query) == |s.params| <==>
              forall i :: 0 <= i < |keywords| ==> Placeholders(SplitKeyword(keywords[i]).value.0) == 0
  {
    var w := WhereOf(keywords).value;
    ClausePlaceholders(keywords, w.clauses);
    NamesHaveNoPercent(table, orderBy);
    PlaceholdersSelect(table, w.clauses);
    if Given(orderBy) {
      PlaceholdersOrder(orderBy.value, order);
      PlaceholdersConcat(SelectFrom(table, w.clauses), OrderClause(orderBy.value, order));
    }
    FieldPlaceholdersZero(keywords);
  }

  /** The table names and the whitelisted sort fields hold no '%'. */
  lemma NamesHaveNoPercent(table: string, orderBy: Option<string>)
    requires table in AdminTables
    requires Given(orderBy) ==> orderBy.value in ValidOrderBy(table)
    ensures '%' !in table
    ensures Given(orderBy) ==> '%' !in orderBy.value
  {
  }

  /** The fixed text of the SELECT adds no placeholder of its own. */
  lemma PlaceholdersSelect(table: string, clauses: seq<string>)
    requires '%' !in table
    ensures Placeholders(SelectFrom(table, clauses)) == SumPlaceholders(clauses)
  {
    var head := "SELECT * FROM " + table;
    NoPercentNoPlaceholder(head);
    assert head[|head| - 1] in head;
    if clauses != [] {
      PlaceholdersJoin(clauses);
      NoPercentNoPlaceholder(" WHERE ");
      PlaceholdersConcat(" WHERE ", Join(clauses, " AND "));
      assert (" WHERE ")[0] == ' ';
      PlaceholdersConcat(head, " WHERE " + Join(clauses, " AND "));
    } else {
      assert SelectFrom(table, clauses) == head;
    }
  }

  /** An ORDER BY of a whitelisted field adds no placeholder, and it starts with a space. */
  lemma PlaceholdersOrder(field: string, order: SortOrder)
    requires '%' !in field
    ensures Placeholders(OrderClause(field, order)) == 0 && OrderClause(field, order)[0] == ' '
  {
    NoPercentNoPlaceholder(OrderClause(field, order));
  }

  lemma {:induction false} FieldPlaceholdersZero(keywords: seq<string>)
    requires forall i :: 0 <= i < |keywords| ==> ':' in keywords[i]
    ensures FieldPlaceholders(keywords) == 0 <==>
              forall i :: 0 <= i < |keywords| ==> Placeholders(SplitKeyword(keywords[i]).value.0) == 0
  {
    if keywords != [] {
      FieldPlaceholdersZero(keywords[1..]);
      assert forall i :: 1 <= i < |keywords| ==> keywords[i] == keywords[1..][i - 1];
    }
  }

  // ---------------------------------------------------------------------------
  // Results
  // ---------------------------------------------------------------------------

  /** `dict(zip(columns, row))`: pairs up to the shorter of the two; a repeated column keeps its last value. */
  function ZipRecord(columns: seq<string>, row: seq<Value>): Record
  {
    if columns == [] || row == [] then map[]
    else
      var rest := ZipRecord(columns[1..], row[1..]);
      if columns[0] in rest then rest else rest[columns[0] := row[0]]
  }

  /** The record has a key for each column paired with a value, and no other. */
  lemma {:induction false} ZipRecordKeys(columns: seq<string>, row: seq<Value>)
    ensures ZipRecord(columns, row).Keys == set i | 0 <= i < |columns| && i < |row| :: columns[i]
  {
    if columns != [] && row != [] {
      ZipRecordKeys(columns[1..], row[1..]);
      var keys := set i | 0 <= i < |columns| && i < |row| :: columns[i];
      var later := set i | 0 <= i < |columns[1..]| && i < |row[1..]| :: columns[1..][i];
      forall k | k in keys
        ensures k == columns[0] || k in later
      {
        var i :| 0 <= i < |columns| && i < |row| && columns[i] == k;
        if i > 0 {
          assert columns[1..][i - 1] == k;
        }
      }
      forall i | 0 <= i < |columns[1..]| && i < |row[1..]|
        ensures columns[1..][i] in keys
      {
        assert columns[1..][i] == columns[i + 1];
      }
      assert keys == {columns[0]} + later;
    }
  }

  /** The column at position `i`, not repeated further on, carries the value at `i`. */
  lemma {:induction false} ZipRecordAt(columns: seq<string>, row: seq<Value>, i: nat)
    requires i < |columns| && i < |row|
    requires forall j :: i < j < |columns| && j < |row| ==> columns[j] != columns[i]
    ensures columns[i] in ZipRecord(columns, row) && ZipRecord(columns, row)[columns[i]] == row[i]
  {
    if i == 0 {
      ZipRecordKeys(columns[1..], row[1..]);
    } else {
      forall j | i - 1 < j < |columns[1..]| && j < |row[1..]|
        ensures columns[1..][j] != columns[1..][i - 1]
      {
        assert columns[1..][j] == columns[j + 1];
      }
      ZipRecordAt(columns[1..], row[1..], i - 1);
    }
  }

  /** A column that is not repeated further on carries the value at its own position. */
  lemma ZipRecordPairs(columns: seq<string>, row: seq<Value>)
    ensures forall i :: (0 <= i < |columns| && i < |row| &&
                         forall j :: i < j < |columns| && j < |row| ==> columns[j] != columns[i]) ==>
              columns[i] in ZipRecord(columns, row) && ZipRecord(columns, row)[columns[i]] == row[i]
  {
    forall i | 0 <= i < |columns| && i < |row| &&
               (forall j :: i < j < |columns| && j < |row| ==> columns[j] != columns[i])
      ensures columns[i] in ZipRecord(columns, row) && ZipRecord(columns, row)[columns[i]] == row[i]
    {
      ZipRecordAt(columns, row, i);
    }
  }

  /** Step 4 of `search`: `item.pop("password", None)` on every record. */
  method HidePasswords(records: seq<Record>) returns (r: seq<Record>)
    ensures |r| == |records|
    ensures forall i :: 0 <= i < |r| ==>
              && "password" !in r[i]
              && r[i].Keys == records[i].Keys - {"password"}
              && forall k :: k in r[i] ==> r[i][k] == records[i][k]
  {
    r := records;
    var i := 0;
    while i < |r|
      invariant 0 <= i <= |r| && |r| == |records|
      invariant forall k :: 0 <= k < i ==> r[k] == records[k] - {"password"}
      invariant forall k :: i <= k < |r| ==> r[k] == records[k]
    {
      r := r[i := r[i] - {"password"}];
      i := i + 1;
    }
  }

  const Completed: string := "Search completed successfully"
  const NoMatches: string := "No matching records found."
  /** What `result.get` raises when `execute_query` returned `None`. */
  const NoneHasNoGet: Error := AttributeError("'NoneType' object has no attribute 'get'")

  datatype SearchResponse = SearchResponse(message: string, table: string, results: Listing)

  /**
   * The results for the fetched rows: one record per row, by column position, without `password`
   * when the table is `users`; no rows give the no-match text instead.
   */
  ghost predicate Shaped(results: Listing, table: string, data: seq<Executor.Row>, columns: seq<string>)
  {
    && (results.Nothing? <==> data == [])
    && (results.Nothing? ==> results.message == NoMatches)
    && (results.Items? ==>
         && |results.records| == |data|
         && forall i :: 0 <= i < |data| ==>
              && results.records[i].Keys == ZipRecord(columns, data[i]).Keys - (if table == "users" then {"password"} else {})
              && forall k :: k in results.records[i] ==> results.records[i][k] == ZipRecord(columns, data[i])[k])
  }

  /** Steps 3 and 4 of `search` on the fetched rows: pair them with the columns, then hide passwords. */
  method ShapeRows(table: string, data: seq<Executor.Row>, columns: seq<string>) returns (results: Listing)
    ensures Shaped(results, table, data, columns)
    ensures table == "users" && results.Items? ==> forall rec :: rec in results.records ==> "password" !in rec
  {
    var records := seq(|data|, i requires 0 <= i < |data| => ZipRecord(columns, data[i]));
    if table == "users" {
      records := HidePasswords(records);
    }
    results := OrDefault(records, NoMatches);
  }

  /**
   * What `search` answers for the executor's outcome: a driver error is a 500 "Database error", a
   * `None` result (which has no `get`) or any other exception a 500 "Unexpected error", and rows
   * the shaped records.
   */
  ghost predicate Answers(r: Result<SearchResponse>, table: string, outcome: Result<Executor.QueryResult>)
  {
    match outcome
    case Err(e) => r == Err(if e.DriverError? then DatabaseError(e) else UnexpectedError(e))
    case Ok(NoResult) => r == Err(UnexpectedError(NoneHasNoGet))
    case Ok(Success) => r == Ok(SearchResponse(Completed, table, Nothing(NoMatches)))
    case Ok(Rows(data, columns)) =>
      r.Ok? && r.value.message == Completed && r.value.table == table && Shaped(r.value.results, table, data, columns)
  }

  /** Steps 1 to 3 of `search`: the table check, the keyword loop and the `order_by` check build `SearchStatement`. */
  method PrepareStatement(table: string, keywords: seq<string>, orderBy: Option<string>, order: SortOrder,
                          caller: Identity) returns (r: Result<Statement>)
    ensures r == SearchStatement(table, keywords, orderBy, order, caller)
  {
    if table !in AllowedTables(caller) {
      return Err(Forbidden(table));
    }
    var where := BuildWhere(keywords);
    if where.Err? {
      return Err(where.error);
    }
    var query := SelectFrom(table, where.value.clauses);
    if Given(orderBy) {
      if orderBy.value !in ValidOrderBy(table) {
        return Err(InvalidOrderBy(orderBy.value));
      }
      query := query + OrderClause(orderBy.value, order);
    }
    r := Ok(Statement(query, where.value.params));
  }

  /**
   * `search`. A 403 or 400 leaves unchanged; a driver error becomes a 500 "Database error" and
   * anything else a 500 "Unexpected error". The rows become records by column position, without
   * `password` when the table is `users`.
   */
  method Search(table: string, keywords: seq<string>, orderBy: Option<string>, order: SortOrder, caller: Identity,
                driver: (string, seq<Value>) -> Result<Executor.QueryResult>) returns (r: Result<SearchResponse>)
    ensures table !in AllowedTables(caller) ==> r == Err(Forbidden(table))
    ensures var s := SearchStatement(table, keywords, orderBy, order, caller); s.Err? ==> r == Err(s.error)
    ensures var s := SearchStatement(table, keywords, orderBy, order, caller);
            s.Ok? ==> Answers(r, table, driver(s.value.query, s.value.params))
    ensures r.Ok? && table == "users" && r.value.results.Items? ==>
              forall rec :: rec in r.value.results.records ==> "password" !in rec
  {
    var statement := PrepareStatement(table, keywords, orderBy, order, caller);
    if statement.Err? {
      return Err(statement.error);
    }
    var result := driver(statement.value.query, statement.value.params);
    if result.Err? {
      var e := result.error;
      return Err(if e.DriverError? then DatabaseError(e) else UnexpectedError(e));
    }
    if result.value.NoResult? {
      return Err(UnexpectedError(NoneHasNoGet));
    }
    var results := Nothing(NoMatches);
    if result.value.Rows? {
      results := ShapeRows(table, result.value.data, result.value.columns);
    }
    r := Ok(SearchResponse(Completed, table, results));
  }
}
