/**
 * The query executor and the start-up of its connection pool (app/database/db_connect.py).
 * The MySQL driver is an oracle: each attempt to build the pool succeeds or fails, and each
 * statement either raises at some stage or runs and yields a (possibly empty) result set.
 */
module Executor {
  import opened Outcomes

  // ---------------------------------------------------------------------------
  // Statement classification: strip, upper-case, look at the leading keyword.
  // ---------------------------------------------------------------------------

  /** The characters Python's `str.strip()` removes. */
  predicate IsSpace(c: char)
  {
    var n := c as int;
    (9 <= n <= 13) || (28 <= n <= 32) || n == 0x85 || n == 0xA0 || n == 0x1680
    || (0x2000 <= n <= 0x200A) || n == 0x2028 || n == 0x2029 || n == 0x202F || n == 0x205F || n == 0x3000
  }

  /**
   * Python's `upper()` on one character, for the characters whose upper case is one ASCII letter;
   * every other character is kept. Characters whose upper case is longer than one character
   * (U+1E97 becomes "T" and a combining diaeresis) are not expanded: such a statement is not
   * valid SQL, so the driver rejects it before its classification matters.
   */
  function UpperChar(c: char): (u: char)
    ensures IsSpace(u) <==> IsSpace(c)
  {
    if 'a' <= c <= 'z' then ((c as int) - 32) as char
    else if c as int == 0x131 then 'I'    // dotless i
    else if c as int == 0x17F then 'S'    // long s
    else c
  }

  function Upper(s: string): (u: string)
    ensures |u| == |s|
    ensures forall i :: 0 <= i < |s| ==> u[i] == UpperChar(s[i])
  {
    seq(|s|, i requires 0 <= i < |s| => UpperChar(s[i]))
  }

  function TrimLeft(s: string): (t: string)
    ensures |t| <= |s| && t == s[|s| - |t|..]
    ensures t != [] ==> !IsSpace(t[0])
    ensures forall i :: 0 <= i < |s| - |t| ==> IsSpace(s[i])
  {
    if s != [] && IsSpace(s[0]) then TrimLeft(s[1..]) else s
  }

  function TrimRight(s: string): (t: string)
    ensures |t| <= |s| && t == s[..|t|]
    ensures t != [] ==> !IsSpace(t[|t| - 1])
    ensures forall i :: |t| <= i < |s| ==> IsSpace(s[i])
  {
    if s != [] && IsSpace(s[|s| - 1]) then TrimRight(s[..|s| - 1]) else s
  }

  /** `str.strip()` */
  function Strip(s: string): string
  {
    TrimRight(TrimLeft(s))
  }

  predicate StartsWith(s: string, prefix: string)
  {
    |prefix| <= |s| && s[..|prefix|] == prefix
  }

  const MutatingKeywords: seq<string> := ["INSERT", "UPDATE", "DELETE"]

  /** `query.strip().upper().startswith(("INSERT", "UPDATE", "DELETE"))` */
  predicate IsMutating(query: string)
  {
    var u := Upper(Strip(query));
    StartsWith(u, "INSERT") || StartsWith(u, "UPDATE") || StartsWith(u, "DELETE")
  }

  lemma {:induction false} TrimLeftUpper(s: string)
    ensures TrimLeft(Upper(s)) == Upper(TrimLeft(s))
  {
    if s != [] {
      assert Upper(s)[1..] == Upper(s[1..]);
      if IsSpace(s[0]) {
        TrimLeftUpper(s[1..]);
      }
    }
  }

  lemma {:induction false} TrimRightUpper(s: string)
    ensures TrimRight(Upper(s)) == Upper(TrimRight(s))
  {
    if s != [] {
      assert Upper(s)[..|s| - 1] == Upper(s[..|s| - 1]);
      if IsSpace(s[|s| - 1]) {
        TrimRightUpper(s[..|s| - 1]);
      }
    }
  }

  /** Stripping and upper-casing commute, so the classification depends only on the upper-cased text. */
  lemma StripUpper(s: string)
    ensures Strip(Upper(s)) == Upper(Strip(s))
  {
    TrimLeftUpper(s);
    TrimRightUpper(TrimLeft(s));
  }

  /** Case does not matter: statements equal up to case are classified alike. */
  lemma CaseInsensitive(q1: string, q2: string)
    requires Upper(q1) == Upper(q2)
    ensures IsMutating(q1) <==> IsMutating(q2)
  {
    StripUpper(q1);
    StripUpper(q2);
  }

  lemma {:induction false} TrimLeftWhitespace(ws: string, q: string)
    requires forall i :: 0 <= i < |ws| ==> IsSpace(ws[i])
    ensures TrimLeft(ws + q) == TrimLeft(q)
  {
    if ws != [] {
      assert (ws + q)[0] == ws[0] && IsSpace(ws[0]);
      assert (ws + q)[1..] == ws[1..] + q;
      assert TrimLeft(ws + q) == TrimLeft((ws + q)[1..]);
      TrimLeftWhitespace(ws[1..], q);
    } else {
      assert ws + q == q;
    }
  }

  /** Leading whitespace does not matter (the handlers' triple-quoted statements begin with a newline). */
  lemma LeadingWhitespace(ws: string, q: string)
    requires forall i :: 0 <= i < |ws| ==> IsSpace(ws[i])
    ensures IsMutating(ws + q) <==> IsMutating(q)
  {
    TrimLeftWhitespace(ws, q);
  }

  lemma UpperPrefix(t: string, n: nat)
    requires n <= |t|
    ensures Upper(t)[..n] == Upper(t[..n])
  {
  }

  lemma {:induction false} TrimRightKeeps(s: string, n: nat)
    requires 0 < n <= |s| && !IsSpace(s[n - 1])
    ensures n <= |TrimRight(s)| && TrimRight(s)[..n] == s[..n]
  {
  }

  /** The leading keyword, if any, of a statement: what the classification looks at. */
  lemma {:induction false} ClassifiedByLeadingWord(ws: string, word: string, rest: string)
    requires forall i :: 0 <= i < |ws| ==> IsSpace(ws[i])
    requires word != [] && !IsSpace(word[0]) && !IsSpace(word[|word| - 1])
    ensures |word| <= |Strip(ws + word + rest)|
    ensures Upper(Strip(ws + word + rest))[..|word|] == Upper(word)
  {
    var s := word + rest;
    assert ws + word + rest == ws + s;
    TrimLeftWhitespace(ws, s);
    assert s[0] == word[0];
    assert TrimLeft(s) == s;
    assert s[|word| - 1] == word[|word| - 1];
    TrimRightKeeps(s, |word|);
    var t := TrimRight(s);
    assert t[..|word|] == word;
    UpperPrefix(t, |word|);
  }

  /** Upper-casing leaves capital letters alone. */
  lemma UpperOfCapitals(s: string)
    requires forall i :: 0 <= i < |s| ==> 'A' <= s[i] <= 'Z'
    ensures Upper(s) == s
  {
  }

  /** A statement whose first word (after any whitespace) is INSERT, UPDATE or DELETE is mutating. */
  lemma KeywordFirst(ws: string, k: string, rest: string)
    requires forall i :: 0 <= i < |ws| ==> IsSpace(ws[i])
    requires k in MutatingKeywords
    ensures IsMutating(ws + k + rest)
  {
    assert forall i :: 0 <= i < |k| ==> 'A' <= k[i] <= 'Z';
    UpperOfCapitals(k);
    ClassifiedByLeadingWord(ws, k, rest);
  }

  lemma StartsWithHead(u: string, k: string)
    requires k != [] && StartsWith(u, k)
    ensures u != [] && u[0] == k[0]
  {
    assert u[..|k|][0] == u[0];
  }

  /** A statement whose leading word does not begin like a mutating keyword is reading. */
  lemma OtherWordIsReading(ws: string, word: string, rest: string)
    requires forall i :: 0 <= i < |ws| ==> IsSpace(ws[i])
    requires word != [] && !IsSpace(word[0]) && !IsSpace(word[|word| - 1])
    requires Upper(word)[0] !in "IUD"
    ensures !IsMutating(ws + word + rest)
  {
    ClassifiedByLeadingWord(ws, word, rest);
    var u := Upper(Strip(ws + word + rest));
    assert u[0] == u[..|word|][0] == Upper(word)[0];
    if StartsWith(u, "INSERT") {
      StartsWithHead(u, "INSERT");
    } else if StartsWith(u, "UPDATE") {
      StartsWithHead(u, "UPDATE");
    } else if StartsWith(u, "DELETE") {
      StartsWithHead(u, "DELETE");
    }
  }

  /** A statement whose first word is SELECT is not mutating. */
  lemma SelectIsReading(ws: string, rest: string)
    requires forall i :: 0 <= i < |ws| ==> IsSpace(ws[i])
    ensures !IsMutating(ws + "SELECT" + rest)
  {
    assert Upper("SELECT")[0] == UpperChar('S') == 'S';
    assert 'S' !in "IUD";
    OtherWordIsReading(ws, "SELECT", rest);
  }

  // ---------------------------------------------------------------------------
  // Result shaping
  // ---------------------------------------------------------------------------

  /** One entry of `cursor.description`; only its first field, the column name, is used. */
  datatype ColumnDesc = ColumnDesc(name: string, typeCode: int)

  /** One fetched row. */
  type Row = seq<Value>

  /** What `execute_query` returns: `{"status": "success"}`, `{"data", "columns"}`, or `None`. */
  datatype QueryResult = Success | Rows(data: seq<Row>, columns: seq<string>) | NoResult

  /** `get_column_descriptions`: the column names, in order (an empty description gives none). */
  function ColumnNames(description: seq<ColumnDesc>): (names: seq<string>)
    ensures |names| == |description|
    ensures forall i :: 0 <= i < |names| ==> names[i] == description[i].name
  {
    if description == [] then [] else [description[0].name] + ColumnNames(description[1..])
  }

  /** The points at which the driver can raise inside `execute_query`. */
  datatype Stage = GetConnection | OpenCursor | Execute | Commit | FetchAll

  /**
   * What the driver does with one statement: the stage at which it raises (with the error's text),
   * if any; the cursor description (empty when the statement yields no result set); the rows.
   */
  datatype DriverRun = DriverRun(raises: Option<Stage>, message: string, description: seq<ColumnDesc>, rows: seq<Row>)

  /** Whether the stage at which the driver raises is reached for this statement. */
  predicate DriverRaises(query: string, run: DriverRun)
  {
    run.raises.Some? &&
    match run.raises.value
    case GetConnection => true
    case OpenCursor => true
    case Execute => true
    case Commit => IsMutating(query)
    case FetchAll => !IsMutating(query) && |run.description| > 0
  }

  const PoolSize: nat := 5
  const PoolExhausted: string := "Failed getting connection; pool exhausted"

  /** The connection pool as seen by `execute_query`: connections and cursors out, commits made. */
  class ConnectionPool {
    const size: nat
    var checkedOut: nat
    var openCursors: nat
    var commits: nat

    ghost predicate Valid()
      reads this
    {
      checkedOut <= size && openCursors <= checkedOut
    }

    constructor ()
      ensures Valid()
      ensures size == PoolSize && checkedOut == 0 && openCursors == 0 && commits == 0
    {
      size := PoolSize;
      checkedOut, openCursors, commits := 0, 0, 0;
    }

    /**
     * `execute_query`: acquire a connection and a cursor, run the statement, commit a mutating one
     * or fetch the rows of a reading one, and release the cursor and the connection on every path.
     */
    method ExecuteQuery(query: string, params: seq<Value>, run: DriverRun) returns (r: Result<QueryResult>)
      requires Valid()
      modifies this
      ensures Valid()
      ensures checkedOut == old(checkedOut) && openCursors == old(openCursors)
      ensures r.Err? <==> old(checkedOut) == size || DriverRaises(query, run)
      ensures r.Err? ==> r.error == DriverError(if old(checkedOut) == size then PoolExhausted else run.message)
      ensures commits == old(commits) + (if r.Ok? && IsMutating(query) then 1 else 0)
      ensures r.Ok? && IsMutating(query) ==> r.value == Success
      ensures r.Ok? && !IsMutating(query) ==>
                r.value == if |run.description| > 0 then Rows(run.rows, ColumnNames(run.description)) else NoResult
      ensures (forall row :: row in run.rows ==> |row| == |run.description|) && r.Ok? && r.value.Rows? ==>
                forall row :: row in r.value.data ==> |row| == |r.value.columns|
    {
      var mutating := IsMutating(query);
      var stage := run.raises;
      var connection, cursor := false, false;
      if checkedOut == size {
        r := Err(DriverError(PoolExhausted));
      } else if stage == Some(GetConnection) {
        r := Err(DriverError(run.message));
      } else {
        checkedOut, connection := checkedOut + 1, true;
        if stage == Some(OpenCursor) {
          r := Err(DriverError(run.message));
        } else {
          openCursors, cursor := openCursors + 1, true;
          if stage == Some(Execute) {
            r := Err(DriverError(run.message));
          } else if mutating {
            if stage == Some(Commit) {
              r := Err(DriverError(run.message));
            } else {
              commits := commits + 1;
              r := Ok(Success);
            }
          } else if |run.description| > 0 {
            if stage == Some(FetchAll) {
              r := Err(DriverError(run.message));
            } else {
              r := Ok(Rows(run.rows, ColumnNames(run.description)));
            }
          } else {
            r := Ok(NoResult);
          }
        }
      }
      // finally
      if cursor {
        openCursors := openCursors - 1;
      }
      if connection {
        checkedOut := checkedOut - 1;
      }
    }
  }

  // ---------------------------------------------------------------------------
  // Pool start-up: bounded retries with capped exponential backoff
  // ---------------------------------------------------------------------------

  const MaxRetries: nat := 5
  const BackoffCap: nat := 16

  function Pow2(k: nat): (p: nat)
    ensures p >= 1
  {
    if k == 0 then 1 else 2 * Pow2(k - 1)
  }

  /** The wait after the `attempt`-th failure: `min(16, 2 ** attempt)`. */
  function Backoff(attempt: nat): nat
  {
    if Pow2(attempt) < BackoffCap then Pow2(attempt) else BackoffCap
  }

  /** The waits after the first `failures` failures, in order. */
  function Waits(failures: nat): (w: seq<nat>)
    ensures |w| == failures
    ensures forall i :: 0 <= i < failures ==> w[i] == Backoff(i + 1)
  {
    seq(failures, (i: int) requires 0 <= i => Backoff(i + 1))
  }

  function Sum(s: seq<nat>): nat
  {
    if s == [] then 0 else s[0] + Sum(s[1..])
  }

  /** How pool creation ends: the pool, after some failed attempts, or the fatal RuntimeError. */
  datatype PoolStart = Started(failures: nat) | Fatal(message: string)

  const PoolFailure: string := "Failed to establish connection pool after multiple attempts."

  /**
   * `create_connection_pool`: `connects(k)` tells whether the attempt made after `k` failures succeeds.
   * Returns how creation ends and the waits (in seconds) it slept, in order.
   */
  method CreateConnectionPool(connects: nat -> bool) returns (r: PoolStart, waits: seq<nat>)
    ensures r.Started? <==> exists k :: 0 <= k < MaxRetries && connects(k)
    ensures r.Started? ==> r.failures < MaxRetries && connects(r.failures)
    ensures r.Started? ==> forall k :: 0 <= k < r.failures ==> !connects(k)
    ensures r.Started? ==> waits == Waits(r.failures)
    ensures r.Fatal? ==> r.message == PoolFailure && waits == Waits(MaxRetries)
  {
    var attempt: nat := 0;
    waits := [];
    while attempt < MaxRetries
      invariant attempt <= MaxRetries
      invariant forall k :: 0 <= k < attempt ==> !connects(k)
      invariant waits == Waits(attempt)
    {
      if connects(attempt) {
        return Started(attempt), waits;
      }
      attempt := attempt + 1;
      waits := waits + [Backoff(attempt)];
    }
    r := Fatal(PoolFailure);
  }

  /** The schedule is 2, 4, 8, 16, 16 seconds: 46 seconds when every attempt fails. */
  lemma FullSchedule()
    ensures Waits(MaxRetries) == [2, 4, 8, 16, 16]
    ensures Sum(Waits(MaxRetries)) == 46
  {
    assert Pow2(1) == 2 && Pow2(2) == 4 && Pow2(3) == 8 && Pow2(4) == 16;
    assert Pow2(5) == 32;
    var w := Waits(MaxRetries);
    assert w == [2, 4, 8, 16, 16];
    assert Sum(w) == 2 + Sum([4, 8, 16, 16]);
    assert Sum([4, 8, 16, 16]) == 4 + Sum([8, 16, 16]);
    assert Sum([8, 16, 16]) == 8 + Sum([16, 16]);
    assert Sum([16, 16]) == 16 + Sum([16]);
    assert Sum([16]) == 16 + Sum([]);
  }

  /** No wait exceeds the cap, and the waits never decrease. */
  lemma {:induction false} BackoffCapped(a: nat, b: nat)
    requires a <= b
    ensures Backoff(a) <= Backoff(b) <= BackoffCap
  {
    if a < b {
      BackoffCapped(a, b - 1);
    }
  }
}
