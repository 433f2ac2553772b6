/** Outcomes of a request handler: the values they return and the exceptions they raise. */
module Outcomes {

  datatype Option<+T> = None | Some(value: T)

  /** What a handler (or the query executor) ends with: a value, or an exception. */
  datatype Result<+T> = Ok(value: T) | Err(error: Error)

  /** The exceptions that leave a handler. */
  datatype Error =
    /** fastapi.HTTPException: a status code and a detail */
    | HttpException(status: nat, detail: Detail)
    /** mysql.connector.Error that no handler caught */
    | DriverError(message: string)
    /** ValueError raised by token verification, caught by no handler */
    | ValueError(message: string)
    /** AttributeError, such as a method looked up on `None` */
    | AttributeError(message: string)

  /** The detail of an HTTPException. `Formatted(p, e)` stands for the text f"{p}: {str(e)}". */
  datatype Detail = Message(text: string) | Formatted(prefix: string, cause: Error)

  /** `HTTPException(500, f"Database error: {e}")`, the wrapper every handler uses for a database failure. */
  function DatabaseError(cause: Error): Error
  {
    HttpException(500, Formatted("Database error", cause))
  }

  /** `HTTPException(500, f"Unexpected error: {e}")`, the wrapper for any other exception. */
  function UnexpectedError(cause: Error): Error
  {
    HttpException(500, Formatted("Unexpected error", cause))
  }

  predicate IsDatabaseError(e: Error)
  {
    e.HttpException? && e.status == 500 && e.detail.Formatted? && e.detail.prefix == "Database error"
  }

  predicate IsUnexpectedError(e: Error)
  {
    e.HttpException? && e.status == 500 && e.detail.Formatted? && e.detail.prefix == "Unexpected error"
  }

  /** Python's truthiness of an optional text parameter: present and not empty. */
  predicate Given(text: Option<string>)
  {
    text.Some? && text.value != ""
  }

  /** A JSON value in a response record. */
  datatype Value = Int(i: int) | Text(s: string)

  /** A response record (a Python dict); key order is not modelled. */
  type Record = map<string, Value>

  /** A list of records, or the text that replaces an empty one (`records or "..."`). */
  datatype Listing = Items(records: seq<Record>) | Nothing(message: string)

  function OrDefault(records: seq<Record>, text: string): (l: Listing)
    ensures l.Nothing? <==> records == []
    ensures l.Nothing? ==> l.message == text
    ensures l.Items? ==> l.records == records
  {
    if records == [] then Nothing(text) else Items(records)
  }
}

/** Decimal text of user ids: the token subject is `str(user_id)` and the id lookup reads it back. */
module Decimal {
  import opened Outcomes

  predicate IsDigit(c: char)
  {
    '0' <= c <= '9'
  }

  function DigitChar(d: nat): (c: char)
    requires d < 10
    ensures IsDigit(c) && (c as int) - ('0' as int) == d
  {
    (('0' as int) + d) as char
  }

  /** `str(n)` for a non-negative integer. */
  function IdText(n: nat): (s: string)
    ensures |s| >= 1
    ensures forall i :: 0 <= i < |s| ==> IsDigit(s[i])
  {
    if n < 10 then [DigitChar(n)] else IdText(n / 10) + [DigitChar(n % 10)]
  }

  /** The value of a string of digits, most significant first. */
  function DigitsValue(s: string): nat
    requires forall i :: 0 <= i < |s| ==> IsDigit(s[i])
  {
    if s == [] then 0
    else
      assert IsDigit(s[|s| - 1]);
      10 * DigitsValue(s[..|s| - 1]) + ((s[|s| - 1] as int) - ('0' as int))
  }

  /** Reads a subject back as an id: a non-empty string of digits, or nothing. */
  function ParseId(s: string): (r: Option<nat>)
    ensures r.Some? <==> s != [] && forall i :: 0 <= i < |s| ==> IsDigit(s[i])
  {
    if s != [] && forall i :: 0 <= i < |s| ==> IsDigit(s[i]) then Some(DigitsValue(s)) else None
  }

  /** Reading back the decimal text of an id gives the id. */
  lemma {:induction false} ParseIdText(n: nat)
    ensures ParseId(IdText(n)) == Some(n)
  {
    var s := IdText(n);
    if n < 10 {
      assert s[..0] == [];
      assert DigitsValue(s) == n;
    } else {
      ParseIdText(n / 10);
      assert s[..|s| - 1] == IdText(n / 10);
      assert s[|s| - 1] == DigitChar(n % 10);
      assert DigitsValue(s) == 10 * (n / 10) + n % 10;
    }
  }

  /** Distinct ids have distinct subjects. */
  lemma IdTextInjective(a: nat, b: nat)
    requires IdText(a) == IdText(b)
    ensures a == b
  {
    ParseIdText(a);
    ParseIdText(b);
  }
}

/** Tables as sequences of rows; each SQL statement becomes one of these operations. */
module Rows {

  /** `SELECT ... WHERE keep` (or `DELETE ... WHERE !keep`): the rows that satisfy `keep`, in table order. */
  function Filter<T(!new)>(s: seq<T>, keep: T -> bool): (r: seq<T>)
    ensures |r| <= |s|
    ensures forall i :: 0 <= i < |r| ==> keep(r[i]) && r[i] in s
    ensures forall x :: x in r <==> x in s && keep(x)
  {
    if s == [] then []
    else
      var rest := Filter(s[1..], keep);
      assert s == [s[0]] + s[1..];
      if keep(s[0]) then [s[0]] + rest else rest
  }

  /** A selection keeps every copy of a row it selects and no copy of one it does not. */
  lemma {:induction false} FilterCounts<T(!new)>(s: seq<T>, keep: T -> bool)
    ensures forall x :: multiset(Filter(s, keep))[x] == if keep(x) then multiset(s)[x] else 0
  {
    if s != [] {
      FilterCounts(s[1..], keep);
      assert s == [s[0]] + s[1..];
    }
  }

  /** `UPDATE ... SET change WHERE sel`: every selected row changed, every other row kept, in place. */
  function UpdateWhere<T>(s: seq<T>, sel: T -> bool, change: T -> T): (r: seq<T>)
    ensures |r| == |s|
    ensures forall i :: 0 <= i < |s| ==> r[i] == if sel(s[i]) then change(s[i]) else s[i]
  {
    seq(|s|, i requires 0 <= i < |s| => if sel(s[i]) then change(s[i]) else s[i])
  }

  /** An update that touches no row a selection keeps, and makes no row kept, leaves that selection alone. */
  lemma {:induction false} FilterUpdateDisjoint<T(!new)>(s: seq<T>, keep: T -> bool, sel: T -> bool, change: T -> T)
    requires forall x :: sel(x) ==> !keep(x) && !keep(change(x))
    ensures Filter(UpdateWhere(s, sel, change), keep) == Filter(s, keep)
  {
    if s != [] {
      var u := UpdateWhere(s, sel, change);
      assert u[1..] == UpdateWhere(s[1..], sel, change);
      FilterUpdateDisjoint(s[1..], keep, sel, change);
      assert keep(u[0]) == keep(s[0]);
      if keep(s[0]) {
        assert u[0] == s[0];
      }
    }
  }

  /** Selecting from a selection by a narrower condition is selecting by that condition alone. */
  lemma {:induction false} FilterNarrower<T(!new)>(s: seq<T>, wide: T -> bool, narrow: T -> bool)
    requires forall x :: narrow(x) ==> wide(x)
    ensures Filter(Filter(s, wide), narrow) == Filter(s, narrow)
  {
    if s != [] {
      FilterNarrower(s[1..], wide, narrow);
    }
  }

  /** No two rows share a key (a primary-key or unique constraint). */
  ghost predicate UniqueKeys<T, K>(s: seq<T>, key: T -> K)
  {
    forall i, j :: 0 <= i < j < |s| ==> key(s[i]) != key(s[j])
  }

  /** Selecting or deleting rows never breaks a key constraint. */
  lemma {:induction false} FilterKeepsUnique<T(!new), K>(s: seq<T>, keep: T -> bool, key: T -> K)
    requires UniqueKeys(s, key)
    ensures UniqueKeys(Filter(s, keep), key)
  {
    if s != [] {
      var rest := Filter(s[1..], keep);
      FilterKeepsUnique(s[1..], keep, key);
      if keep(s[0]) {
        forall j | 0 <= j < |rest|
          ensures key(s[0]) != key(rest[j])
        {
          var k :| 0 <= k < |s[1..]| && s[1..][k] == rest[j];
          assert s[k + 1] == rest[j];
        }
        assert Filter(s, keep) == [s[0]] + rest;
      }
    }
  }
}
