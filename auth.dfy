/**
 * The auth gate of app/auth/auth_routes.py: login, logout and the resolution of a bearer token to
 * the caller's identity. Token signing and decoding and password hashing are foreign code; they are
 * parameters here (`issue`, `verify`, `verifyPassword`).
 */
module Auth {
  import opened Outcomes
  import opened Decimal
  import opened Tables

  type Token = string

  const InvalidCredentials: Error := HttpException(401, Message("Invalid credentials"))
  const Revoked: Error := HttpException(401, Message("Token has been invalidated. Please log in again."))
  const UnknownSubject: Error := HttpException(404, Message("User not found"))
  const LookupFailed: Error := HttpException(500, Message("Database error"))
  /** What token verification raises for a token it cannot decode or that has no subject; no handler catches it. */
  const InvalidToken: Error := ValueError("Invalid token")

  /**
   * `login`: the first row for the username must exist and its stored hash must accept the
   * password; the token is then issued for the subject str(id). Both failures give the same 401.
   * A driver error on the lookup is not caught.
   */
  function Login(users: seq<User>, username: string, password: string, verifyPassword: (string, string) -> bool,
                 issue: string -> Token, fault: Fault): (r: Result<Token>)
    ensures Fails(fault, 0) ==> r == Err(Raised(fault))
    ensures !Fails(fault, 0) && r.Err? ==> r.error == InvalidCredentials
    ensures (forall u :: u in users ==> u.username != username) ==> r.Err?
    ensures r.Ok? ==> exists u :: u in users && u.username == username && verifyPassword(password, u.password) &&
                                  r.value == issue(IdText(u.id))
    ensures UniqueUsers(users) && !Fails(fault, 0) ==>
              (r.Ok? <==> exists u :: u in users && u.username == username && verifyPassword(password, u.password))
  {
    if Fails(fault, 0) then Err(Raised(fault))
    else
      var rows := UsersWith(users, ByName(username));
      if rows == [] || !verifyPassword(password, rows[0].password) then
        assert UniqueUsers(users) ==> forall u :: u in users && u.username == username ==> u == rows[0] by {
          if UniqueUsers(users) && rows != [] {
            forall u | u in users && u.username == username
              ensures u == rows[0]
            {
              var i :| 0 <= i < |users| && users[i] == u;
              var j :| 0 <= j < |users| && users[j] == rows[0];
              assert i == j;
            }
          }
        }
        Err(InvalidCredentials)
      else
        assert rows[0] in users;
        Ok(issue(IdText(rows[0].id)))
  }

  /** The revocation set: tokens are added on logout and never removed. */
  class AuthGate {
    var blacklist: set<Token>

    constructor ()
      ensures blacklist == {}
    {
      blacklist := {};
    }

    /** `logout`: the token joins the set, whatever it is and however often; the answer is always the same. */
    method Logout(token: Token) returns (message: string)
      modifies this
      ensures blacklist == old(blacklist) + {token}
      ensures message == "Successfully logged out"
    {
      blacklist := blacklist + {token};
      message := "Successfully logged out";
    }

    /**
     * `get_current_user`: a revoked token is refused before it is decoded; otherwise the subject is
     * looked up as an id (statement 0) and the first row gives the identity. A lookup that finds no
     * row gives 404, a driver error gives a bare 500 "Database error".
     */
    function CurrentUser(users: seq<User>, token: Token, verify: Token -> Option<string>, fault: Fault): (r: Result<Identity>)
      reads this
      ensures token in blacklist ==> r == Err(Revoked)
      ensures token !in blacklist && verify(token).None? ==> r == Err(InvalidToken)
      ensures token !in blacklist && verify(token).Some? && Fails(fault, 0) ==> r == Err(LookupFailed)
      ensures r.Ok? ==> exists u :: u in users && ParseId(verify(token).value) == Some(u.id) &&
                                    r.value == Identity(u.id, u.username, u.usertype)
      ensures (token !in blacklist && verify(token).Some? && !Fails(fault, 0)) ==>
                (r.Err? <==> forall u :: u in users ==> ParseId(verify(token).value) != Some(u.id))
      ensures r.Err? && !(token in blacklist || verify(token).None? || Fails(fault, 0)) ==> r.error == UnknownSubject
    {
      if token in blacklist then Err(Revoked)
      else
        match verify(token)
        case None => Err(InvalidToken)
        case Some(subject) =>
          if Fails(fault, 0) then Err(LookupFailed)
          else
            match ParseId(subject)
            case None => Err(UnknownSubject)
            case Some(id) =>
              var rows := UsersWith(users, ById(id));
              if rows == [] then
                Err(UnknownSubject)
              else
                assert rows[0] in users;
                Ok(Identity(rows[0].id, rows[0].username, rows[0].usertype))
    }
  }

  /**
   * A token from a successful login, not revoked since, resolves to the user who logged in, provided
   * decoding gives back the subject the token was issued for.
   */
  lemma LoginThenResolve(gate: AuthGate, users: seq<User>, username: string, password: string,
                         verifyPassword: (string, string) -> bool, issue: string -> Token,
                         verify: Token -> Option<string>)
    requires UniqueUsers(users)
    requires forall s :: verify(issue(s)) == Some(s)
    requires Login(users, username, password, verifyPassword, issue, NoFault).Ok?
    requires Login(users, username, password, verifyPassword, issue, NoFault).value !in gate.blacklist
    ensures exists u :: u in users && u.username == username &&
              gate.CurrentUser(users, Login(users, username, password, verifyPassword, issue, NoFault).value, verify, NoFault)
                == Ok(Identity(u.id, u.username, u.usertype))
  {
    var token := Login(users, username, password, verifyPassword, issue, NoFault).value;
    var u :| u in users && u.username == username && verifyPassword(password, u.password) && token == issue(IdText(u.id));
    ParseIdText(u.id);
    var r := gate.CurrentUser(users, token, verify, NoFault);
    var v :| v in users && ParseId(verify(token).value) == Some(v.id) && r.value == Identity(v.id, v.username, v.usertype);
    var i :| 0 <= i < |users| && users[i] == u;
    var j :| 0 <= j < |users| && users[j] == v;
    assert i == j;
  }
}
