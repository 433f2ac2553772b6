/**
 * The user handlers of app/users/user_routes.py: registration, the profile (order history and the
 * books the caller added) and the user details, each with its role-based visibility.
 */
module Users {
  import opened Outcomes
  import opened Rows
  import opened Tables

  // ---------------------------------------------------------------------------
  // register
  // ---------------------------------------------------------------------------

  /** The request body of `register`; `usertype` defaults to "user" in the request schema. */
  datatype UserCreate = UserCreate(username: string, password: string, firstname: string, lastname: string,
                                   address: string, phone: string, mailid: string, usertype: string)

  /**
   * `register`: one INSERT storing `hash(password)` (pwd_context.hash) in place of the password.
   * `newId` is the id the auto-increment column assigns. A repeated username is refused by the
   * assumed unique key on `username`; every failure becomes a 500 "Database error".
   */
  method Register(db: Database, input: UserCreate, hash: string -> string, newId: UserId, fault: Fault)
    returns (r: Result<string>)
    requires db.Valid()
    requires forall u :: u in db.users ==> u.id != newId
    modifies db
    ensures db.Valid()
    ensures db.books == old(db.books) && db.orders == old(db.orders) && db.cart == old(db.cart)
    ensures r.Ok? <==> !Fails(fault, 0) && UsersWith(old(db.users), ByName(input.username)) == []
    ensures r.Ok? ==> r.value == "User registered successfully"
    ensures r.Ok? ==> db.users == old(db.users) + [User(newId, input.username, hash(input.password), input.firstname,
                                                         input.lastname, input.address, input.phone, input.mailid,
                                                         input.usertype)]
    ensures r.Err? ==> db.users == old(db.users) && IsDatabaseError(r.error)
  {
    if Fails(fault, 0) {
      return Err(DatabaseError(Raised(fault)));
    }
    if UsersWith(db.users, ByName(input.username)) != [] {
      return Err(DatabaseError(DuplicateEntry));
    }
    var user := User(newId, input.username, hash(input.password), input.firstname, input.lastname, input.address,
                     input.phone, input.mailid, input.usertype);
    InsertUserKeepsUnique(db.users, user);
    db.users := db.users + [user];
    r := Ok("User registered successfully");
  }

  // ---------------------------------------------------------------------------
  // get_profile
  // ---------------------------------------------------------------------------

  /** One row of the profile's order query: the order, its book's name, and for an admin the buyer's username. */
  datatype OrderLine = OrderLine(order: Order, bookName: string, orderedBy: Option<string>)

  /** The admin rows of one order and its books: one per (book, user) pair of the two joins. */
  function AdminLines(o: Order, bs: seq<Book>, us: seq<User>): seq<OrderLine>
  {
    if bs == [] then []
    else seq(|us|, i requires 0 <= i < |us| => OrderLine(o, bs[0].name, Some(us[i].username))) + AdminLines(o, bs[1..], us)
  }

  /** The rows one order contributes: joined with `books` on barcode, and for an admin with `users` on id. */
  function OrderLines(o: Order, books: seq<Book>, users: seq<User>, admin: bool): seq<OrderLine>
  {
    var bs := BooksWithBarcode(books, o.barcode);
    if admin then AdminLines(o, bs, UsersWith(users, ById(o.userId)))
    else seq(|bs|, i requires 0 <= i < |bs| => OrderLine(o, bs[i].name, None))
  }

  /**
   * The order query of the profile, orders in table order: every order for an admin, the caller's
   * orders otherwise.
   */
  function ProfileOrders(orders: seq<Order>, books: seq<Book>, users: seq<User>, admin: bool, uid: UserId): seq<OrderLine>
  {
    if orders == [] then []
    else (if admin || orders[0].userId == uid then OrderLines(orders[0], books, users, admin) else [])
         + ProfileOrders(orders[1..], books, users, admin, uid)
  }

  /** Which rows the join of one order yields. */
  predicate Joined(l: OrderLine, books: seq<Book>, users: seq<User>, admin: bool)
  {
    && (exists b :: b in books && b.barcode == l.order.barcode && b.name == l.bookName)
    && (admin ==> l.orderedBy.Some? && exists u :: u in users && u.id == l.order.userId && u.username == l.orderedBy.value)
    && (!admin ==> l.orderedBy.None?)
  }

  lemma {:induction false} AdminLinesJoined(o: Order, bs: seq<Book>, us: seq<User>, books: seq<Book>, users: seq<User>)
    requires forall b :: b in bs ==> b in books && b.barcode == o.barcode
    requires forall u :: u in us ==> u in users && u.id == o.userId
    ensures forall l :: l in AdminLines(o, bs, us) ==> l.order == o && Joined(l, books, users, true)
  {
    if bs != [] {
      AdminLinesJoined(o, bs[1..], us, books, users);
      assert bs[0] in bs;
      var head := seq(|us|, i requires 0 <= i < |us| => OrderLine(o, bs[0].name, Some(us[i].username)));
      forall l | l in head
        ensures l.order == o && Joined(l, books, users, true)
      {
        var i :| 0 <= i < |us| && head[i] == l;
        assert us[i] in us;
      }
    }
  }

  lemma OrderLinesJoined(o: Order, books: seq<Book>, users: seq<User>, admin: bool)
    ensures forall l :: l in OrderLines(o, books, users, admin) ==> l.order == o && Joined(l, books, users, admin)
  {
    var bs := BooksWithBarcode(books, o.barcode);
    if admin {
      AdminLinesJoined(o, bs, UsersWith(users, ById(o.userId)), books, users);
    } else {
      forall l | l in OrderLines(o, books, users, admin)
        ensures l.order == o && Joined(l, books, users, admin)
      {
        var i :| 0 <= i < |bs| && OrderLines(o, books, users, admin)[i] == l;
        assert bs[i] in books;
      }
    }
  }

  /**
   * Every profile row is an order of the table joined with a book of its barcode; a non-admin's
   * rows are their own orders and carry no buyer, an admin's rows carry the buyer's username.
   */
  lemma {:induction false} ProfileOrdersVisible(orders: seq<Order>, books: seq<Book>, users: seq<User>, admin: bool, uid: UserId)
    ensures forall l :: l in ProfileOrders(orders, books, users, admin, uid) ==>
              && l.order in orders
              && (!admin ==> l.order.userId == uid)
              && Joined(l, books, users, admin)
  {
    if orders != [] {
      ProfileOrdersVisible(orders[1..], books, users, admin, uid);
      OrderLinesJoined(orders[0], books, users, admin);
      assert orders == [orders[0]] + orders[1..];
    }
  }

  /** Every pairing of a book in `bs` with a user in `us` is a row of the admin join. */
  lemma {:induction false} AdminLinesComplete(o: Order, bs: seq<Book>, us: seq<User>)
    ensures forall b, u :: b in bs && u in us ==> OrderLine(o, b.name, Some(u.username)) in AdminLines(o, bs, us)
  {
    if bs != [] {
      AdminLinesComplete(o, bs[1..], us);
      var head := seq(|us|, i requires 0 <= i < |us| => OrderLine(o, bs[0].name, Some(us[i].username)));
      assert AdminLines(o, bs, us) == head + AdminLines(o, bs[1..], us);
      forall b, u | b in bs && u in us
        ensures OrderLine(o, b.name, Some(u.username)) in AdminLines(o, bs, us)
      {
        if b == bs[0] {
          var k :| 0 <= k < |us| && us[k] == u;
          assert head[k] == OrderLine(o, b.name, Some(u.username));
        } else {
          assert b in bs[1..];
        }
      }
    }
  }

  /** Every joined row of one order is among the rows that order contributes. */
  lemma OrderLinesComplete(o: Order, books: seq<Book>, users: seq<User>, admin: bool)
    ensures forall l: OrderLine :: l.order == o && Joined(l, books, users, admin) ==> l in OrderLines(o, books, users, admin)
  {
    var bs := BooksWithBarcode(books, o.barcode);
    if admin {
      AdminLinesComplete(o, bs, UsersWith(users, ById(o.userId)));
      forall l: OrderLine | l.order == o && Joined(l, books, users, admin)
        ensures l in OrderLines(o, books, users, admin)
      {
        var b :| b in books && b.barcode == o.barcode && b.name == l.bookName;
        var u :| u in users && u.id == o.userId && u.username == l.orderedBy.value;
        assert b in bs && u in UsersWith(users, ById(o.userId));
        assert l == OrderLine(o, b.name, Some(u.username));
      }
    } else {
      forall l: OrderLine | l.order == o && Joined(l, books, users, admin)
        ensures l in OrderLines(o, books, users, admin)
      {
        var b :| b in books && b.barcode == o.barcode && b.name == l.bookName;
        assert b in bs;
        var k :| 0 <= k < |bs| && bs[k] == b;
        assert OrderLines(o, books, users, admin)[k] == l;
      }
    }
  }

  /**
   * The converse of `ProfileOrdersVisible`: every order the caller may see, joined with a book of its
   * barcode (and, for an admin, with its buyer), is a profile row. An order is left out only when
   * the join finds no book or, for an admin, no buyer.
   */
  lemma {:induction false} ProfileOrdersComplete(orders: seq<Order>, books: seq<Book>, users: seq<User>, admin: bool, uid: UserId)
    ensures forall l: OrderLine :: l.order in orders && (admin || l.order.userId == uid) && Joined(l, books, users, admin) ==>
              l in ProfileOrders(orders, books, users, admin, uid)
  {
    if orders != [] {
      ProfileOrdersComplete(orders[1..], books, users, admin, uid);
      OrderLinesComplete(orders[0], books, users, admin);
      var head := if admin || orders[0].userId == uid then OrderLines(orders[0], books, users, admin) else [];
      assert ProfileOrders(orders, books, users, admin, uid) == head + ProfileOrders(orders[1..], books, users, admin, uid);
      forall l: OrderLine | l.order in orders && (admin || l.order.userId == uid) && Joined(l, books, users, admin)
        ensures l in ProfileOrders(orders, books, users, admin, uid)
      {
        if l.order != orders[0] {
          assert orders == [orders[0]] + orders[1..];
          assert l.order in orders[1..];
        }
      }
    }
  }

  /** Every order of the caller that has a book row shows in the caller's profile. */
  lemma OwnOrderShows(orders: seq<Order>, books: seq<Book>, users: seq<User>, uid: UserId, o: Order, b: Book)
    requires o in orders && o.userId == uid && b in books && b.barcode == o.barcode
    ensures OrderLine(o, b.name, None) in ProfileOrders(orders, books, users, false, uid)
  {
    ProfileOrdersComplete(orders, books, users, false, uid);
    assert Joined(OrderLine(o, b.name, None), books, users, false);
  }

  /**
   * An order whose book row is gone (the last copy was sold, which deletes the row) drops out of
   * every profile, the buyer's and the admin's alike, because the order query is an inner join.
   */
  lemma SoldOutOrderLeavesProfile(orders: seq<Order>, books: seq<Book>, users: seq<User>, admin: bool, uid: UserId, o: Order)
    requires forall b :: b in books ==> b.barcode != o.barcode
    ensures forall l :: l in ProfileOrders(orders, books, users, admin, uid) ==> l.order != o
  {
    ProfileOrdersVisible(orders, books, users, admin, uid);
  }

  const OrderKeys: set<string> := {"order_id", "order_date", "transaction_id", "total_amount", "status", "quantity", "book_name"}
  const SummaryKeys: set<string> := {"barcode", "name", "author", "price", "quantity"}

  /** The record of one profile row; `ordered_by` only when the row carries a buyer. */
  function OrderRecord(l: OrderLine): (r: Record)
    ensures r.Keys == if l.orderedBy.Some? then OrderKeys + {"ordered_by"} else OrderKeys
  {
    var base := map["order_id" := Int(l.order.orderId), "order_date" := Text(l.order.orderDate),
                    "transaction_id" := Text(l.order.transactionId), "total_amount" := Int(l.order.totalAmount),
                    "status" := Text(l.order.status), "quantity" := Int(l.order.quantity),
                    "book_name" := Text(l.bookName)];
    if l.orderedBy.Some? then base["ordered_by" := Text(l.orderedBy.value)] else base
  }

  /** The record of one book the caller added. */
  function BookSummary(b: Book): (r: Record)
    ensures r.Keys == SummaryKeys
  {
    map["barcode" := Int(b.barcode), "name" := Text(b.name), "author" := Text(b.author),
        "price" := Int(b.price), "quantity" := Int(b.quantity)]
  }

  /** The records of the order rows, in row order. */
  function OrderRecords(lines: seq<OrderLine>): (r: seq<Record>)
    ensures |r| == |lines|
    ensures forall i :: 0 <= i < |lines| ==> r[i] == OrderRecord(lines[i])
    ensures forall rec :: rec in r ==> exists l :: l in lines && rec == OrderRecord(l)
    ensures forall l :: l in lines ==> OrderRecord(l) in r
  {
    var r := seq(|lines|, i requires 0 <= i < |lines| => OrderRecord(lines[i]));
    assert forall rec :: rec in r ==> exists i :: 0 <= i < |lines| && rec == OrderRecord(lines[i]);
    assert forall i :: 0 <= i < |lines| ==> lines[i] in lines;
    assert forall l :: l in lines ==> exists i :: 0 <= i < |lines| && lines[i] == l;
    r
  }

  /** The records of the added books, in row order. */
  function BookSummaries(added: seq<Book>): (r: seq<Record>)
    ensures |r| == |added|
    ensures forall i :: 0 <= i < |added| ==> r[i] == BookSummary(added[i])
    ensures forall rec :: rec in r ==> exists b :: b in added && rec == BookSummary(b)
  {
    var r := seq(|added|, i requires 0 <= i < |added| => BookSummary(added[i]));
    assert forall rec :: rec in r ==> exists i :: 0 <= i < |added| && rec == BookSummary(added[i]);
    assert forall i :: 0 <= i < |added| ==> added[i] in added;
    r
  }

  datatype Profile = Profile(username: string, message: string, orders: Listing, addedBooks: Listing)

  /**
   * `get_profile`: the order query (statement 0) and the added-books query (statement 1), shaped into
   * records. An admin sees every order with a buyer; anyone else only their own orders and no
   * `ordered_by`; the added books are the caller's whatever the role. Every failure is a 500
   * "Database error".
   */
  function GetProfile(users: seq<User>, orders: seq<Order>, books: seq<Book>, caller: Identity, fault: Fault)
    : (r: Result<Profile>)
    ensures r.Err? <==> Fails(fault, 0) || Fails(fault, 1)
    ensures r.Err? ==> r.error == DatabaseError(Raised(fault))
    ensures r.Ok? ==> r.value.username == caller.username && r.value.message == "Welcome to your profile!"
    ensures r.Ok? ==> (r.value.orders == Nothing("No orders found.") <==>
                       ProfileOrders(orders, books, users, IsAdmin(caller), caller.id) == [])
    ensures r.Ok? && r.value.orders.Items? ==>
              && |r.value.orders.records| == |ProfileOrders(orders, books, users, IsAdmin(caller), caller.id)|
              && (forall i :: 0 <= i < |r.value.orders.records| ==>
                    r.value.orders.records[i] == OrderRecord(ProfileOrders(orders, books, users, IsAdmin(caller), caller.id)[i]))
              && forall rec :: rec in r.value.orders.records ==>
                   && rec.Keys == (if IsAdmin(caller) then OrderKeys + {"ordered_by"} else OrderKeys)
                   && exists l :: l in ProfileOrders(orders, books, users, IsAdmin(caller), caller.id) && rec == OrderRecord(l)
    ensures r.Ok? ==> forall l: OrderLine ::
              l.order in orders && (IsAdmin(caller) || l.order.userId == caller.id) && Joined(l, books, users, IsAdmin(caller)) ==>
                r.value.orders.Items? && OrderRecord(l) in r.value.orders.records
    ensures r.Ok? ==> (r.value.addedBooks == Nothing("No books added.") <==> BooksAddedBy(books, caller.username) == [])
    ensures r.Ok? && r.value.addedBooks.Items? ==>
              && |r.value.addedBooks.records| == |BooksAddedBy(books, caller.username)|
              && (forall i :: 0 <= i < |r.value.addedBooks.records| ==>
                    r.value.addedBooks.records[i] == BookSummary(BooksAddedBy(books, caller.username)[i]))
              && forall rec :: rec in r.value.addedBooks.records ==>
                   rec.Keys == SummaryKeys &&
                   exists b :: b in books && b.addedBy == caller.username && rec == BookSummary(b)
  {
    if Fails(fault, 0) || Fails(fault, 1) then Err(DatabaseError(Raised(fault)))
    else
      var admin := IsAdmin(caller);
      var lines := ProfileOrders(orders, books, users, admin, caller.id);
      var added := BooksAddedBy(books, caller.username);
      ProfileOrdersVisible(orders, books, users, admin, caller.id);
      ProfileOrdersComplete(orders, books, users, admin, caller.id);
      var orderRecords := OrderRecords(lines);
      var bookRecords := BookSummaries(added);
      Ok(Profile(caller.username, "Welcome to your profile!",
                 OrDefault(orderRecords, "No orders found."), OrDefault(bookRecords, "No books added.")))
  }

  // ---------------------------------------------------------------------------
  // user_details
  // ---------------------------------------------------------------------------

  const UserKeys: set<string> := {"username", "firstname", "lastname", "address", "phone", "mailid", "usertype"}
  const NoSuchUser: Error := HttpException(404, Message("User not found"))

  /** The record of one user: seven columns, the password not among them. */
  function UserRecord(u: User): (r: Record)
    ensures r.Keys == UserKeys && "password" !in r
  {
    map["username" := Text(u.username), "firstname" := Text(u.firstname), "lastname" := Text(u.lastname),
        "address" := Text(u.address), "phone" := Text(u.phone), "mailid" := Text(u.mailid),
        "usertype" := Text(u.usertype)]
  }

  /** The admin's list: one record per user, in table order. */
  function UserRecords(users: seq<User>): (r: seq<Record>)
    ensures |r| == |users|
    ensures forall i :: 0 <= i < |users| ==> r[i] == UserRecord(users[i])
    ensures forall i :: 0 <= i < |users| ==> r[i].Keys == UserKeys && r[i]["username"] == Text(users[i].username)
    ensures forall rec :: rec in r ==> "password" !in rec
  {
    seq(|users|, i requires 0 <= i < |users| => UserRecord(users[i]))
  }

  datatype UserData = AllUsers(records: seq<Record>) | OneUser(record: Record)

  /**
   * `user_details`: an admin gets every user (statement 0 reads them all); anyone else gets the
   * first row for their own username, or a 404 that is re-raised unchanged. No record holds the
   * password. A driver error becomes a 500 "Database error".
   */
  function UserDetails(users: seq<User>, caller: Identity, fault: Fault): (r: Result<UserData>)
    ensures Fails(fault, 0) ==> r == Err(DatabaseError(Raised(fault)))
    ensures r.Ok? ==> (r.value.AllUsers? <==> IsAdmin(caller))
    ensures IsAdmin(caller) ==> (r.Ok? <==> !Fails(fault, 0))
    ensures r.Ok? && r.value.AllUsers? ==>
              && |r.value.records| == |users|
              && forall i :: 0 <= i < |users| ==>
                   r.value.records[i] == UserRecord(users[i]) && r.value.records[i].Keys == UserKeys
    ensures !IsAdmin(caller) && !Fails(fault, 0) ==>
              (r.Err? <==> forall u :: u in users ==> u.username != caller.username)
    ensures !IsAdmin(caller) && !Fails(fault, 0) && r.Err? ==> r.error == NoSuchUser
    ensures r.Ok? && r.value.OneUser? ==>
              r.value.record.Keys == UserKeys &&
              exists u :: u in users && u.username == caller.username && r.value.record == UserRecord(u)
    ensures r.Ok? ==> match r.value
                      case AllUsers(records) => forall rec :: rec in records ==> "password" !in rec
                      case OneUser(record) => "password" !in record
  {
    if Fails(fault, 0) then Err(DatabaseError(Raised(fault)))
    else if IsAdmin(caller) then
      Ok(AllUsers(UserRecords(users)))
    else
      var rows := UsersWith(users, ByName(caller.username));
      if rows == [] then
        Err(NoSuchUser)
      else
        assert rows[0] in users;
        Ok(OneUser(UserRecord(rows[0])))
  }
}
