/**
 * Order placement, viewing, cancellation and status updates (app/orders/ordermanagement.py),
 * over the `books` and `orders` tables. The sale itself (stock check, order row, stock decrement
 * or deletion) is shared with the older placement handler in app/books/bookscontroller.py.
 */
module Orders {
  import opened Outcomes
  import opened Rows
  import opened Tables

  const OrderPlaced: string := "Order Placed"
  const OrderCanceled: string := "Order Canceled"
  const AllowedStatuses: seq<string> := ["In Transit", "Order Delivered"]

  // ---------------------------------------------------------------------------
  // The sale shared by both placement handlers
  // ---------------------------------------------------------------------------

  /** The first row of `SELECT price, quantity FROM books WHERE barcode = %s`, if any. */
  function FirstBook(books: seq<Book>, b: Barcode): (r: Option<Book>)
    ensures r.Some? ==> r.value in books && r.value.barcode == b
    ensures r.None? <==> forall x :: x in books ==> x.barcode != b
  {
    var rows := BooksWithBarcode(books, b);
    if rows == [] then None else Some(rows[0])
  }

  /** The stock check: the book exists and its available quantity is not below the request. */
  predicate InStock(books: seq<Book>, b: Barcode, quantity: int)
  {
    var row := FirstBook(books, b);
    row.Some? && row.value.quantity >= quantity
  }

  /** The order row a placement inserts: the caller's id, status "Order Placed", total = price * quantity. */
  function PlacedOrder(orderId: int, who: Identity, book: Book, quantity: int, orderDate: string,
                       tx: TransactionId): Order
  {
    Order(orderId, who.id, book.barcode, orderDate, tx, book.price * quantity, OrderPlaced, quantity)
  }

  /** What a placement does to `books`: store the remaining stock, or delete the row when none is left. */
  function AfterSale(books: seq<Book>, b: Barcode, quantity: int): seq<Book>
    requires FirstBook(books, b).Some?
  {
    var left := FirstBook(books, b).value.quantity - quantity;
    if left > 0 then SetBookQuantity(books, b, left) else DeleteBook(books, b)
  }

  /** Storing a new quantity keeps every row's barcode, so the key constraint still holds. */
  lemma SetQuantityKeepsUnique(books: seq<Book>, b: Barcode, n: int)
    requires UniqueBarcodes(books)
    ensures UniqueBarcodes(SetBookQuantity(books, b, n))
  {
    var after := SetBookQuantity(books, b, n);
    forall i, j | 0 <= i < j < |after|
      ensures after[i].barcode != after[j].barcode
    {
      assert after[i].barcode == books[i].barcode && after[j].barcode == books[j].barcode;
    }
  }

  /** Storing a new quantity for a barcode changes that book's quantity and nothing else. */
  lemma SetQuantityKeepsOthers(books: seq<Book>, b: Barcode, n: int)
    requires UniqueBarcodes(books) && FirstBook(books, b).Some?
    ensures FirstBook(SetBookQuantity(books, b, n), b) == Some(FirstBook(books, b).value.(quantity := n))
    ensures forall x: Book :: x.barcode != b ==> (x in SetBookQuantity(books, b, n) <==> x in books)
  {
    var book := FirstBook(books, b).value;
    var after := SetBookQuantity(books, b, n);
    var i :| 0 <= i < |books| && books[i] == book;
    assert after[i] == book.(quantity := n);
    assert after[i] in BooksWithBarcode(after, b);
    var first := FirstBook(after, b).value;
    var j :| 0 <= j < |after| && after[j] == first;
    assert books[j].barcode == b;
    assert j == i;
    forall x: Book | x.barcode != b
      ensures x in after <==> x in books
    {
      if x in after {
        var k :| 0 <= k < |after| && after[k] == x;
        assert books[k] == x;
      }
      if x in books {
        var k :| 0 <= k < |books| && books[k] == x;
        assert after[k] == x;
      }
    }
  }

  /** Deleting a barcode's rows leaves no book with that barcode and keeps every other one. */
  lemma DeleteBookKeepsOthers(books: seq<Book>, b: Barcode)
    requires UniqueBarcodes(books)
    ensures UniqueBarcodes(DeleteBook(books, b))
    ensures FirstBook(DeleteBook(books, b), b) == None
    ensures forall x: Book :: x.barcode != b ==> (x in DeleteBook(books, b) <==> x in books)
  {
    FilterKeepsUnique(books, (x: Book) => x.barcode != b, (x: Book) => x.barcode);
    assert UniqueKeys(Filter(books, (x: Book) => x.barcode != b), (x: Book) => x.barcode);
  }

  /** A sale never breaks the key constraint on `books`. */
  lemma SaleKeepsUnique(books: seq<Book>, b: Barcode, quantity: int)
    requires UniqueBarcodes(books) && FirstBook(books, b).Some?
    ensures UniqueBarcodes(AfterSale(books, b, quantity))
  {
    var left := FirstBook(books, b).value.quantity - quantity;
    if left > 0 {
      SetQuantityKeepsUnique(books, b, left);
    } else {
      DeleteBookKeepsOthers(books, b);
    }
  }

  /**
   * After a sale the book's stock is exactly the old stock minus the ordered quantity, or the book is
   * gone when that is not positive; every other book is untouched and barcodes stay unique.
   */
  lemma SaleUpdatesStock(books: seq<Book>, b: Barcode, quantity: int)
    requires UniqueBarcodes(books) && FirstBook(books, b).Some?
    ensures UniqueBarcodes(AfterSale(books, b, quantity))
    ensures var left := FirstBook(books, b).value.quantity - quantity;
            var after := FirstBook(AfterSale(books, b, quantity), b);
            if left > 0 then after == Some(FirstBook(books, b).value.(quantity := left)) else after == None
    ensures forall x: Book :: x.barcode != b ==> (x in AfterSale(books, b, quantity) <==> x in books)
  {
    var left := FirstBook(books, b).value.quantity - quantity;
    if left > 0 {
      SetQuantityKeepsUnique(books, b, left);
      SetQuantityKeepsOthers(books, b, left);
    } else {
      DeleteBookKeepsOthers(books, b);
    }
  }

  // ---------------------------------------------------------------------------
  // order_book
  // ---------------------------------------------------------------------------

  const BookNotFound: Error := HttpException(404, Message("Book not found."))
  const InsufficientStock: Error := HttpException(400, Message("Insufficient stock."))

  /** What a placement leaves behind: the handler's outcome and the two tables it writes. */
  datatype Placement = Placement(result: Result<TransactionId>, books: seq<Book>, orders: seq<Order>)

  /**
   * `order_book`, statement by statement: read the book (statement 0), check the stock, insert the
   * order (statement 1), then update or delete the book row (statement 2). Every exception, its own
   * 404 and 400 included, leaves as a 500 "Database error"; a statement that fails has no effect,
   * but the ones before it stay (the order row survives a failing stock update).
   */
  function PlaceOrder(books: seq<Book>, orders: seq<Order>, caller: Identity, barcode: Barcode, quantity: int,
                      tx: TransactionId, orderDate: string, orderId: int, fault: Fault): Placement
  {
    if Fails(fault, 0) then Placement(Err(DatabaseError(Raised(fault))), books, orders)
    else
      var rows := BooksWithBarcode(books, barcode);
      if rows == [] then Placement(Err(DatabaseError(BookNotFound)), books, orders)
      else if rows[0].quantity < quantity then Placement(Err(DatabaseError(InsufficientStock)), books, orders)
      else if Fails(fault, 1) then Placement(Err(DatabaseError(Raised(fault))), books, orders)
      else
        var placed := orders + [PlacedOrder(orderId, caller, rows[0], quantity, orderDate, tx)];
        if Fails(fault, 2) then Placement(Err(DatabaseError(Raised(fault))), books, placed)
        else Placement(Ok(tx), AfterSale(books, barcode, quantity), placed)
  }

  /**
   * What a placement promises: it succeeds exactly when the book is in stock and no statement fails;
   * then the order row is appended and the book's stock drops by exactly the ordered quantity (the
   * row is deleted when nothing is left); every failure is a 500 "Database error" and leaves the
   * books as they were; other books are never touched and barcodes stay unique.
   */
  lemma PlaceOrderSpec(books: seq<Book>, orders: seq<Order>, caller: Identity, barcode: Barcode, quantity: int,
                       tx: TransactionId, orderDate: string, orderId: int, fault: Fault)
    requires UniqueBarcodes(books)
    ensures var p := PlaceOrder(books, orders, caller, barcode, quantity, tx, orderDate, orderId, fault);
      && UniqueBarcodes(p.books)
      && (p.result.Ok? <==> InStock(books, barcode, quantity) && !Fails(fault, 0) && !Fails(fault, 1) && !Fails(fault, 2))
      && (p.result.Ok? ==> p.result.value == tx)
      && (p.result.Err? ==> IsDatabaseError(p.result.error) && p.books == books)
      && (Fails(fault, 0) ==> p.result == Err(DatabaseError(Raised(fault))))
      && (!Fails(fault, 0) && FirstBook(books, barcode).None? ==> p.result == Err(DatabaseError(BookNotFound)))
      && ((!Fails(fault, 0) && FirstBook(books, barcode).Some? && !InStock(books, barcode, quantity)) ==>
            p.result == Err(DatabaseError(InsufficientStock)))
      && (p.orders == if InStock(books, barcode, quantity) && !Fails(fault, 0) && !Fails(fault, 1)
                      then orders + [PlacedOrder(orderId, caller, FirstBook(books, barcode).value, quantity, orderDate, tx)]
                      else orders)
      && (p.result.Ok? ==>
            var left := FirstBook(books, barcode).value.quantity - quantity;
            FirstBook(p.books, barcode) == if left > 0 then Some(FirstBook(books, barcode).value.(quantity := left)) else None)
      && (forall x: Book :: x.barcode != barcode ==> (x in p.books <==> x in books))
  {
    if !Fails(fault, 0) && InStock(books, barcode, quantity) {
      SaleUpdatesStock(books, barcode, quantity);
    }
  }

  /** `order_book` on the store: its outcome and new tables are those of `PlaceOrder`. */
  method OrderBook(db: Database, caller: Identity, barcode: Barcode, quantity: int, tx: TransactionId,
                   orderDate: string, orderId: int, fault: Fault) returns (r: Result<TransactionId>)
    requires db.Valid()
    modifies db
    ensures db.Valid()
    ensures db.users == old(db.users) && db.cart == old(db.cart)
    ensures var p := PlaceOrder(old(db.books), old(db.orders), caller, barcode, quantity, tx, orderDate, orderId, fault);
            r == p.result && db.books == p.books && db.orders == p.orders
  {
    if Fails(fault, 0) {
      return Err(DatabaseError(Raised(fault)));
    }
    var rows := BooksWithBarcode(db.books, barcode);
    if rows == [] {
      return Err(DatabaseError(BookNotFound));
    }
    var book := rows[0];
    if book.quantity < quantity {
      return Err(DatabaseError(InsufficientStock));
    }
    if Fails(fault, 1) {
      return Err(DatabaseError(Raised(fault)));
    }
    db.orders := db.orders + [PlacedOrder(orderId, caller, book, quantity, orderDate, tx)];
    if Fails(fault, 2) {
      return Err(DatabaseError(Raised(fault)));
    }
    SaleKeepsUnique(db.books, barcode, quantity);
    db.books := AfterSale(db.books, barcode, quantity);
    r := Ok(tx);
  }

  // ---------------------------------------------------------------------------
  // view_orders
  // ---------------------------------------------------------------------------

  const UserNotFound: Error := HttpException(404, Message("User not found."))

  /**
   * `view_orders`: the order rows the caller may see. A non-admin sees their own orders whatever the
   * filter; an admin with a filter sees that user's orders (statement 0 finds the user, statement 1
   * reads the orders); an admin without one sees every order.
   */
  function ViewOrders(users: seq<User>, orders: seq<Order>, caller: Identity, username: Option<string>,
                      fault: Fault): (r: Result<seq<Order>>)
    ensures r.Err? ==> IsDatabaseError(r.error)
    ensures !IsAdmin(caller) ==> (r.Ok? <==> !Fails(fault, 0))
    ensures !IsAdmin(caller) && r.Ok? ==> forall o :: o in r.value <==> o in orders && o.userId == caller.id
    ensures !IsAdmin(caller) && r.Ok? ==>
              forall o :: multiset(r.value)[o] == if o.userId == caller.id then multiset(orders)[o] else 0
    ensures IsAdmin(caller) && !Given(username) ==> (r.Ok? <==> !Fails(fault, 0))
    ensures IsAdmin(caller) && !Given(username) && r.Ok? ==> r.value == orders
    ensures IsAdmin(caller) && Given(username) ==>
              (r.Ok? <==> !Fails(fault, 0) && UsersWith(users, ByName(username.value)) != [] && !Fails(fault, 1))
    ensures IsAdmin(caller) && Given(username) && !Fails(fault, 0) && UsersWith(users, ByName(username.value)) == [] ==>
              r == Err(DatabaseError(UserNotFound))
    ensures IsAdmin(caller) && Given(username) && r.Ok? ==>
              exists u :: u in users && u.username == username.value &&
                (forall o :: o in r.value <==> o in orders && o.userId == u.id) &&
                (forall o :: multiset(r.value)[o] == if o.userId == u.id then multiset(orders)[o] else 0)
  {
    if IsAdmin(caller) && Given(username) then
      if Fails(fault, 0) then Err(DatabaseError(Raised(fault)))
      else
        var found := UsersWith(users, ByName(username.value));
        if found == [] then Err(DatabaseError(UserNotFound))
        else if Fails(fault, 1) then Err(DatabaseError(Raised(fault)))
        else
          assert found[0] in users;
          Ok(OrdersOfUser(orders, found[0].id))
    else if Fails(fault, 0) then Err(DatabaseError(Raised(fault)))
    else if IsAdmin(caller) then Ok(orders)
    else Ok(OrdersOfUser(orders, caller.id))
  }

  // ---------------------------------------------------------------------------
  // cancel_order and update_order_status
  // ---------------------------------------------------------------------------

  const OrderNotFound: Error := HttpException(404, Message("Order not found."))
  const NotCancellable: Error := HttpException(400, Message("Order cannot be canceled."))

  /** Cancel's check: the caller has an order with this transaction id and its status is "Order Placed". */
  predicate Cancellable(orders: seq<Order>, tx: TransactionId, uid: UserId)
  {
    var rows := OrdersWithTransaction(orders, tx, uid);
    rows != [] && rows[0].status == OrderPlaced
  }

  /** Once a transaction's status is set to anything but "Order Placed", no one can cancel it. */
  lemma SettledOrderNotCancellable(orders: seq<Order>, tx: TransactionId, uid: UserId, status: string)
    requires status != OrderPlaced
    ensures !Cancellable(SetOrderStatus(orders, tx, status), tx, uid)
  {
    var after := SetOrderStatus(orders, tx, status);
    var rows := OrdersWithTransaction(after, tx, uid);
    if rows != [] {
      var k :| 0 <= k < |after| && after[k] == rows[0];
      assert after[k].transactionId == tx;
      assert orders[k].transactionId == tx;
    }
  }

  /**
   * `cancel_order`: statement 0 reads the caller's order with this transaction id, statement 1 sets
   * every order with the transaction id to "Order Canceled". Stock is not given back.
   */
  method CancelOrder(db: Database, caller: Identity, tx: TransactionId, fault: Fault) returns (r: Result<string>)
    requires db.Valid()
    modifies db
    ensures db.Valid()
    ensures db.books == old(db.books) && db.users == old(db.users) && db.cart == old(db.cart)
    ensures r.Ok? <==> Cancellable(old(db.orders), tx, caller.id) && !Fails(fault, 0) && !Fails(fault, 1)
    ensures r.Ok? ==> r.value == "Order canceled successfully"
    ensures r.Ok? ==> db.orders == SetOrderStatus(old(db.orders), tx, OrderCanceled)
    ensures r.Ok? ==> !Cancellable(db.orders, tx, caller.id)
    ensures r.Err? ==> db.orders == old(db.orders) && IsDatabaseError(r.error)
    ensures !Fails(fault, 0) && OrdersWithTransaction(old(db.orders), tx, caller.id) == [] ==>
              r == Err(DatabaseError(OrderNotFound))
    ensures (!Fails(fault, 0) && OrdersWithTransaction(old(db.orders), tx, caller.id) != [] &&
             !Cancellable(old(db.orders), tx, caller.id)) ==> r == Err(DatabaseError(NotCancellable))
  {
    if Fails(fault, 0) {
      return Err(DatabaseError(Raised(fault)));
    }
    var rows := OrdersWithTransaction(db.orders, tx, caller.id);
    if rows == [] {
      return Err(DatabaseError(OrderNotFound));
    }
    if rows[0].status != OrderPlaced {
      return Err(DatabaseError(NotCancellable));
    }
    if Fails(fault, 1) {
      return Err(DatabaseError(Raised(fault)));
    }
    SettledOrderNotCancellable(db.orders, tx, caller.id, OrderCanceled);
    db.orders := SetOrderStatus(db.orders, tx, OrderCanceled);
    r := Ok("Order canceled successfully");
  }

  /**
   * `update_order_status`: the status is checked first (400), then the role (403); an admin's update
   * is applied whatever the order's current status and whether or not the order exists.
   */
  method UpdateOrderStatus(db: Database, caller: Identity, tx: TransactionId, status: string, fault: Fault)
    returns (r: Result<string>)
    requires db.Valid()
    modifies db
    ensures db.Valid()
    ensures db.books == old(db.books) && db.users == old(db.users) && db.cart == old(db.cart)
    ensures status !in AllowedStatuses ==> r == Err(HttpException(400, Message("Invalid status: " + status)))
    ensures status in AllowedStatuses && !IsAdmin(caller) ==>
              r == Err(HttpException(403, Message("Only admin can update order status.")))
    ensures status in AllowedStatuses && IsAdmin(caller) && Fails(fault, 0) ==> r == Err(DatabaseError(Raised(fault)))
    ensures r.Ok? <==> status in AllowedStatuses && IsAdmin(caller) && !Fails(fault, 0)
    ensures r.Ok? ==> r.value == "Order status updated to '" + status + "'"
    ensures r.Ok? ==> db.orders == SetOrderStatus(old(db.orders), tx, status)
    ensures r.Err? ==> db.orders == old(db.orders)
  {
    if status !in AllowedStatuses {
      return Err(HttpException(400, Message("Invalid status: " + status)));
    }
    if !IsAdmin(caller) {
      return Err(HttpException(403, Message("Only admin can update order status.")));
    }
    if Fails(fault, 0) {
      return Err(DatabaseError(Raised(fault)));
    }
    db.orders := SetOrderStatus(db.orders, tx, status);
    r := Ok("Order status updated to '" + status + "'");
  }
}
