/**
 * The book handlers of app/books/bookscontroller.py: listing the books, adding one, and the older
 * order placement that keeps its own 400 and 404 instead of wrapping them into a 500.
 */
module Books {
  import opened Outcomes
  import opened Tables
  import opened Orders

  // ---------------------------------------------------------------------------
  // view_books
  // ---------------------------------------------------------------------------

  const BookKeys: set<string> := {"barcode", "name", "author", "price", "quantity", "added_by"}

  /** The record `view_books` builds from one row of `SELECT * from books`. */
  function BookRecord(b: Book): Record
  {
    map["barcode" := Int(b.barcode), "name" := Text(b.name), "author" := Text(b.author),
        "price" := Int(b.price), "quantity" := Int(b.quantity), "added_by" := Text(b.addedBy)]
  }

  /** Reads a book record back into a row, when it has the six fields with the right kinds of value. */
  function RecordBook(rec: Record): Option<Book>
  {
    if && "barcode" in rec && rec["barcode"].Int?
       && "name" in rec && rec["name"].Text?
       && "author" in rec && rec["author"].Text?
       && "price" in rec && rec["price"].Int?
       && "quantity" in rec && rec["quantity"].Int?
       && "added_by" in rec && rec["added_by"].Text?
    then Some(Book(rec["barcode"].i, rec["name"].s, rec["author"].s, rec["price"].i, rec["quantity"].i, rec["added_by"].s))
    else None
  }

  /**
   * `view_books`: one record per row, in table order, each with exactly the six keys and reading
   * back as that row. A driver error becomes a 500 "Database error".
   */
  function ViewBooks(books: seq<Book>, fault: Fault): (r: Result<seq<Record>>)
    ensures r.Err? <==> Fails(fault, 0)
    ensures r.Err? ==> r.error == DatabaseError(Raised(fault))
    ensures r.Ok? ==> |r.value| == |books|
    ensures r.Ok? ==> forall i :: 0 <= i < |books| ==> r.value[i].Keys == BookKeys && RecordBook(r.value[i]) == Some(books[i])
  {
    if Fails(fault, 0) then Err(DatabaseError(Raised(fault)))
    else Ok(seq(|books|, i requires 0 <= i < |books| => BookRecord(books[i])))
  }

  // ---------------------------------------------------------------------------
  // add_books
  // ---------------------------------------------------------------------------

  /** The request body of `add_books`. */
  datatype BookInput = BookInput(barcode: Barcode, name: string, author: string, price: int, quantity: int)

  /**
   * `add_books`: one INSERT whose `added_by` is the caller's username whatever the body says; a
   * repeated barcode is refused by the assumed primary key, and every failure is a 500 "Unexpected error".
   */
  method AddBooks(db: Database, caller: Identity, input: BookInput, fault: Fault) returns (r: Result<string>)
    requires db.Valid()
    modifies db
    ensures db.Valid()
    ensures db.users == old(db.users) && db.orders == old(db.orders) && db.cart == old(db.cart)
    ensures r.Ok? <==> !Fails(fault, 0) && BooksWithBarcode(old(db.books), input.barcode) == []
    ensures r.Ok? ==> r.value == "'" + input.name + "' added successfully by " + caller.username
    ensures r.Ok? ==> db.books == old(db.books) + [Book(input.barcode, input.name, input.author, input.price,
                                                         input.quantity, caller.username)]
    ensures r.Err? ==> db.books == old(db.books) && IsUnexpectedError(r.error)
  {
    if Fails(fault, 0) {
      return Err(UnexpectedError(Raised(fault)));
    }
    if BooksWithBarcode(db.books, input.barcode) != [] {
      return Err(UnexpectedError(DuplicateEntry));
    }
    var book := Book(input.barcode, input.name, input.author, input.price, input.quantity, caller.username);
    InsertBookKeepsUnique(db.books, book);
    db.books := db.books + [book];
    r := Ok("'" + input.name + "' added successfully by " + caller.username);
  }

  // ---------------------------------------------------------------------------
  // The older order_book
  // ---------------------------------------------------------------------------

  const MissingInput: Error := HttpException(400, Message("Barcode and quantity must be provided."))
  const NotEnoughBooks: Error := HttpException(400, Message("Not enough books available to fulfill the order."))

  /** Python truthiness of an optional integer from the request body: absent and 0 are both false. */
  predicate Truthy(v: Option<int>)
  {
    v.Some? && v.value != 0
  }

  /**
   * The older `order_book`, statement by statement. The input check comes before any statement;
   * the SELECT (statement 0) and the 404 and 400 sit outside the try, so they keep their status and
   * a driver error there is not caught; only the INSERT (statement 1) and the stock update
   * (statement 2) are wrapped into a 500 "Database error".
   */
  function LegacyPlaceOrder(books: seq<Book>, orders: seq<Order>, caller: Identity, barcode: Option<int>,
                            quantity: Option<int>, tx: TransactionId, orderDate: string, orderId: int,
                            fault: Fault): Placement
  {
    if !Truthy(barcode) || !Truthy(quantity) then Placement(Err(MissingInput), books, orders)
    else if Fails(fault, 0) then Placement(Err(Raised(fault)), books, orders)
    else
      var rows := BooksWithBarcode(books, barcode.value);
      if rows == [] then Placement(Err(BookNotFound), books, orders)
      else if rows[0].quantity < quantity.value then Placement(Err(NotEnoughBooks), books, orders)
      else if Fails(fault, 1) then Placement(Err(DatabaseError(Raised(fault))), books, orders)
      else
        var placed := orders + [PlacedOrder(orderId, caller, rows[0], quantity.value, orderDate, tx)];
        if Fails(fault, 2) then Placement(Err(DatabaseError(Raised(fault))), books, placed)
        else Placement(Ok(tx), AfterSale(books, barcode.value, quantity.value), placed)
  }

  /**
   * The two placement handlers change the tables in exactly the same way and succeed on the same
   * inputs; they differ only in the input check and in how errors surface: the older one answers
   * 400 for a missing or zero field without touching the store, keeps its 404 and 400, and lets a
   * driver error on the SELECT escape uncaught.
   */
  lemma LegacyPlaceOrderSpec(books: seq<Book>, orders: seq<Order>, caller: Identity, barcode: Option<int>,
                             quantity: Option<int>, tx: TransactionId, orderDate: string, orderId: int, fault: Fault)
    ensures var p := LegacyPlaceOrder(books, orders, caller, barcode, quantity, tx, orderDate, orderId, fault);
      && (!Truthy(barcode) || !Truthy(quantity) ==> p == Placement(Err(MissingInput), books, orders))
      && (Truthy(barcode) && Truthy(quantity) ==>
            var q := PlaceOrder(books, orders, caller, barcode.value, quantity.value, tx, orderDate, orderId, fault);
            && p.books == q.books && p.orders == q.orders
            && (p.result.Ok? <==> q.result.Ok?)
            && (p.result.Ok? ==> p.result == q.result)
            && (Fails(fault, 0) ==> p.result == Err(Raised(fault)))
            && (!Fails(fault, 0) && FirstBook(books, barcode.value).None? ==> p.result == Err(BookNotFound))
            && ((!Fails(fault, 0) && FirstBook(books, barcode.value).Some? && !InStock(books, barcode.value, quantity.value))
                ==> p.result == Err(NotEnoughBooks))
            && ((!Fails(fault, 0) && InStock(books, barcode.value, quantity.value) && p.result.Err?)
                ==> IsDatabaseError(p.result.error)))
  {
  }

  /** The older `order_book` on the store: its outcome and new tables are those of `LegacyPlaceOrder`. */
  method OrderBook(db: Database, caller: Identity, barcode: Option<int>, quantity: Option<int>, tx: TransactionId,
                   orderDate: string, orderId: int, fault: Fault) returns (r: Result<TransactionId>)
    requires db.Valid()
    modifies db
    ensures db.Valid()
    ensures db.users == old(db.users) && db.cart == old(db.cart)
    ensures var p := LegacyPlaceOrder(old(db.books), old(db.orders), caller, barcode, quantity, tx, orderDate, orderId, fault);
            r == p.result && db.books == p.books && db.orders == p.orders
  {
    if !Truthy(barcode) || !Truthy(quantity) {
      return Err(MissingInput);
    }
    if Fails(fault, 0) {
      return Err(Raised(fault));
    }
    var rows := BooksWithBarcode(db.books, barcode.value);
    if rows == [] {
      return Err(BookNotFound);
    }
    var book := rows[0];
    if book.quantity < quantity.value {
      return Err(NotEnoughBooks);
    }
    if Fails(fault, 1) {
      return Err(DatabaseError(Raised(fault)));
    }
    db.orders := db.orders + [PlacedOrder(orderId, caller, book, quantity.value, orderDate, tx)];
    if Fails(fault, 2) {
      return Err(DatabaseError(Raised(fault)));
    }
    SaleKeepsUnique(db.books, barcode.value, quantity.value);
    db.books := AfterSale(db.books, barcode.value, quantity.value);
    r := Ok(tx);
  }
}
