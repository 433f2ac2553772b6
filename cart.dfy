/**
 * The cart handlers of app/cart/cartcontroller.py over the `cart` table, a sequence of
 * (user id, barcode, quantity) rows with no key, and the cart view joined with `books`.
 */
module Cart {
  import opened Outcomes
  import opened Rows
  import opened Tables

  /** The request body of the cart handlers. */
  datatype CartItem = CartItem(barcode: Barcode, quantity: int)

  /** One row of the view's join: `c.barcode, c.quantity, b.name AS title, b.price`. */
  datatype JoinedRow = JoinedRow(barcode: Barcode, quantity: int, title: string, price: int)

  /** One item of the cart view. */
  datatype CartLine = CartLine(barcode: Barcode, title: string, quantity: int, price: int, totalPrice: int)

  const ItemNotFound: Error := HttpException(404, Message("Item not found in the cart."))

  /** The driver's refusal to bind the query-parameter object the admin branch passes as the user id (its text is not modelled). */
  const UnbindableParameter: Error := DriverError("Python type cannot be converted")

  // ---------------------------------------------------------------------------
  // view_cart
  // ---------------------------------------------------------------------------

  /** The join rows of one cart row: one per book with its barcode. */
  function Matches(c: CartRow, books: seq<Book>): (r: seq<JoinedRow>)
    ensures forall j :: j in r <==> exists b :: b in books && b.barcode == c.barcode &&
                                                j == JoinedRow(c.barcode, c.quantity, b.name, b.price)
  {
    var bs := BooksWithBarcode(books, c.barcode);
    var r := seq(|bs|, i requires 0 <= i < |bs| => JoinedRow(c.barcode, c.quantity, bs[i].name, bs[i].price));
    assert forall b :: b in books && b.barcode == c.barcode ==> b in bs;
    assert forall b :: b in bs ==> JoinedRow(c.barcode, c.quantity, b.name, b.price) in r by {
      forall b | b in bs
        ensures JoinedRow(c.barcode, c.quantity, b.name, b.price) in r
      {
        var k :| 0 <= k < |bs| && bs[k] == b;
        assert r[k] == JoinedRow(c.barcode, c.quantity, b.name, b.price);
      }
    }
    r
  }

  /** `FROM cart c JOIN books b ON c.barcode = b.barcode WHERE c.user_id = %s`, cart rows in table order. */
  function CartJoin(cart: seq<CartRow>, books: seq<Book>, uid: UserId): seq<JoinedRow>
  {
    if cart == [] then []
    else (if cart[0].userId == uid then Matches(cart[0], books) else []) + CartJoin(cart[1..], books, uid)
  }

  /**
   * A row is in the join exactly when the user has a cart row for a barcode that some book has, and
   * the row carries that cart row's quantity and that book's title and price. A cart row whose book
   * has been deleted (sold out) therefore does not show.
   */
  lemma {:induction false} CartJoinRows(cart: seq<CartRow>, books: seq<Book>, uid: UserId)
    ensures forall j :: j in CartJoin(cart, books, uid) <==>
              exists c, b :: c in cart && b in books && c.userId == uid && b.barcode == c.barcode &&
                             j == JoinedRow(c.barcode, c.quantity, b.name, b.price)
  {
    if cart != [] {
      CartJoinRows(cart[1..], books, uid);
      var head := if cart[0].userId == uid then Matches(cart[0], books) else [];
      assert CartJoin(cart, books, uid) == head + CartJoin(cart[1..], books, uid);
      assert cart == [cart[0]] + cart[1..];
    }
  }

  /** One item of the view: the join row with `total_price = price * quantity`. */
  function Line(j: JoinedRow): CartLine
  {
    CartLine(j.barcode, j.title, j.quantity, j.price, j.price * j.quantity)
  }

  /** The items of the view, one per join row, in order. */
  function Lines(rows: seq<JoinedRow>): (r: seq<CartLine>)
    ensures |r| == |rows|
    ensures forall i :: 0 <= i < |rows| ==> r[i] == Line(rows[i])
  {
    seq(|rows|, i requires 0 <= i < |rows| => Line(rows[i]))
  }

  /**
   * `view_cart`: for a non-admin, one item per join row, in the join's order. The admin branch binds
   * a query parameter object instead of an id, which the driver refuses once it has a connection and
   * a cursor; that and every driver error become a 500 "Database error".
   */
  function CartView(cart: seq<CartRow>, books: seq<Book>, caller: Identity, fault: Fault): (r: Result<seq<CartLine>>)
    ensures Fails(fault, 0) ==> r == Err(DatabaseError(Raised(fault)))
    ensures IsAdmin(caller) && !Fails(fault, 0) ==> r == Err(DatabaseError(UnbindableParameter))
    ensures r.Err? <==> IsAdmin(caller) || Fails(fault, 0)
    ensures r.Err? ==> IsDatabaseError(r.error)
    ensures r.Ok? ==> |r.value| == |CartJoin(cart, books, caller.id)|
    ensures r.Ok? ==> forall i :: 0 <= i < |r.value| ==> r.value[i] == Line(CartJoin(cart, books, caller.id)[i])
    ensures r.Ok? ==> forall l :: l in r.value ==>
              && l.totalPrice == l.price * l.quantity
              && (exists c :: c in cart && c.userId == caller.id && c.barcode == l.barcode && c.quantity == l.quantity)
              && (exists b :: b in books && b.barcode == l.barcode && b.name == l.title && b.price == l.price)
  {
    if Fails(fault, 0) then Err(DatabaseError(Raised(fault)))
    else if IsAdmin(caller) then Err(DatabaseError(UnbindableParameter))
    else
      var rows := CartJoin(cart, books, caller.id);
      CartJoinRows(cart, books, caller.id);
      var lines := Lines(rows);
      assert forall l :: l in lines ==> exists i :: 0 <= i < |rows| && l == Line(rows[i]);
      assert forall i :: 0 <= i < |rows| ==> rows[i] in rows;
      Ok(lines)
  }

  /** `view_cart` on the store: the item loop builds exactly the lines of `CartView`. */
  method ViewCart(db: Database, caller: Identity, fault: Fault) returns (r: Result<seq<CartLine>>)
    ensures r == CartView(db.cart, db.books, caller, fault)
  {
    if Fails(fault, 0) {
      return Err(DatabaseError(Raised(fault)));
    }
    if IsAdmin(caller) {
      return Err(DatabaseError(UnbindableParameter));
    }
    var rows := CartJoin(db.cart, db.books, caller.id);
    var items: seq<CartLine> := [];
    var i := 0;
    while i < |rows|
      invariant 0 <= i <= |rows|
      invariant |items| == i
      invariant forall k :: 0 <= k < i ==> items[k] == Line(rows[k])
    {
      var row := rows[i];
      var total := row.price * row.quantity;
      items := items + [CartLine(row.barcode, row.title, row.quantity, row.price, total)];
      i := i + 1;
    }
    assert items == Lines(rows);
    r := Ok(items);
  }

  // ---------------------------------------------------------------------------
  // add_to_cart, modify_cart, delete_cart_item
  // ---------------------------------------------------------------------------

  /** `add_to_cart`: one INSERT of the caller's row, with no duplicate and no quantity check. */
  method AddToCart(db: Database, caller: Identity, item: CartItem, fault: Fault) returns (r: Result<string>)
    requires db.Valid()
    modifies db
    ensures db.Valid()
    ensures db.users == old(db.users) && db.books == old(db.books) && db.orders == old(db.orders)
    ensures !Fails(fault, 0) ==> r == Ok("Item added to cart successfully.") &&
                                 db.cart == old(db.cart) + [CartRow(caller.id, item.barcode, item.quantity)]
    ensures Fails(fault, 0) ==> r == Err(DatabaseError(Raised(fault))) && db.cart == old(db.cart)
  {
    if Fails(fault, 0) {
      return Err(DatabaseError(Raised(fault)));
    }
    db.cart := db.cart + [CartRow(caller.id, item.barcode, item.quantity)];
    r := Ok("Item added to cart successfully.");
  }

  /** What `modify_cart` makes of the nested `view_cart`: its HTTPException is caught as an unexpected error. */
  function Rewrapped(v: Result<seq<CartLine>>): Result<seq<CartLine>>
  {
    if v.Ok? then v else Err(UnexpectedError(v.error))
  }

  /**
   * `modify_cart`: check the caller's row (statement 0), update its quantity (statement 1), then
   * answer with the caller's view (its statement is this handler's statement 2). A missing row gives
   * a 404 that the generic handler turns into a 500 "Unexpected error".
   */
  method ModifyCart(db: Database, caller: Identity, item: CartItem, fault: Fault) returns (r: Result<seq<CartLine>>)
    requires db.Valid()
    modifies db
    ensures db.Valid()
    ensures db.users == old(db.users) && db.books == old(db.books) && db.orders == old(db.orders)
    ensures Fails(fault, 0) ==> r == Err(DatabaseError(Raised(fault))) && db.cart == old(db.cart)
    ensures !Fails(fault, 0) && CartRowsOf(old(db.cart), caller.id, item.barcode) == [] ==>
              r == Err(UnexpectedError(ItemNotFound)) && db.cart == old(db.cart)
    ensures !Fails(fault, 0) && CartRowsOf(old(db.cart), caller.id, item.barcode) != [] && Fails(fault, 1) ==>
              r == Err(DatabaseError(Raised(fault))) && db.cart == old(db.cart)
    ensures !Fails(fault, 0) && CartRowsOf(old(db.cart), caller.id, item.barcode) != [] && !Fails(fault, 1) ==>
              && db.cart == SetCartQuantity(old(db.cart), caller.id, item.barcode, item.quantity)
              && r == Rewrapped(CartView(db.cart, db.books, caller, After(fault, 2)))
  {
    if Fails(fault, 0) {
      return Err(DatabaseError(Raised(fault)));
    }
    if CartRowsOf(db.cart, caller.id, item.barcode) == [] {
      return Err(UnexpectedError(ItemNotFound));
    }
    if Fails(fault, 1) {
      return Err(DatabaseError(Raised(fault)));
    }
    db.cart := SetCartQuantity(db.cart, caller.id, item.barcode, item.quantity);
    var view := ViewCart(db, caller, After(fault, 2));
    r := Rewrapped(view);
  }

  /**
   * `delete_cart_item`: check the caller's row (statement 0), then delete the caller's rows for
   * that barcode (statement 1). A missing row gives a 404 turned into a 500 "Unexpected error".
   */
  method DeleteCartItem(db: Database, caller: Identity, item: CartItem, fault: Fault) returns (r: Result<string>)
    requires db.Valid()
    modifies db
    ensures db.Valid()
    ensures db.users == old(db.users) && db.books == old(db.books) && db.orders == old(db.orders)
    ensures r.Ok? <==> !Fails(fault, 0) && CartRowsOf(old(db.cart), caller.id, item.barcode) != [] && !Fails(fault, 1)
    ensures r.Ok? ==> r.value == "Item deleted successfully from the cart." &&
                      db.cart == DeleteCartRows(old(db.cart), caller.id, item.barcode)
    ensures r.Err? ==> db.cart == old(db.cart)
    ensures !Fails(fault, 0) && CartRowsOf(old(db.cart), caller.id, item.barcode) == [] ==>
              r == Err(UnexpectedError(ItemNotFound))
    ensures Fails(fault, 0) || (CartRowsOf(old(db.cart), caller.id, item.barcode) != [] && Fails(fault, 1)) ==>
              r == Err(DatabaseError(Raised(fault)))
  {
    if Fails(fault, 0) {
      return Err(DatabaseError(Raised(fault)));
    }
    if CartRowsOf(db.cart, caller.id, item.barcode) == [] {
      return Err(UnexpectedError(ItemNotFound));
    }
    if Fails(fault, 1) {
      return Err(DatabaseError(Raised(fault)));
    }
    db.cart := DeleteCartRows(db.cart, caller.id, item.barcode);
    r := Ok("Item deleted successfully from the cart.");
  }
}
