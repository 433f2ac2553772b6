/**
 * The database as an in-memory store: the four tables the handlers use, each a sequence of rows
 * in storage order, and the statements the handlers issue, each one operation on a table.
 */
module Tables {
  import opened Outcomes
  import opened Rows

  type UserId = nat
  type Barcode = int
  type TransactionId = string

  /** A row of `users`; `password` holds the stored hash. */
  datatype User = User(id: UserId, username: string, password: string, firstname: string, lastname: string,
                       address: string, phone: string, mailid: string, usertype: string)

  /** A row of `books`. */
  datatype Book = Book(barcode: Barcode, name: string, author: string, price: int, quantity: int, addedBy: string)

  /** A row of `orders`. */
  datatype Order = Order(orderId: int, userId: UserId, barcode: Barcode, orderDate: string,
                         transactionId: TransactionId, totalAmount: int, status: string, quantity: int)

  /** A row of `cart`. */
  datatype CartRow = CartRow(userId: UserId, barcode: Barcode, quantity: int)

  /** The caller, as the auth gate resolves it for every authenticated request. */
  datatype Identity = Identity(id: UserId, username: string, usertype: string)

  predicate IsAdmin(who: Identity)
  {
    who.usertype == "admin"
  }

  /**
   * The driver oracle for one handler call: the position (0, 1, 2, ... in the order the handler issues
   * them) of the statement at which the driver raises, with the error's text, or no failure at all.
   */
  datatype Fault = NoFault | FailAt(step: nat, message: string)

  predicate Fails(f: Fault, step: nat)
  {
    f.FailAt? && f.step == step
  }

  /** The driver's IntegrityError for an INSERT that repeats a key (its text is not modelled). */
  const DuplicateEntry: Error := DriverError("Duplicate entry")

  /** The same oracle seen from statement `k` on, for a handler called by another after `k` statements. */
  function After(f: Fault, k: nat): (g: Fault)
    ensures forall step: nat :: Fails(g, step) <==> Fails(f, step + k)
  {
    if f.FailAt? && f.step >= k then FailAt(f.step - k, f.message) else NoFault
  }

  /** The driver error a failing statement raises. */
  function Raised(f: Fault): Error
  {
    DriverError(if f.FailAt? then f.message else "")
  }

  // ---------------------------------------------------------------------------
  // Statements on `books`
  // ---------------------------------------------------------------------------

  /** `SELECT ... FROM books WHERE barcode = %s` */
  function BooksWithBarcode(books: seq<Book>, b: Barcode): (r: seq<Book>)
    ensures forall i :: 0 <= i < |r| ==> r[i].barcode == b && r[i] in books
  {
    Filter(books, (x: Book) => x.barcode == b)
  }

  /** `UPDATE books SET quantity = %s WHERE barcode = %s` */
  function SetBookQuantity(books: seq<Book>, b: Barcode, n: int): (r: seq<Book>)
    ensures |r| == |books|
    ensures forall i :: 0 <= i < |r| ==> r[i] == if books[i].barcode == b then books[i].(quantity := n) else books[i]
  {
    UpdateWhere(books, (x: Book) => x.barcode == b, (x: Book) => x.(quantity := n))
  }

  /** `DELETE FROM books WHERE barcode = %s` */
  function DeleteBook(books: seq<Book>, b: Barcode): (r: seq<Book>)
    ensures forall x :: x in r <==> x in books && x.barcode != b
  {
    Filter(books, (x: Book) => x.barcode != b)
  }

  /** `SELECT ... FROM books WHERE added_by = %s` */
  function BooksAddedBy(books: seq<Book>, username: string): (r: seq<Book>)
    ensures forall x :: x in r <==> x in books && x.addedBy == username
  {
    Filter(books, (x: Book) => x.addedBy == username)
  }

  /** The assumed primary key of `books`: no two rows share a barcode. */
  ghost predicate UniqueBarcodes(books: seq<Book>)
  {
    forall i, j :: 0 <= i < j < |books| ==> books[i].barcode != books[j].barcode
  }

  /** `INSERT INTO books ...` of a barcode no row has keeps the key constraint. */
  lemma InsertBookKeepsUnique(books: seq<Book>, book: Book)
    requires UniqueBarcodes(books) && BooksWithBarcode(books, book.barcode) == []
    ensures UniqueBarcodes(books + [book])
  {
    forall i | 0 <= i < |books|
      ensures books[i].barcode != book.barcode
    {
      assert books[i] in books;
    }
  }

  // ---------------------------------------------------------------------------
  // Statements on `users`
  // ---------------------------------------------------------------------------

  /** The column a lookup in `users` selects on. */
  datatype UserKey = ById(id: UserId) | ByName(username: string)

  predicate HasKey(u: User, k: UserKey)
  {
    match k
    case ById(id) => u.id == id
    case ByName(username) => u.username == username
  }

  /** `SELECT ... FROM users WHERE id = %s` or `... WHERE username = %s`, rows in table order. */
  function UsersWith(users: seq<User>, k: UserKey): (r: seq<User>)
    ensures forall i :: 0 <= i < |r| ==> HasKey(r[i], k) && r[i] in users
  {
    Filter(users, (u: User) => HasKey(u, k))
  }

  /** The assumed keys of `users`: `id` is the primary key and `username` is unique. */
  ghost predicate UniqueUsers(users: seq<User>)
  {
    forall i, j :: 0 <= i < j < |users| ==> users[i].id != users[j].id && users[i].username != users[j].username
  }

  /** `INSERT INTO users ...` of a fresh id and an unused username keeps both key constraints. */
  lemma InsertUserKeepsUnique(users: seq<User>, user: User)
    requires UniqueUsers(users) && UsersWith(users, ByName(user.username)) == []
    requires forall u :: u in users ==> u.id != user.id
    ensures UniqueUsers(users + [user])
  {
    forall i | 0 <= i < |users|
      ensures users[i].username != user.username && users[i].id != user.id
    {
      assert users[i] in users;
    }
  }

  // ---------------------------------------------------------------------------
  // Statements on `orders`
  // ---------------------------------------------------------------------------

  /** `SELECT * FROM orders WHERE user_id = %s` */
  function OrdersOfUser(orders: seq<Order>, uid: UserId): (r: seq<Order>)
    ensures forall x :: x in r <==> x in orders && x.userId == uid
    ensures forall x :: multiset(r)[x] == if x.userId == uid then multiset(orders)[x] else 0
  {
    var mine := (o: Order) => o.userId == uid;
    FilterCounts(orders, mine);
    Filter(orders, mine)
  }

  /** `SELECT status FROM orders WHERE transaction_id = %s AND user_id = %s` */
  function OrdersWithTransaction(orders: seq<Order>, tx: TransactionId, uid: UserId): (r: seq<Order>)
    ensures forall i :: 0 <= i < |r| ==> r[i].transactionId == tx && r[i].userId == uid && r[i] in orders
  {
    Filter(orders, (o: Order) => o.transactionId == tx && o.userId == uid)
  }

  /** `UPDATE orders SET status = %s WHERE transaction_id = %s` */
  function SetOrderStatus(orders: seq<Order>, tx: TransactionId, status: string): (r: seq<Order>)
    ensures |r| == |orders|
    ensures forall i :: 0 <= i < |r| ==> r[i] == if orders[i].transactionId == tx then orders[i].(status := status) else orders[i]
  {
    UpdateWhere(orders, (o: Order) => o.transactionId == tx, (o: Order) => o.(status := status))
  }

  // ---------------------------------------------------------------------------
  // Statements on `cart`
  // ---------------------------------------------------------------------------

  /** The condition `user_id = uid AND barcode = b` of the cart statements. */
  function CartItemOf(uid: UserId, b: Barcode): CartRow -> bool
  {
    (x: CartRow) => x.userId == uid && x.barcode == b
  }

  /** Its negation, the rows a DELETE keeps. */
  function NotCartItemOf(uid: UserId, b: Barcode): CartRow -> bool
  {
    (x: CartRow) => !(x.userId == uid && x.barcode == b)
  }

  /** `SELECT ... FROM cart WHERE user_id = %s AND barcode = %s` */
  function CartRowsOf(cart: seq<CartRow>, uid: UserId, b: Barcode): (r: seq<CartRow>)
    ensures r == [] <==> forall x :: x in cart ==> !(x.userId == uid && x.barcode == b)
  {
    var rows := Filter(cart, CartItemOf(uid, b));
    assert rows != [] ==> rows[0] in rows;
    rows
  }

  /** `UPDATE cart SET quantity = %s WHERE user_id = %s AND barcode = %s` */
  function SetCartQuantity(cart: seq<CartRow>, uid: UserId, b: Barcode, q: int): (r: seq<CartRow>)
    ensures |r| == |cart|
    ensures forall i :: 0 <= i < |r| ==>
              r[i] == if cart[i].userId == uid && cart[i].barcode == b then cart[i].(quantity := q) else cart[i]
  {
    UpdateWhere(cart, CartItemOf(uid, b), (x: CartRow) => x.(quantity := q))
  }

  /** `DELETE FROM cart WHERE user_id = %s AND barcode = %s` */
  function DeleteCartRows(cart: seq<CartRow>, uid: UserId, b: Barcode): (r: seq<CartRow>)
    ensures forall x :: multiset(r)[x] == if x.userId == uid && x.barcode == b then 0 else multiset(cart)[x]
  {
    FilterCounts(cart, NotCartItemOf(uid, b));
    Filter(cart, NotCartItemOf(uid, b))
  }

  /**
   * The cart UPDATE reaches only the (uid, b) rows: afterwards they all hold the new quantity, and
   * what any other (user, barcode) pair selects is exactly what it selected before.
   */
  lemma SetCartQuantityScope(cart: seq<CartRow>, uid: UserId, b: Barcode, q: int)
    ensures forall x :: x in CartRowsOf(SetCartQuantity(cart, uid, b, q), uid, b) ==> x.quantity == q
    ensures forall u: UserId, c: Barcode :: (u, c) != (uid, b) ==>
              CartRowsOf(SetCartQuantity(cart, uid, b, q), u, c) == CartRowsOf(cart, u, c)
  {
    var after := SetCartQuantity(cart, uid, b, q);
    forall x | x in CartRowsOf(after, uid, b)
      ensures x.quantity == q
    {
      var k :| 0 <= k < |after| && after[k] == x;
    }
    forall u: UserId, c: Barcode | (u, c) != (uid, b)
      ensures CartRowsOf(after, u, c) == CartRowsOf(cart, u, c)
    {
      FilterUpdateDisjoint(cart, CartItemOf(u, c), CartItemOf(uid, b), (x: CartRow) => x.(quantity := q));
    }
  }

  /**
   * The cart DELETE removes every (uid, b) row and nothing that any other (user, barcode) pair
   * selects.
   */
  lemma DeleteCartRowsScope(cart: seq<CartRow>, uid: UserId, b: Barcode)
    ensures CartRowsOf(DeleteCartRows(cart, uid, b), uid, b) == []
    ensures forall u: UserId, c: Barcode :: (u, c) != (uid, b) ==>
              CartRowsOf(DeleteCartRows(cart, uid, b), u, c) == CartRowsOf(cart, u, c)
  {
    forall u: UserId, c: Barcode | (u, c) != (uid, b)
      ensures CartRowsOf(DeleteCartRows(cart, uid, b), u, c) == CartRowsOf(cart, u, c)
    {
      FilterNarrower(cart, NotCartItemOf(uid, b), CartItemOf(u, c));
    }
  }

  // ---------------------------------------------------------------------------
  // The store
  // ---------------------------------------------------------------------------

  /** The four tables; every handler changes them one statement at a time. */
  class Database {
    var users: seq<User>
    var books: seq<Book>
    var orders: seq<Order>
    var cart: seq<CartRow>

    /** The keys the model assumes: unique barcodes, unique user ids and unique usernames. */
    ghost predicate Valid()
      reads this
    {
      UniqueBarcodes(books) && UniqueUsers(users)
    }

    constructor ()
      ensures Valid()
      ensures users == [] && books == [] && orders == [] && cart == []
    {
      users, books, orders, cart := [], [], [], [];
    }
  }
}
