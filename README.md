# Book-Store backend: a Dafny model

This project models the request handlers of a small FastAPI bookstore backend over a MySQL database.
It covers the query executor and its pool start-up, the search endpoint, order placement and the
order lifecycle, the book and cart handlers, the auth gate with its token blacklist, and the user
registration, profile and details endpoints.

The database is an in-memory store, `Tables.Database`, with four tables: `users`, `books`, `orders`
and `cart`. Each table is a sequence of rows in storage order. Every SQL statement a handler issues
is one operation on a table: a filter for a `SELECT ... WHERE`, an element-wise update for an
`UPDATE`, a filter for a `DELETE`, an append for an `INSERT`. The repository ships no schema, so the
keys are assumed: unique barcodes in `books`, unique ids and unique usernames in `users`. They are
the class invariant `Database.Valid`. A duplicate insert of an assumed key is refused by the driver.
`orders` and `cart` are assumed to have no key that a handler could violate.

The driver is an oracle. `Tables.Fault` names the statement of a handler call (0, 1, 2, ... in the
order the handler issues them) at which the driver raises, if it raises at all. Each handler's
contract states which exception then leaves it: a `Database error` wrap, an `Unexpected error` wrap,
or an uncaught driver error. Identifiers the source draws from `uuid4` and `datetime.now()` are
parameters, and so is the auto-increment id of a new user. Password hashing and JWT signing and
decoding are function parameters.

Module by file:

- `common.dfy`: `Outcomes` (results, errors, records); `Decimal` (the decimal text of a user id and
  its parse); `Rows` (filter and update over row sequences).
- `executor.dfy`: `Executor` (statement classification, result shaping, the connection pool, pool
  start-up).
- `tables.dfy`: `Tables` (rows, statements, the store).
- `orders.dfy`: `Orders`.
- `books.dfy`: `Books`.
- `cart.dfy`: `Cart`.
- `auth.dfy`: `Auth`.
- `users.dfy`: `Users`.
- `search.dfy`: `Search`.

Some error paths of the handlers end differently from what their messages suggest; the model
keeps what the code does:

- A token that does not decode raises a `ValueError` that no handler catches, so the client gets a
  500 (`Auth.InvalidToken`).
- A repeated username at registration is a driver error (a duplicate key) wrapped as a 500
  "Database error".
- The newer `order_book` catches its own 404 and 400 in its generic handler and turns them into a 500.

## Model

| member | source | states |
|---|---|---|
| Executor.CaseInsensitive | app/database/db_connect.py:59 | Two statements equal up to case are classified alike. |
| Executor.LeadingWhitespace | app/database/db_connect.py:59 | Leading whitespace does not change whether a statement is mutating. |
| Executor.ClassifiedByLeadingWord | app/database/db_connect.py:59 | After stripping and upper-casing, a statement begins with its upper-cased leading word, which is what the classification tests. |
| Executor.KeywordFirst | app/database/db_connect.py:59 | A statement whose first word is INSERT, UPDATE or DELETE, after any whitespace and with any text after it, is mutating. |
| Executor.OtherWordIsReading | app/database/db_connect.py:59 | A statement whose first word, upper-cased, does not begin with I, U or D is not mutating. |
| Executor.SelectIsReading | app/database/db_connect.py:59-72 | A statement that begins with SELECT is never mutating. |
| Executor.ColumnNames | app/database/db_connect.py:40-44 | The column names are the first field of each description entry, in order; an empty description gives none. |
| Executor.ConnectionPool.ExecuteQuery | app/database/db_connect.py:46-82 | Cursor and connection are released on every path. The call fails exactly when the pool is exhausted or the driver raises at a stage the statement reaches, and the driver's error is re-raised. A mutating statement commits once and returns the success marker. A reading one returns all rows with the column names, or `None` without a result set, and never commits. If the driver returns rows as wide as its description, every returned row has one value per column name. |
| Executor.CreateConnectionPool | app/database/db_connect.py:14-35 | Makes at most 5 attempts and returns on the first success, after exactly the failed attempts before it. After 5 failures it raises the fatal error. The waits slept are the backoff schedule up to that point. |
| Executor.FullSchedule | app/database/db_connect.py:15-35 | When every attempt fails, the waits are 2, 4, 8, 16, 16 seconds: 46 seconds in all, including the wait after the last failure. |
| Executor.BackoffCapped | app/database/db_connect.py:32 | The wait `min(16, 2 ** attempt)` never decreases with the attempt number and never exceeds 16. |
| Decimal.ParseIdText | app/auth/auth_routes.py:22-39 | Reading back the decimal text `str(id)` of a user id gives the id. |
| Decimal.IdTextInjective | app/auth/auth_routes.py:22 | Different user ids get different token subjects. |
| Tables.InsertBookKeepsUnique | app/books/bookscontroller.py:51-66 | Inserting a book whose barcode no row has keeps barcodes unique. |
| Tables.InsertUserKeepsUnique | app/users/user_routes.py:13-21 | Inserting a user with a fresh id and an unused username keeps both keys unique. |
| Tables.CartRowsOf | app/cart/cartcontroller.py:39-45 | The existence check finds nothing exactly when the cart has no row for that user and barcode. |
| Tables.DeleteCartRows | app/cart/cartcontroller.py:88-93 | The DELETE removes every copy of the (user, barcode) rows and keeps every other row with its multiplicity. |
| Tables.SetCartQuantityScope | app/cart/cartcontroller.py:51-57 | After the cart UPDATE, the selected rows hold the new quantity, and what every other (user, barcode) pair selects is unchanged. |
| Tables.DeleteCartRowsScope | app/cart/cartcontroller.py:88-93 | After the cart DELETE, the (user, barcode) pair selects nothing, and what every other pair selects is unchanged. |
| Tables.After | app/cart/cartcontroller.py:60 | A nested handler call sees the caller's driver oracle shifted by the statements already issued. |
| Tables.OrdersOfUser | app/orders/ordermanagement.py:86-97 | The user's order query returns each of the user's orders as many times as the table holds it, and no other order. |
| Orders.FirstBook | app/orders/ordermanagement.py:21-29 | The stock check reads a row of the table that has the requested barcode, and finds none exactly when no book has that barcode (the 404 case). |
| Orders.SetQuantityKeepsUnique | app/orders/ordermanagement.py:49-54 | The stock UPDATE keeps barcodes unique. |
| Orders.SetQuantityKeepsOthers | app/orders/ordermanagement.py:49-54 | After the stock UPDATE, the book holds the new quantity and every book with another barcode is still there. |
| Orders.DeleteBookKeepsOthers | app/orders/ordermanagement.py:55-56 | The DELETE at zero stock removes the book, keeps every other book, and keeps barcodes unique. |
| Orders.SaleKeepsUnique | app/orders/ordermanagement.py:49-56 | Whichever branch the sale takes, barcodes stay unique. |
| Orders.SaleUpdatesStock | app/orders/ordermanagement.py:49-56 | After a sale, the book's stock is exactly the old stock minus the ordered quantity. If that is not positive, the book is gone. Other books are untouched. |
| Orders.PlaceOrderSpec | app/orders/ordermanagement.py:20-61 | A placement succeeds exactly when the book is in stock and no statement fails. It then returns the transaction id, appends one "Order Placed" row with total = price × quantity, and lowers the stock by the quantity. A missing book or short stock inserts nothing and changes no stock. Every failure, the handler's own 404 and 400 included, is a 500 "Database error". Other books are never touched. |
| Orders.OrderBook | app/orders/ordermanagement.py:12-61 | The handler's statements leave exactly the outcome and the tables of `PlaceOrder`, and keep the key constraints. |
| Orders.ViewOrders | app/orders/ordermanagement.py:64-120 | A non-admin sees exactly their own orders, whatever the filter, each as many times as the table holds it. An admin with a username sees exactly that user's orders, with the same multiplicities, or a wrapped 404 for an unknown user. An admin without one sees every order. Every failure is a 500 "Database error". |
| Orders.SettledOrderNotCancellable | app/orders/ordermanagement.py:131-141 | Once a transaction's status is set to anything other than "Order Placed", the cancel check refuses it. |
| Orders.CancelOrder | app/orders/ordermanagement.py:122-146 | Succeeds exactly when the caller owns an order with that transaction id in status "Order Placed" and no statement fails. It then sets "Order Canceled", so a second cancel fails. Books are untouched. A missing order gives a wrapped 404 and a settled one a wrapped 400. |
| Orders.UpdateOrderStatus | app/orders/ordermanagement.py:148-173 | A status outside "In Transit"/"Order Delivered" gets 400 before the role check, and a non-admin gets 403. Otherwise the status is set on every order of that transaction id, whatever its current status. |
| Books.ViewBooks | app/books/bookscontroller.py:12-44 | One record per row, in order. Each record has exactly the six keys and reads back as its row. A driver error becomes a 500 "Database error". |
| Books.AddBooks | app/books/bookscontroller.py:46-73 | Appends the book with the caller's username as `added_by`. A repeated barcode or any failure leaves the books unchanged and is a 500 "Unexpected error". |
| Books.LegacyPlaceOrderSpec | app/books/bookscontroller.py:75-132 | A missing or zero barcode or quantity gives 400 before any statement. Otherwise the older handler changes the tables exactly as the newer one and succeeds on the same inputs. It keeps its 404 and its 400 for short stock, lets a driver error on the SELECT escape, and wraps insert and update failures as a 500 "Database error". |
| Books.OrderBook | app/books/bookscontroller.py:75-132 | The older handler's statements leave exactly the outcome and the tables of `LegacyPlaceOrder`, and keep the key constraints. |
| Cart.Matches | app/cart/cartcontroller.py:116-122 | A cart row joins with exactly the books of its barcode, taking their title and price. |
| Cart.CartJoinRows | app/cart/cartcontroller.py:116-122 | A row is in the cart join exactly when the caller has a cart row for a barcode that a book has. A cart row whose book is gone does not show. |
| Cart.CartView | app/cart/cartcontroller.py:102-147 | A non-admin gets one line per join row, in the join's order: line i is join row i with total_price = price × quantity, backed by their own cart row and an existing book. A driver fault at the statement comes first; otherwise the admin branch is refused by the driver. Errors are a 500 "Database error". |
| Cart.ViewCart | app/cart/cartcontroller.py:102-147 | The item loop builds exactly the lines of `CartView`. |
| Cart.AddToCart | app/cart/cartcontroller.py:10-27 | Appends the caller's row with the given barcode and quantity, with no duplicate or quantity check. A driver error changes nothing. |
| Cart.ModifyCart | app/cart/cartcontroller.py:29-65 | A missing (caller, barcode) row changes nothing and gives a 404 that surfaces as a 500 "Unexpected error". Otherwise only that pair's quantity changes, and the answer is the caller's cart view. |
| Cart.DeleteCartItem | app/cart/cartcontroller.py:67-100 | A missing row changes nothing and gives a 500 "Unexpected error". Otherwise only the caller's rows for that barcode are removed. |
| Auth.Login | app/auth/auth_routes.py:13-23 | An unknown username and a wrong password both give the same 401 "Invalid credentials". Under unique usernames, login succeeds exactly when the user exists and the password verifies. The token is issued for the subject `str(id)`. |
| Auth.AuthGate.Logout | app/auth/auth_routes.py:25-28 | Adds the token to the blacklist unconditionally, so repeating it changes nothing and nothing is ever removed. Always reports success. |
| Auth.AuthGate.CurrentUser | app/auth/auth_routes.py:30-47 | A blacklisted token is refused with 401 before decoding. Otherwise the identity is id, username and usertype of a row whose id is the token's subject. No row gives 404 and a driver error gives 500 "Database error". |
| Auth.LoginThenResolve | app/auth/auth_routes.py:13-44 | A token from a successful login that has not been revoked resolves to the user who logged in. |
| Users.Register | app/users/user_routes.py:10-24 | Appends the new user with the hash of the password, never the plaintext. A repeated username or any failure changes nothing and is a 500 "Database error". |
| Users.ProfileOrdersVisible | app/users/user_routes.py:36-58 | Every profile row is an order joined with a book of its barcode. A non-admin's rows are their own orders with no buyer. An admin's rows carry the buyer's username. |
| Users.AdminLinesComplete | app/users/user_routes.py:36-44 | In the admin join, every book of the barcode paired with every user of the id gives a row. |
| Users.OrderLinesComplete | app/users/user_routes.py:36-58 | Every joined row of one order (a book of its barcode, and for an admin a buyer of its user id) is among the rows that order contributes. |
| Users.ProfileOrdersComplete | app/users/user_routes.py:36-58 | Every order the caller may see (all for an admin, their own otherwise) that joins with a book, and for an admin with a buyer, is a profile row. With `ProfileOrdersVisible` this characterizes the profile rows exactly. |
| Users.OwnOrderShows | app/users/user_routes.py:47-58 | A non-admin's own order whose book row exists shows in their profile, with that book's name. |
| Users.SoldOutOrderLeavesProfile | app/users/user_routes.py:36-58 | An order whose book row is gone, for example sold out, appears in no profile, the admin's included. |
| Users.OrderRecord | app/users/user_routes.py:70-82 | A profile record has the seven order keys, plus `ordered_by` exactly when the row carries a buyer. |
| Users.BookSummary | app/users/user_routes.py:85-94 | An added-book record has exactly barcode, name, author, price and quantity. |
| Users.UserRecord | app/users/user_routes.py:122-131 | A user record has exactly username, firstname, lastname, address, phone, mailid and usertype, and never the password. |
| Users.UserRecords | app/users/user_routes.py:122-133 | One record per user row: record i is the record of user i, so it has the seven user keys, that user's values, and no password. |
| Users.OrderRecords | app/users/user_routes.py:70-83 | One record per profile row, record i built from row i. |
| Users.BookSummaries | app/users/user_routes.py:85-95 | One summary per added book, summary i built from book i. |
| Users.GetProfile | app/users/user_routes.py:26-109 | Order record i is the record of profile row i, with `ordered_by` exactly for an admin, and every visible joined order has its record there. Added-book record i is the summary of the i-th book whose `added_by` is the caller's username, whatever the role. Empty lists are replaced by "No orders found." and "No books added.". Every failure is a 500 "Database error". |
| Users.UserDetails | app/users/user_routes.py:111-169 | An admin gets record i built from user i, for every user. Anyone else gets the record of a user with their own username, or a 404 re-raised unchanged. No record has a password. A driver error is a 500 "Database error". |
| Search.SplitKeyword | app/search/searchcontroller.py:52-56 | A keyword splits at its first ':' into a field with no ':' and a value that may hold more. A keyword with no ':' does not split. |
| Search.WhereOf | app/search/searchcontroller.py:49-58 | Succeeds exactly when every keyword has a ':'. Each keyword then gives, in order, one clause `field LIKE %s` and one parameter `%value%`. Otherwise the first keyword without a ':' gives its 400. |
| Search.BuildWhere | app/search/searchcontroller.py:46-58 | The keyword loop builds exactly the clauses and parameters of `WhereOf`. |
| Search.SearchStatement | app/search/searchcontroller.py:35-70 | The table check comes first and gives 403. A bad keyword gives its 400, and an `order_by` outside the table's whitelist gives 400. The statement is `SELECT * FROM <table>`, then ` WHERE ` and the clauses joined by ` AND ` only when there are keywords, then ` ORDER BY <field> <ASC/DESC>` only when `order_by` is given. |
| Search.PrepareStatement | app/search/searchcontroller.py:35-70 | The handler's checks and keyword loop build exactly the outcome of `SearchStatement`. |
| Search.UsersTableIsAdminOnly | app/search/searchcontroller.py:10-42 | A non-admin asking for the `users` table gets 403, whatever else the request holds. |
| Search.PlaceholdersMatchParams | app/search/searchcontroller.py:56-73 | The statement has one `%s` per parameter, plus those written into the keyword fields, which are copied into the text verbatim. So the placeholders match the parameters exactly when no field contains `%s`. |
| Search.ZipRecordKeys | app/search/searchcontroller.py:80 | A row's record has a key for each column that is paired with a value, and no other key. |
| Search.ZipRecordAt | app/search/searchcontroller.py:80 | The column at a given position, if no later paired column repeats it, carries the value at that position. |
| Search.ZipRecordPairs | app/search/searchcontroller.py:80 | Every column that no later paired column repeats carries the value at its own position. |
| Search.HidePasswords | app/search/searchcontroller.py:83-85 | Afterwards no record has a `password` key, and every other key keeps its value. |
| Search.ShapeRows | app/search/searchcontroller.py:76-91 | One record per fetched row, paired by column position, without `password` for `users`. No rows give "No matching records found.". |
| Search.Search | app/search/searchcontroller.py:20-99 | A 403 or 400 leaves unchanged. A driver error is a 500 "Database error", and a `None` result or any other exception a 500 "Unexpected error". The results are the shaped rows, and a `users` search never returns a password. |

## Left out

- The result shape of `execute_query` as the handlers use it. `execute_query` returns a dict, but `login`, `get_current_user`, `view_books`, the older `order_book`, `get_profile` and `user_details` index or iterate that dict as if it were the row list (app/auth/auth_routes.py:18,41-44; app/books/bookscontroller.py:19-32,93-96; app/users/user_routes.py:70-94,122-156). Every lookup here returns the rows, so those handlers behave as their authors meant and not as the code would run.
- JWT signing, decoding and expiry (15 minutes, since login passes no `expires_delta`; the 240-minute constant is unused). Tokens are opaque; `issue` and `verify` are parameters.
- Password hashing and verification: `hash` and `verifyPassword` are parameters.
- The MySQL driver, `time.sleep`, logging and environment loading: the driver is an oracle, and a sleep is recorded as a wait.
- Concurrency, including the oversell race between the stock check and the decrement in both `order_book` handlers: requests are modelled one after another.
- `uuid4`, `datetime.now()` and `strftime`, and the auto-increment ids: they are parameters.
- Float and Decimal prices and the `float()` conversions in the profile: prices and totals are integers.
- Key order of response dicts, and the HTTP response envelopes (`message`, `access_token`, `token_type`): records are maps, and a handler's result is its payload.
- Database/db_connect.py and Database/db-connect.py (superseded revisions), main.py, api/CustomerLogin.py, app/books/view_books.py and the pydantic schemas are not part of this model.
- Auth.AuthGate.CurrentUser: the subject is matched as decimal text. MySQL's coercion of other strings to integers (such as "12abc" to 12) is not modelled.
- Executor.IsMutating: `upper()` is modelled one character at a time; characters whose upper case is several characters (U+1E97, say) are kept as they are. A statement that begins with one is not valid SQL, so the driver rejects it before its classification matters.
- Cart.AddToCart: the cart is modelled without a composite (user id, barcode) key, since the repository ships no schema. A repeated add therefore appends a second row for the same book rather than failing, and `DeleteCartRows` removes every such row.
- Books.AddBooks: the request model is not modelled. app/books/bookscontroller.py:4 imports `Book` from app/schemas/user_schemas.py, which defines no such class, so the module as shipped would not load. `Books.BookInput` takes the fields the handler reads. Barcodes are integers (`Tables.Barcode`) throughout; the handlers only compare them for equality, and any conversion by the driver or the column type is not modelled.
- Cart.CartView: the admin branch, which binds a query-parameter object as the user id, is modelled only as the driver refusing it, after any connection fault. The text of that driver error is not modelled.
- Tables.Raised: the text of a driver error is the oracle's; the texts of the duplicate-key and unbindable-parameter errors are placeholders.
- Search.Search: `sort_order` is the validated `asc`/`desc`, and a value the query validation rejects never reaches the handler. `table` may be any text, and anything outside the caller's tables gets the 403.
- Executor.ConnectionPool.ExecuteQuery: the pool's own blocking and queueing are not modelled; an exhausted pool raises at once.
