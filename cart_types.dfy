/** Values shared by the storefront's cart bookkeeping: catalog books, persisted
    cart lines, the state of the "cart" storage slot and the cart page's rows. */
module CartTypes {

  datatype Option<+T> = None | Some(value: T)

  type BookId = string

  /** A catalog record. Prices are whole cents instead of decimal dollars. */
  datatype Book = Book(id: BookId, title: string, price: int)

  /** One reading of the clock: `Date.now()` in milliseconds and the ISO-8601
      text of `new Date().toISOString()`. Both are opaque to the model. */
  datatype Reading = Reading(millis: int, iso: string)

  /** The synthetic line id `${bookId}-${millis}`. */
  datatype LineId = LineId(bookId: BookId, millis: int)

  /** One persisted cart line. */
  datatype CartLine = CartLine(id: LineId, bookId: BookId, quantity: int, addedAt: string)

  /** What the storage slot "cart" holds: nothing, a JSON array of cart
      lines, or a value the handlers cannot use as one (text that does not
      parse, or JSON that is not an array). */
  datatype Stored = Absent | Lines(lines: seq<CartLine>) | Corrupt

  /** One row of the cart page: the catalog book joined to its quantity. */
  datatype Row = Row(book: Book, quantity: int)

  predicate InCatalog(catalog: seq<Book>, id: BookId)
  {
    exists i :: 0 <= i < |catalog| && catalog[i].id == id
  }

  /** `i` is the first catalog position holding a book with this id. */
  predicate FirstBookAt(catalog: seq<Book>, id: BookId, i: int)
  {
    0 <= i < |catalog| && catalog[i].id == id &&
    forall j :: 0 <= j < i ==> catalog[j].id != id
  }

  /** `books.find((b) => b.id === id)`: the first book with this id, if any. */
  function FindBook(catalog: seq<Book>, id: BookId): (r: Option<Book>)
    ensures r.Some? <==> InCatalog(catalog, id)
    ensures r.Some? ==> exists i :: FirstBookAt(catalog, id, i) && catalog[i] == r.value
  {
    if catalog == [] then None
    else if catalog[0].id == id then
      assert FirstBookAt(catalog, id, 0);
      Some(catalog[0])
    else
      var r := FindBook(catalog[1..], id);
      assert InCatalog(catalog, id) ==> InCatalog(catalog[1..], id) by {
        if InCatalog(catalog, id) {
          var i :| 0 <= i < |catalog| && catalog[i].id == id;
          assert catalog[1..][i - 1].id == id;
        }
      }
      assert r.Some? ==> exists i :: FirstBookAt(catalog, id, i) && catalog[i] == r.value by {
        if r.Some? {
          var i :| FirstBookAt(catalog[1..], id, i) && catalog[1..][i] == r.value;
          assert FirstBookAt(catalog, id, i + 1);
        }
      }
      r
  }

  /** Every row's book is the very record the catalog lookup gives for its id. */
  ghost predicate RowsFromCatalog(rows: seq<Row>, catalog: seq<Book>)
  {
    forall k :: 0 <= k < |rows| ==> FindBook(catalog, rows[k].book.id) == Some(rows[k].book)
  }

  /** The persisted lines carry, position by position, the rows' book ids and quantities. */
  ghost predicate Mirrors(lines: seq<CartLine>, rows: seq<Row>)
  {
    |lines| == |rows| &&
    forall k :: 0 <= k < |lines| ==>
      lines[k].bookId == rows[k].book.id && lines[k].quantity == rows[k].quantity
  }
}
