/** The cart page's view model (src/app/cart/page.tsx): rows loaded from
    storage and joined against the catalog, the quantity, remove and clear
    handlers that rewrite storage and raise "cartUpdated", and the total. */
module Cart {
  import opened CartTypes
  import opened CartStorage

  /** The stored lines joined to the catalog (`cart.map(...).filter(...)`):
      a line whose book is not in the catalog is dropped. */
  function Join(lines: seq<CartLine>, catalog: seq<Book>): (rows: seq<Row>)
    ensures |rows| <= |lines|
    ensures RowsFromCatalog(rows, catalog)
  {
    if lines == [] then []
    else
      var rest := Join(lines[1..], catalog);
      match FindBook(catalog, lines[0].bookId)
      case Some(book) => [Row(book, lines[0].quantity)] + rest
      case None => rest
  }

  /** Reference definition: the stored lines whose book is in the catalog. */
  function KnownLines(lines: seq<CartLine>, catalog: seq<Book>): (r: seq<CartLine>)
    ensures |r| <= |lines|
    ensures forall l :: l in r <==> l in lines && InCatalog(catalog, l.bookId)
  {
    if lines == [] then []
    else if InCatalog(catalog, lines[0].bookId) then [lines[0]] + KnownLines(lines[1..], catalog)
    else KnownLines(lines[1..], catalog)
  }

  /** The rows the page shows after mounting: an absent key or a value that
      fails to parse gives no rows, and no error escapes. */
  function LoadRows(stored: Stored, catalog: seq<Book>): (rows: seq<Row>)
    ensures !stored.Lines? ==> rows == []
    ensures stored.Lines? ==> |rows| <= |stored.lines|
    ensures RowsFromCatalog(rows, catalog)
  {
    match stored
    case Absent => []
    case Corrupt => []
    case Lines(lines) => Join(lines, catalog)
  }

  /** The row rewrite of `updateQuantity`. */
  function SetQuantity(rows: seq<Row>, bookId: BookId, q: int): (r: seq<Row>)
    ensures |r| == |rows|
    ensures forall k :: 0 <= k < |rows| ==> r[k].book == rows[k].book
    ensures forall k :: 0 <= k < |rows| ==>
      r[k].quantity == if rows[k].book.id == bookId then q else rows[k].quantity
  {
    if rows == [] then []
    else
      var row := if rows[0].book.id == bookId then rows[0].(quantity := q) else rows[0];
      [row] + SetQuantity(rows[1..], bookId, q)
  }

  /** The row filter of `removeItem`. */
  function RemoveBook(rows: seq<Row>, bookId: BookId): (r: seq<Row>)
    ensures |r| <= |rows|
    ensures forall k :: 0 <= k < |r| ==> r[k].book.id != bookId
    ensures forall row :: row in r <==> row in rows && row.book.id != bookId
  {
    if rows == [] then []
    else if rows[0].book.id == bookId then RemoveBook(rows[1..], bookId)
    else [rows[0]] + RemoveBook(rows[1..], bookId)
  }

  /** The lines written back by `updateQuantity` and `removeItem`; `clock(k)`
      is the clock reading taken for the k-th line. */
  function ToStorage(rows: seq<Row>, clock: nat -> Reading): (lines: seq<CartLine>)
    ensures Mirrors(lines, rows)
  {
    seq(|rows|, k requires 0 <= k < |rows| =>
      CartLine(LineId(rows[k].book.id, clock(k).millis), rows[k].book.id, rows[k].quantity, clock(k).iso))
  }

  function Subtotal(row: Row): int
  {
    row.book.price * row.quantity
  }

  /** `cartItems.reduce((total, item) => total + item.book.price * item.quantity, 0)`,
      folded from the left as `reduce` does. */
  function TotalPrice(rows: seq<Row>): (t: int)
    ensures rows == [] ==> t == 0
    ensures (forall k :: 0 <= k < |rows| ==> rows[k].book.price >= 0 && rows[k].quantity >= 0) ==> t >= 0
  {
    if rows == [] then 0
    else TotalPrice(rows[..|rows| - 1]) + Subtotal(rows[|rows| - 1])
  }

  class CartPage {
    const store: CartStore
    const catalog: seq<Book>
    var rows: seq<Row>

    /** Every row shown holds the catalog's own record for its book. */
    ghost predicate Valid()
      reads this
    {
      RowsFromCatalog(rows, catalog)
    }

    /** Loading the stored cart again would give exactly the rows shown. */
    ghost predicate InSync()
      reads this, store
    {
      LoadRows(store.stored, catalog) == rows
    }

    /** Mounting the page: rows start empty and the effect loads them. */
    constructor Mount(store: CartStore, catalog: seq<Book>)
      ensures this.store == store && this.catalog == catalog
      ensures rows == LoadRows(store.stored, catalog)
      ensures Valid() && InSync()
    {
      this.store := store;
      this.catalog := catalog;
      rows := LoadRows(store.stored, catalog);
    }

    /** `updateQuantity(bookId, newQuantity)`. */
    method UpdateQuantity(bookId: BookId, newQuantity: int, clock: nat -> Reading)
      requires Valid()
      modifies this, store
      ensures Valid()
      ensures newQuantity < 1 ==>
        rows == old(rows) && store.stored == old(store.stored) &&
        store.notifications == old(store.notifications)
      ensures newQuantity >= 1 ==>
        rows == SetQuantity(old(rows), bookId, newQuantity) &&
        store.stored == Lines(ToStorage(rows, clock)) &&
        store.notifications == old(store.notifications) + 1 &&
        InSync()
    {
      if newQuantity < 1 {
        return;
      }
      rows := SetQuantity(rows, bookId, newQuantity);
      var lines := ToStorage(rows, clock);
      store.SetItem(lines);
      store.DispatchCartUpdated();
      ReloadAfterSave(lines, rows, catalog);
    }

    /** `removeItem(bookId)`. */
    method RemoveItem(bookId: BookId, clock: nat -> Reading)
      requires Valid()
      modifies this, store
      ensures Valid()
      ensures rows == RemoveBook(old(rows), bookId)
      ensures store.stored == Lines(ToStorage(rows, clock))
      ensures store.notifications == old(store.notifications) + 1
      ensures InSync()
    {
      rows := RemoveBook(rows, bookId);
      var lines := ToStorage(rows, clock);
      store.SetItem(lines);
      store.DispatchCartUpdated();
      ReloadAfterSave(lines, rows, catalog);
    }

    /** `clearCart()`. */
    method ClearCart()
      requires Valid()
      modifies this, store
      ensures Valid()
      ensures rows == [] && store.stored == Absent
      ensures store.notifications == old(store.notifications) + 1
      ensures InSync()
    {
      rows := [];
      store.RemoveItem();
      store.DispatchCartUpdated();
    }
  }

  /** Loading keeps exactly the known lines, in their order, with their quantities. */
  lemma {:induction false} JoinKeepsKnownLines(lines: seq<CartLine>, catalog: seq<Book>)
    ensures Mirrors(KnownLines(lines, catalog), Join(lines, catalog))
  {
    if lines != [] {
      JoinKeepsKnownLines(lines[1..], catalog);
    }
  }

  /** A cart with no orphan lines loads with one row per line. */
  lemma JoinDropsOnlyOrphans(lines: seq<CartLine>, catalog: seq<Book>)
    requires forall j :: 0 <= j < |lines| ==> InCatalog(catalog, lines[j].bookId)
    ensures Mirrors(lines, Join(lines, catalog))
  {
    KnownLinesOfKnown(lines, catalog);
    JoinKeepsKnownLines(lines, catalog);
  }

  lemma {:induction false} KnownLinesOfKnown(lines: seq<CartLine>, catalog: seq<Book>)
    requires forall j :: 0 <= j < |lines| ==> InCatalog(catalog, lines[j].bookId)
    ensures KnownLines(lines, catalog) == lines
  {
    if lines != [] {
      KnownLinesOfKnown(lines[1..], catalog);
    }
  }

  /** Saving rows that came from the catalog and loading them again gives the
      same rows back. */
  lemma {:induction false} ReloadAfterSave(lines: seq<CartLine>, rows: seq<Row>, catalog: seq<Book>)
    requires Mirrors(lines, rows) && RowsFromCatalog(rows, catalog)
    ensures Join(lines, catalog) == rows
  {
    if lines != [] {
      assert FindBook(catalog, lines[0].bookId) == Some(rows[0].book);
      ReloadAfterSave(lines[1..], rows[1..], catalog);
    }
  }

  /** Rewriting quantities twice with the same value changes nothing more. */
  lemma SetQuantityIdempotent(rows: seq<Row>, bookId: BookId, q: int)
    ensures SetQuantity(SetQuantity(rows, bookId, q), bookId, q) == SetQuantity(rows, bookId, q)
  {
  }

  /** Removing a book no row holds leaves the rows as they were. */
  lemma {:induction false} RemoveAbsentBook(rows: seq<Row>, bookId: BookId)
    requires forall k :: 0 <= k < |rows| ==> rows[k].book.id != bookId
    ensures RemoveBook(rows, bookId) == rows
  {
    if rows != [] {
      RemoveAbsentBook(rows[1..], bookId);
    }
  }

  /** The filter works piecewise, so the rows that remain keep their order. */
  lemma {:induction false} RemoveBookKeepsOrder(a: seq<Row>, b: seq<Row>, bookId: BookId)
    ensures RemoveBook(a + b, bookId) == RemoveBook(a, bookId) + RemoveBook(b, bookId)
  {
    if a != [] {
      assert (a + b)[1..] == a[1..] + b;
      RemoveBookKeepsOrder(a[1..], b, bookId);
    } else {
      assert a + b == b;
    }
  }

  /** The total of a concatenation is the sum of the totals. */
  lemma {:induction false} TotalPriceAppend(a: seq<Row>, b: seq<Row>)
    ensures TotalPrice(a + b) == TotalPrice(a) + TotalPrice(b)
    decreases |b|
  {
    if b != [] {
      var n := |b| - 1;
      assert (a + b)[..|a + b| - 1] == a + b[..n];
      assert (a + b)[|a + b| - 1] == b[n];
      TotalPriceAppend(a, b[..n]);
    } else {
      assert a + b == a;
    }
  }

  lemma TotalPriceCons(row: Row, rest: seq<Row>)
    ensures TotalPrice([row] + rest) == Subtotal(row) + TotalPrice(rest)
  {
    assert [row][..0] == [];
    TotalPriceAppend([row], rest);
  }

  /** With non-negative prices and quantities, removing a book never raises the total. */
  lemma {:induction false} RemoveNeverRaisesTotal(rows: seq<Row>, bookId: BookId)
    requires forall k :: 0 <= k < |rows| ==> rows[k].book.price >= 0 && rows[k].quantity >= 0
    ensures TotalPrice(RemoveBook(rows, bookId)) <= TotalPrice(rows)
  {
    if rows != [] {
      var rest := rows[1..];
      RemoveNeverRaisesTotal(rest, bookId);
      assert rows == [rows[0]] + rest;
      TotalPriceCons(rows[0], rest);
      assert TotalPrice([rows[0]]) >= 0;
      if rows[0].book.id != bookId {
        TotalPriceCons(rows[0], RemoveBook(rest, bookId));
      }
    }
  }

  /** Two copies at $10.00 and one at $5.00, stored in that order, total $25.00. */
  lemma TotalPriceExample()
    ensures var catalog := [Book("b1", "First", 1000), Book("b2", "Second", 500)];
      var lines := [CartLine(LineId("b1", 0), "b1", 2, ""), CartLine(LineId("b2", 0), "b2", 1, "")];
      TotalPrice(LoadRows(Lines(lines), catalog)) == 2500
  {
    var catalog := [Book("b1", "First", 1000), Book("b2", "Second", 500)];
    assert "b1" != "b2" by { assert "b1"[1] != "b2"[1]; }
    assert FindBook(catalog, "b2") == Some(catalog[1]);
  }
}
