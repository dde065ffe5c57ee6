/** The home page's add-to-cart handler (src/app/page.tsx): look the book up,
    load the stored cart, bump the first line for the book or append a new
    one, save, and raise "cartUpdated". */
module Home {
  import opened CartTypes
  import opened CartStorage

  predicate InCart(lines: seq<CartLine>, bookId: BookId)
  {
    exists j :: 0 <= j < |lines| && lines[j].bookId == bookId
  }

  /** `cart.findIndex((item) => item.bookId === bookId)`: the first position
      of a line for the book, or -1 when there is none. */
  function IndexOf(lines: seq<CartLine>, bookId: BookId): (i: int)
    ensures -1 <= i < |lines|
    ensures i == -1 <==> !InCart(lines, bookId)
    ensures 0 <= i ==> lines[i].bookId == bookId
    ensures 0 <= i ==> forall j :: 0 <= j < i ==> lines[j].bookId != bookId
  {
    if lines == [] then -1
    else if lines[0].bookId == bookId then 0
    else
      var i := IndexOf(lines[1..], bookId);
      assert InCart(lines, bookId) ==> InCart(lines[1..], bookId) by {
        if InCart(lines, bookId) {
          var j :| 0 <= j < |lines| && lines[j].bookId == bookId;
          assert lines[1..][j - 1].bookId == bookId;
        }
      }
      if i == -1 then -1 else i + 1
  }

  /** The line pushed for a book not yet in the cart (quantity 1). */
  function NewLine(book: Book, now: Reading): (line: CartLine)
    ensures line.bookId == book.id && line.quantity == 1
    ensures line.id == LineId(book.id, now.millis) && line.addedAt == now.iso
  {
    CartLine(LineId(book.id, now.millis), book.id, 1, now.iso)
  }

  /** What one valid add does to the cart list: the first line for the book
      gains one, or a fresh line is pushed at the end. */
  function AddLine(lines: seq<CartLine>, book: Book, now: Reading): (r: seq<CartLine>)
    ensures InCart(r, book.id)
    ensures |r| == if InCart(lines, book.id) then |lines| else |lines| + 1
    ensures forall j :: 0 <= j < |lines| && lines[j].bookId != book.id ==> r[j] == lines[j]
  {
    var i := IndexOf(lines, book.id);
    if i > -1 then
      var r := lines[i := lines[i].(quantity := lines[i].quantity + 1)];
      assert r[i].bookId == book.id;
      r
    else
      var r := lines + [NewLine(book, now)];
      assert r[|lines|].bookId == book.id;
      r
  }

  /** At most one line per book. */
  ghost predicate UniqueBooks(lines: seq<CartLine>)
  {
    forall i, j :: 0 <= i < j < |lines| ==> lines[i].bookId != lines[j].bookId
  }

  ghost predicate PositiveQuantities(lines: seq<CartLine>)
  {
    forall i :: 0 <= i < |lines| ==> lines[i].quantity >= 1
  }

  /** The number of copies in the cart. */
  function SumQuantities(lines: seq<CartLine>): int
  {
    if lines == [] then 0 else lines[0].quantity + SumQuantities(lines[1..])
  }

  /** The lines the handler starts from: an absent key reads as an empty cart. */
  function CurrentLines(stored: Stored): (lines: seq<CartLine>)
    requires !stored.Corrupt?
    ensures stored.Absent? ==> lines == []
    ensures stored.Lines? ==> lines == stored.lines
  {
    if stored.Absent? then [] else stored.lines
  }

  /** How a call of the handler ended. `ParseFailed` stands for the
      exception the handler throws, uncaught, before it writes anything on a
      corrupt stored value: from `JSON.parse` on text that does not parse, or
      from `findIndex` on JSON that is not an array. */
  datatype AddOutcome = UnknownBook | ParseFailed | Added

  class HomePage {
    const store: CartStore
    const catalog: seq<Book>

    constructor (store: CartStore, catalog: seq<Book>)
      ensures this.store == store && this.catalog == catalog
    {
      this.store := store;
      this.catalog := catalog;
    }

    /** `handleAddToCart(bookId)`; `now` is the clock reading taken for the
        new line's id and timestamp. */
    method HandleAddToCart(bookId: BookId, now: Reading) returns (outcome: AddOutcome)
      modifies store
      ensures !InCatalog(catalog, bookId) ==>
        outcome == UnknownBook && store.stored == old(store.stored) &&
        store.notifications == old(store.notifications)
      ensures InCatalog(catalog, bookId) && old(store.stored).Corrupt? ==>
        outcome == ParseFailed && store.stored == old(store.stored) &&
        store.notifications == old(store.notifications)
      ensures InCatalog(catalog, bookId) && !old(store.stored).Corrupt? ==>
        outcome == Added &&
        store.stored == Lines(AddLine(CurrentLines(old(store.stored)), FindBook(catalog, bookId).value, now)) &&
        store.notifications == old(store.notifications) + 1
    {
      var found := FindBook(catalog, bookId);
      if found.None? {
        return UnknownBook;
      }
      var book := found.value;
      var cart: seq<CartLine>;
      match store.stored {
        case Absent => cart := [];
        case Lines(lines) => cart := lines;
        case Corrupt => return ParseFailed;
      }
      var i := IndexOf(cart, book.id);
      if i > -1 {
        cart := cart[i := cart[i].(quantity := cart[i].quantity + 1)];
      } else {
        cart := cart + [NewLine(book, now)];
      }
      store.SetItem(cart);
      store.DispatchCartUpdated();
      outcome := Added;
    }
  }

  /** A book already in the cart: only its first line changes, and only by one copy. */
  lemma AddIncrementsFirstLine(lines: seq<CartLine>, book: Book, now: Reading)
    requires InCart(lines, book.id)
    ensures var r, i := AddLine(lines, book, now), IndexOf(lines, book.id);
      |r| == |lines| && 0 <= i &&
      r[i] == lines[i].(quantity := lines[i].quantity + 1) &&
      (forall j :: 0 <= j < i ==> lines[j].bookId != book.id) &&
      (forall j :: 0 <= j < |lines| && j != i ==> r[j] == lines[j])
  {
  }

  /** A book not in the cart: one line with quantity 1 is pushed at the end. */
  lemma AddAppendsNewLine(lines: seq<CartLine>, book: Book, now: Reading)
    requires !InCart(lines, book.id)
    ensures var r := AddLine(lines, book, now);
      |r| == |lines| + 1 && r[..|lines|] == lines &&
      r[|lines|].bookId == book.id && r[|lines|].quantity == 1
  {
  }

  /** Adds keep the cart at one line per book with positive quantities. */
  lemma AddKeepsCartWellFormed(lines: seq<CartLine>, book: Book, now: Reading)
    requires UniqueBooks(lines) && PositiveQuantities(lines)
    ensures UniqueBooks(AddLine(lines, book, now)) && PositiveQuantities(AddLine(lines, book, now))
  {
    var r := AddLine(lines, book, now);
    if !InCart(lines, book.id) {
      forall i, j | 0 <= i < j < |r| ensures r[i].bookId != r[j].bookId {
        if j == |lines| {
          assert r[i] == lines[i];
        }
      }
    }
  }

  lemma {:induction false} SumQuantitiesAppend(lines: seq<CartLine>, line: CartLine)
    ensures SumQuantities(lines + [line]) == SumQuantities(lines) + line.quantity
  {
    if lines != [] {
      assert (lines + [line])[1..] == lines[1..] + [line];
      SumQuantitiesAppend(lines[1..], line);
    }
  }

  lemma {:induction false} SumQuantitiesUpdate(lines: seq<CartLine>, i: nat, line: CartLine)
    requires i < |lines|
    ensures SumQuantities(lines[i := line]) == SumQuantities(lines) - lines[i].quantity + line.quantity
  {
    if i > 0 {
      assert lines[i := line][1..] == lines[1..][i - 1 := line];
      SumQuantitiesUpdate(lines[1..], i - 1, line);
    }
  }

  /** Every valid add puts exactly one more copy in the cart. */
  lemma AddIncrementsTotalQuantity(lines: seq<CartLine>, book: Book, now: Reading)
    ensures SumQuantities(AddLine(lines, book, now)) == SumQuantities(lines) + 1
  {
    var i := IndexOf(lines, book.id);
    if i > -1 {
      SumQuantitiesUpdate(lines, i, lines[i].(quantity := lines[i].quantity + 1));
    } else {
      SumQuantitiesAppend(lines, NewLine(book, now));
    }
  }

  /** The cart list after adding `book` once per clock reading in `nows`. */
  function AddRepeatedly(lines: seq<CartLine>, book: Book, nows: seq<Reading>): seq<CartLine>
    decreases |nows|
  {
    if nows == [] then lines else AddRepeatedly(AddLine(lines, book, nows[0]), book, nows[1..])
  }

  lemma {:induction false} AddRepeatedlyToSingleLine(line: CartLine, book: Book, nows: seq<Reading>)
    requires line.bookId == book.id
    ensures AddRepeatedly([line], book, nows) == [line.(quantity := line.quantity + |nows|)]
    decreases |nows|
  {
    if nows != [] {
      assert AddLine([line], book, nows[0]) == [line.(quantity := line.quantity + 1)];
      AddRepeatedlyToSingleLine(line.(quantity := line.quantity + 1), book, nows[1..]);
    }
  }

  /** Adding the same book n >= 1 times to an empty cart leaves one line for
      it with quantity n (its id and timestamp are those of the first add). */
  lemma {:induction false} RepeatedAddFromEmpty(book: Book, nows: seq<Reading>)
    requires |nows| >= 1
    ensures AddRepeatedly([], book, nows) == [NewLine(book, nows[0]).(quantity := |nows|)]
  {
    assert AddLine([], book, nows[0]) == [NewLine(book, nows[0])];
    AddRepeatedlyToSingleLine(NewLine(book, nows[0]), book, nows[1..]);
  }
}
