/**
 * The student portal's loan view: book title and author lookup with a
 * fallback, the overdue test, the split of the loans into active and
 * returned, and the three counters shown above the tables.
 */
module StudentsPage {
  import opened Wrappers
  import opened Seqs
  import opened MockData

  const UnknownBook: string := "Unknown Book"
  const UnknownAuthor: string := "Unknown Author"

  /** `books.find((b) => b.id === bookId)`. */
  function FindBook(books: seq<Book>, bookId: string): Option<Book>
  {
    Find(books, (b: Book) => b.id == bookId)
  }

  /** `getBookTitle`: the found book's title, or the fallback when there is none or it is empty (`||`). */
  function BookTitle(books: seq<Book>, bookId: string): (r: string)
    ensures r != ""
    ensures r != UnknownBook ==> exists i :: 0 <= i < |books| && books[i].id == bookId && books[i].title == r
  {
    FindFirst(books, (b: Book) => b.id == bookId);
    var book := FindBook(books, bookId);
    if book.Some? && book.value.title != "" then book.value.title else UnknownBook
  }

  /** `getBookAuthor`: the same lookup, for the author. */
  function BookAuthor(books: seq<Book>, bookId: string): (r: string)
    ensures r != ""
    ensures r != UnknownAuthor ==> exists i :: 0 <= i < |books| && books[i].id == bookId && books[i].author == r
  {
    FindFirst(books, (b: Book) => b.id == bookId);
    var book := FindBook(books, bookId);
    if book.Some? && book.value.author != "" then book.value.author else UnknownAuthor
  }

  /** `isOverdue`: the due instant lies strictly before the evaluation instant `now`. */
  predicate IsOverdue(dueDate: int, now: int)
  {
    dueDate < now
  }

  predicate IsActive(loan: IssuedBook) { !loan.returned }

  predicate IsReturned(loan: IssuedBook) { loan.returned }

  /** `issuedBooks.filter((loan) => !loan.returned)`. */
  function ActiveLoans(loans: seq<IssuedBook>): (r: seq<IssuedBook>)
    ensures IsSubsequence(r, loans)
    ensures forall i :: 0 <= i < |r| ==> !r[i].returned
  {
    FilterIsSubsequence(loans, IsActive);
    FilterAll(loans, IsActive);
    Filter(loans, IsActive)
  }

  /** `issuedBooks.filter((loan) => loan.returned)`. */
  function ReturnedLoans(loans: seq<IssuedBook>): (r: seq<IssuedBook>)
    ensures IsSubsequence(r, loans)
    ensures forall i :: 0 <= i < |r| ==> r[i].returned
  {
    FilterIsSubsequence(loans, IsReturned);
    FilterAll(loans, IsReturned);
    Filter(loans, IsReturned)
  }

  /**
   * The "Overdue Books" counter: active loans whose due date has passed at
   * `now`. It never exceeds the "Currently Borrowed" counter.
   */
  function OverdueCount(loans: seq<IssuedBook>, now: int): (r: nat)
    ensures r <= |ActiveLoans(loans)|
    ensures r == Count(ActiveLoans(loans), (l: IssuedBook) => IsOverdue(l.dueDate, now))
  {
    FilterLength(ActiveLoans(loans), (l: IssuedBook) => IsOverdue(l.dueDate, now));
    |Filter(ActiveLoans(loans), (l: IssuedBook) => IsOverdue(l.dueDate, now))|
  }

  /**
   * Active and returned loans split the list: together they hold each loan
   * exactly as often as the list does, and the two counters add up to the
   * number of loans.
   */
  lemma LoansPartition(loans: seq<IssuedBook>)
    ensures multiset(ActiveLoans(loans)) + multiset(ReturnedLoans(loans)) == multiset(loans)
    ensures |ActiveLoans(loans)| + |ReturnedLoans(loans)| == |loans|
  {
    FilterPartition(loans, IsActive, IsReturned);
  }

  /** A loan is active exactly when it is listed and not returned; returned exactly when listed and returned. */
  lemma LoansMembership(loans: seq<IssuedBook>, loan: IssuedBook)
    ensures loan in ActiveLoans(loans) <==> loan in loans && !loan.returned
    ensures loan in ReturnedLoans(loans) <==> loan in loans && loan.returned
  {
    FilterMembership(loans, IsActive, loan);
    FilterMembership(loans, IsReturned, loan);
  }

  /** For a fixed due date, moving `now` past it turns the overdue flag on. */
  lemma OverdueFlipsAtDueDate(dueDate: int, before: int, after: int)
    requires before <= dueDate < after
    ensures !IsOverdue(dueDate, before) && IsOverdue(dueDate, after)
  {
  }

  /**
   * The title shown is the fallback exactly when no book has the id or the
   * first such book has an empty title; otherwise it is that first book's title.
   */
  lemma BookTitleLookup(books: seq<Book>, bookId: string)
    ensures BookTitle(books, bookId) == UnknownBook <==>
      (forall i :: 0 <= i < |books| ==> books[i].id != bookId) ||
      (exists k :: 0 <= k < |books| && books[k].id == bookId && books[k].title in {"", UnknownBook} &&
         forall i :: 0 <= i < k ==> books[i].id != bookId)
    ensures forall k ::
      (0 <= k < |books| && books[k].id == bookId && books[k].title != "" &&
       forall i :: 0 <= i < k ==> books[i].id != bookId) ==> BookTitle(books, bookId) == books[k].title
  {
    FindFirst(books, (b: Book) => b.id == bookId);
  }

  /** The author shown follows the same rule as the title, with its own fallback. */
  lemma BookAuthorLookup(books: seq<Book>, bookId: string)
    ensures BookAuthor(books, bookId) == UnknownAuthor <==>
      (forall i :: 0 <= i < |books| ==> books[i].id != bookId) ||
      (exists k :: 0 <= k < |books| && books[k].id == bookId && books[k].author in {"", UnknownAuthor} &&
         forall i :: 0 <= i < k ==> books[i].id != bookId)
    ensures forall k ::
      (0 <= k < |books| && books[k].id == bookId && books[k].author != "" &&
       forall i :: 0 <= i < k ==> books[i].id != bookId) ==> BookAuthor(books, bookId) == books[k].author
  {
    FindFirst(books, (b: Book) => b.id == bookId);
  }

  /** The overdue filter over a two-loan list, spelled out. */
  lemma OverdueOfTwo(active: seq<IssuedBook>, now: int)
    requires |active| == 2
    ensures |Filter(active, (l: IssuedBook) => IsOverdue(l.dueDate, now))| ==
      (if active[0].dueDate < now then 1 else 0) + (if active[1].dueDate < now then 1 else 0)
  {
    var p := (l: IssuedBook) => IsOverdue(l.dueDate, now);
    assert active[1..][1..] == [];
    assert |Filter(active[1..], p)| == (if active[1].dueDate < now then 1 else 0);
  }

  /**
   * The portal on the fixture: loans 1 and 2 are active, loan 3 is returned,
   * the overdue counter reads 0 on 2024-01-10, 1 on 2024-01-20 and 2 on
   * 2024-01-23.
   */
  lemma FixtureLoanView()
    ensures ActiveLoans(IssuedBooks) == IssuedBooks[..2]
    ensures ReturnedLoans(IssuedBooks) == [IssuedBooks[2]]
    ensures OverdueCount(IssuedBooks, Jan05_2024 + 5 * 86400000) == 0
    ensures OverdueCount(IssuedBooks, Jan19_2024 + 86400000) == 1
    ensures OverdueCount(IssuedBooks, Jan22_2024 + 86400000) == 2
  {
    FixtureLoanSplit();
    var active := ActiveLoans(IssuedBooks);
    OverdueOfTwo(active, Jan05_2024 + 5 * 86400000);
    OverdueOfTwo(active, Jan19_2024 + 86400000);
    OverdueOfTwo(active, Jan22_2024 + 86400000);
  }

  /** The two active loans of the fixture show "1984" and "Jane Austen". */
  lemma FixtureActiveLoanBooks()
    ensures BookTitle(Books, IssuedBooks[0].bookId) == "1984"
    ensures BookAuthor(Books, IssuedBooks[1].bookId) == "Jane Austen"
  {
    FixtureIdsDistinct();
    FixtureBooksNamed();
    LookupHits(Books, 2);
    LookupHits(Books, 5);
  }

  /** The fixture's split into active and returned loans. */
  lemma FixtureLoanSplit()
    ensures ActiveLoans(IssuedBooks) == IssuedBooks[..2]
    ensures ReturnedLoans(IssuedBooks) == [IssuedBooks[2]]
  {
    var loans := IssuedBooks;
    var t1, t2 := loans[1..], loans[2..];
    assert t1[1..] == t2 && t2[1..] == [];
    assert Filter(t2, IsActive) == [];
    assert Filter(t1, IsActive) == [loans[1]];
    assert Filter(loans, IsActive) == [loans[0], loans[1]];
    assert Filter(t2, IsReturned) == [loans[2]];
    assert Filter(t1, IsReturned) == [loans[2]];
  }

  /**
   * On the fixture no loan's lookup falls back: every loan shows the title
   * and author of a real catalog entry.
   */
  lemma FixtureLookupsNeverFallBack()
    ensures forall l :: l in IssuedBooks ==>
      BookTitle(Books, l.bookId) != UnknownBook && BookAuthor(Books, l.bookId) != UnknownAuthor
  {
    FixtureLoansNameBooks();
    FixtureBooksNamed();
    forall l | l in IssuedBooks
      ensures BookTitle(Books, l.bookId) != UnknownBook && BookAuthor(Books, l.bookId) != UnknownAuthor
    {
      LookupNeverFallsBack(Books, l.bookId);
    }
  }

  /** Every fixture book has a title and an author other than the fallbacks. */
  lemma FixtureBooksNamed()
    ensures forall i :: 0 <= i < |Books| ==>
      Books[i].title !in {"", UnknownBook} && Books[i].author !in {"", UnknownAuthor}
  {
  }

  /**
   * When every book has a real title and author, looking up an id that some
   * book has never shows a fallback.
   */
  lemma LookupNeverFallsBack(books: seq<Book>, bookId: string)
    requires HasBook(books, bookId)
    requires forall i :: 0 <= i < |books| ==>
      books[i].title !in {"", UnknownBook} && books[i].author !in {"", UnknownAuthor}
    ensures BookTitle(books, bookId) != UnknownBook && BookAuthor(books, bookId) != UnknownAuthor
  {
    BookTitleLookup(books, bookId);
    BookAuthorLookup(books, bookId);
  }

  /** The book at `k`, the first with its id and with title and author set, supplies both lookups. */
  lemma LookupHits(books: seq<Book>, k: nat)
    requires k < |books| && books[k].title != "" && books[k].author != ""
    requires forall i :: 0 <= i < k ==> books[i].id != books[k].id
    ensures BookTitle(books, books[k].id) == books[k].title
    ensures BookAuthor(books, books[k].id) == books[k].author
  {
    BookTitleLookup(books, books[k].id);
    BookAuthorLookup(books, books[k].id);
  }
}
