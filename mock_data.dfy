/**
 * The catalog's record types and the fixed data set that the pages read:
 * the category list, the eight books and the three loans.
 */
module MockData {

  /** A catalog entry. */
  datatype Book = Book(
    id: string,
    title: string,
    author: string,
    category: string,
    isbn: string,
    available: bool,
    coverColor: string)

  /**
   * A loan of a book to a student. The two dates are the millisecond
   * timestamps that `new Date(...)` gives for the fixture's `YYYY-MM-DD`
   * strings (midnight UTC of that day).
   */
  datatype IssuedBook = IssuedBook(
    id: string,
    bookId: string,
    studentName: string,
    studentId: string,
    issueDate: int,
    dueDate: int,
    returned: bool)

  /** The category filter values; `"All"` is the wildcard. */
  const Categories: seq<string> :=
    ["All", "Fiction", "Non-Fiction", "Science", "History", "Technology", "Literature"]

  /** The initial catalog. */
  const Books: seq<Book> := [
    Book("1", "The Great Gatsby", "F. Scott Fitzgerald", "Fiction", "978-0743273565", true, "hsl(150 35% 25%)"),
    Book("2", "A Brief History of Time", "Stephen Hawking", "Science", "978-0553380163", true, "hsl(220 60% 35%)"),
    Book("3", "1984", "George Orwell", "Fiction", "978-0451524935", false, "hsl(0 50% 35%)"),
    Book("4", "Sapiens", "Yuval Noah Harari", "History", "978-0062316097", true, "hsl(38 80% 45%)"),
    Book("5", "Clean Code", "Robert C. Martin", "Technology", "978-0132350884", true, "hsl(200 60% 35%)"),
    Book("6", "Pride and Prejudice", "Jane Austen", "Literature", "978-0141439518", false, "hsl(320 40% 40%)"),
    Book("7", "The Selfish Gene", "Richard Dawkins", "Science", "978-0199291151", true, "hsl(160 50% 30%)"),
    Book("8", "To Kill a Mockingbird", "Harper Lee", "Literature", "978-0446310789", true, "hsl(30 50% 35%)")
  ]

  /** Midnight UTC, in milliseconds since the epoch, of the fixture's dates. */
  const Jan05_2024: int := 1704412800000
  const Jan19_2024: int := 1705622400000
  const Jan08_2024: int := 1704672000000
  const Jan22_2024: int := 1705881600000
  const Dec20_2023: int := 1703030400000
  const Jan03_2024: int := 1704240000000

  /** The loans shown on the student portal. */
  const IssuedBooks: seq<IssuedBook> := [
    IssuedBook("1", "3", "Alice Johnson", "STU001", Jan05_2024, Jan19_2024, false),
    IssuedBook("2", "6", "Bob Smith", "STU002", Jan08_2024, Jan22_2024, false),
    IssuedBook("3", "1", "Carol White", "STU003", Dec20_2023, Jan03_2024, true)
  ]

  /** No two books share an id. */
  predicate DistinctBookIds(bs: seq<Book>)
  {
    forall i, j :: 0 <= i < j < |bs| ==> bs[i].id != bs[j].id
  }

  /** No two loans share an id. */
  predicate DistinctLoanIds(ls: seq<IssuedBook>)
  {
    forall i, j :: 0 <= i < j < |ls| ==> ls[i].id != ls[j].id
  }

  /** Some book of `bs` has the id `id`. */
  predicate HasBook(bs: seq<Book>, id: string)
  {
    exists j :: 0 <= j < |bs| && bs[j].id == id
  }

  /** Book ids and loan ids of the fixture are pairwise distinct. */
  lemma FixtureIdsDistinct()
    ensures DistinctBookIds(Books)
    ensures DistinctLoanIds(IssuedBooks)
  {
  }

  /** `Categories` starts with the wildcard, has no repeats, and every book is filed under a real category. */
  lemma FixtureCategories()
    ensures Categories[0] == "All"
    ensures forall i, j :: 0 <= i < j < |Categories| ==> Categories[i] != Categories[j]
    ensures forall b :: b in Books ==> b.category in Categories[1..]
  {
  }

  /** Every loan names a book of the catalog. */
  lemma FixtureLoansNameBooks()
    ensures forall l :: l in IssuedBooks ==> HasBook(Books, l.bookId)
  {
    assert Books[2].id == IssuedBooks[0].bookId;
    assert Books[5].id == IssuedBooks[1].bookId;
    assert Books[0].id == IssuedBooks[2].bookId;
  }

  /** Some loan of `ls` that is not yet returned is for the book `id`. */
  predicate OnLoan(ls: seq<IssuedBook>, id: string)
  {
    exists k :: 0 <= k < |ls| && !ls[k].returned && ls[k].bookId == id
  }

  /** The books out on an unreturned loan are exactly the books marked unavailable. */
  lemma FixtureLoansMatchAvailability()
    ensures forall i :: 0 <= i < |Books| ==> (!Books[i].available <==> OnLoan(IssuedBooks, Books[i].id))
    ensures forall k :: 0 <= k < |IssuedBooks| && !IssuedBooks[k].returned ==>
      exists i :: 0 <= i < |Books| && Books[i].id == IssuedBooks[k].bookId && !Books[i].available
  {
    assert OnLoan(IssuedBooks, "3") by { assert IssuedBooks[0].bookId == "3"; }
    assert OnLoan(IssuedBooks, "6") by { assert IssuedBooks[1].bookId == "6"; }
    assert Books[2].id == IssuedBooks[0].bookId && Books[5].id == IssuedBooks[1].bookId;
  }

  /** No loan is due before it was issued. */
  lemma FixtureLoanDates()
    ensures forall l :: l in IssuedBooks ==> l.issueDate <= l.dueDate
  {
  }
}
