/**
 * The admin panel: an in-memory copy of the catalog with add, edit and
 * delete, the four-field book form, and the counters above the table.
 */
module AdminPage {
  import opened Wrappers
  import opened Seqs
  import opened Strings
  import opened MockData

  /** The form's four fields. */
  datatype BookForm = BookForm(title: string, author: string, category: string, isbn: string)

  /** The names of the form's inputs. */
  datatype BookField = Title | Author | Category | Isbn

  const EmptyForm: BookForm := BookForm("", "", "", "")

  /** The palette from which a new book's cover colour is drawn. */
  const BookColors: seq<string> := [
    "hsl(150 35% 25%)", "hsl(220 60% 35%)", "hsl(0 50% 35%)", "hsl(38 80% 45%)",
    "hsl(200 60% 35%)", "hsl(320 40% 40%)", "hsl(160 50% 30%)", "hsl(30 50% 35%)"
  ]

  /** "Please fill in all fields": some field of the form is the empty string. */
  predicate FormIncomplete(form: BookForm)
  {
    form.title == "" || form.author == "" || form.category == "" || form.isbn == ""
  }

  /** The form with one field replaced, as the inputs' `onChange` handlers build it. */
  function WithField(form: BookForm, field: BookField, value: string): BookForm
  {
    match field
    case Title => form.(title := value)
    case Author => form.(author := value)
    case Category => form.(category := value)
    case Isbn => form.(isbn := value)
  }

  /** `Math.floor(random * bookColors.length)` for a `Math.random()` draw `random`. */
  function ColorIndex(random: real): (k: nat)
    requires 0.0 <= random < 1.0
    ensures k < |BookColors|
  {
    (random * (|BookColors| as real)).Floor
  }

  /**
   * The book `handleAddBook` creates: the id is `String(Date.now())` for the
   * clock reading `now`, the four fields come from the form, it is available,
   * and its colour is the palette entry the random draw selects.
   */
  function NewBook(form: BookForm, now: nat, random: real): (r: Book)
    requires 0.0 <= random < 1.0
    ensures BookForm(r.title, r.author, r.category, r.isbn) == form
    ensures r.available && r.coverColor in BookColors
    ensures r.id != [] && (forall i :: 0 <= i < |r.id| ==> '0' <= r.id[i] <= '9') && DecimalValue(r.id) == now
  {
    DecimalRoundTrip(now);
    Book(DecimalString(now), form.title, form.author, form.category, form.isbn, true,
         BookColors[ColorIndex(random)])
  }

  /** `{ ...book, ...formData }`: the four form fields over the book's own record. */
  function ApplyForm(book: Book, form: BookForm): Book
  {
    book.(title := form.title, author := form.author, category := form.category, isbn := form.isbn)
  }

  /** `books.map((book) => book.id === id ? { ...book, ...formData } : book)`. */
  function ReplaceMatching(books: seq<Book>, id: string, form: BookForm): (r: seq<Book>)
    ensures |r| == |books|
    ensures forall i :: 0 <= i < |r| ==> r[i].id == books[i].id && r[i].available == books[i].available
  {
    if books == [] then []
    else [if books[0].id == id then ApplyForm(books[0], form) else books[0]] +
         ReplaceMatching(books[1..], id, form)
  }

  /** `books.filter((book) => book.id !== id)`. */
  function RemoveById(books: seq<Book>, id: string): (r: seq<Book>)
    ensures forall i :: 0 <= i < |r| ==> r[i].id != id
  {
    FilterAll(books, (b: Book) => b.id != id);
    Filter(books, (b: Book) => b.id != id)
  }

  predicate IsAvailable(book: Book) { book.available }

  predicate IsIssued(book: Book) { !book.available }

  /** The "Available" counter. */
  function AvailableCount(books: seq<Book>): (r: nat)
    ensures r == Count(books, IsAvailable)
  {
    FilterLength(books, IsAvailable);
    |Filter(books, IsAvailable)|
  }

  /** The "Issued" counter. */
  function IssuedCount(books: seq<Book>): (r: nat)
    ensures r == Count(books, IsIssued)
  {
    FilterLength(books, IsIssued);
    |Filter(books, IsIssued)|
  }

  predicate IsRealCategory(c: string) { c != "All" }

  /** `categories.filter((c) => c !== "All")`: the choices of the category select. */
  function CategoryOptions(categories: seq<string>): (r: seq<string>)
    ensures IsSubsequence(r, categories)
    ensures forall i :: 0 <= i < |r| ==> r[i] != "All"
  {
    FilterIsSubsequence(categories, IsRealCategory);
    FilterAll(categories, IsRealCategory);
    Filter(categories, IsRealCategory)
  }

  /** An edited book keeps its id, availability and colour and takes the form's four fields. */
  lemma ApplyFormFields(book: Book, form: BookForm)
    ensures var r := ApplyForm(book, form);
      r.id == book.id && r.available == book.available && r.coverColor == book.coverColor &&
      BookForm(r.title, r.author, r.category, r.isbn) == form
  {
  }

  /**
   * Editing keeps the length and position of every book; exactly the books
   * whose id matches take the form's fields, and every other book is unchanged.
   */
  lemma {:induction false} ReplaceMatchingPointwise(books: seq<Book>, id: string, form: BookForm)
    ensures |ReplaceMatching(books, id, form)| == |books|
    ensures forall i :: 0 <= i < |books| ==>
      ReplaceMatching(books, id, form)[i] == if books[i].id == id then ApplyForm(books[i], form) else books[i]
  {
    if books != [] {
      ReplaceMatchingPointwise(books[1..], id, form);
    }
  }

  /**
   * Deleting removes every book with the id and nothing else: the rest keep
   * their relative order, and the list shrinks by the number of books that had the id.
   */
  lemma RemoveByIdSpec(books: seq<Book>, id: string)
    ensures forall b :: b in RemoveById(books, id) <==> b in books && b.id != id
    ensures IsSubsequence(RemoveById(books, id), books)
    ensures |RemoveById(books, id)| == |books| - Count(books, (b: Book) => b.id == id)
  {
    var keep := (b: Book) => b.id != id;
    var drop := (b: Book) => b.id == id;
    forall b ensures b in RemoveById(books, id) <==> b in books && b.id != id {
      FilterMembership(books, keep, b);
    }
    FilterIsSubsequence(books, keep);
    FilterPartition(books, keep, drop);
    FilterLength(books, drop);
  }

  /** The available and issued counters always add up to the "Total Books" counter. */
  lemma AvailablePlusIssued(books: seq<Book>)
    ensures AvailableCount(books) + IssuedCount(books) == |books|
  {
    FilterPartition(books, IsAvailable, IsIssued);
  }

  /** An added book is available: the "Available" counter goes up by one and "Issued" stays. */
  lemma AddCountsAvailable(books: seq<Book>, form: BookForm, now: nat, random: real)
    requires 0.0 <= random < 1.0
    ensures AvailableCount(books + [NewBook(form, now, random)]) == AvailableCount(books) + 1
    ensures IssuedCount(books + [NewBook(form, now, random)]) == IssuedCount(books)
  {
    var nb := NewBook(form, now, random);
    FilterAppend(books, [nb], IsAvailable);
    FilterAppend(books, [nb], IsIssued);
    assert [nb][1..] == [];
  }

  /** The category select offers never `"All"`; on the fixture it offers the six real categories in order. */
  lemma CategoryOptionsSpec(categories: seq<string>)
    ensures "All" !in CategoryOptions(categories)
    ensures forall c :: c in CategoryOptions(categories) <==> c in categories && c != "All"
    ensures CategoryOptions(Categories) == Categories[1..]
  {
    forall c ensures c in CategoryOptions(categories) <==> c in categories && c != "All" {
      FilterMembership(categories, IsRealCategory, c);
    }
    FilterKeepsAll(Categories[1..], IsRealCategory);
    assert Categories == [Categories[0]] + Categories[1..];
  }

  /** The page's state. */
  class Admin {
    var books: seq<Book>
    var editingBook: Option<Book>
    var formData: BookForm

    /** Initial state: the fixture catalog, no book being edited, an empty form. */
    constructor ()
      ensures books == MockData.Books && editingBook == None && formData == EmptyForm
    {
      books := MockData.Books;
      editingBook := None;
      formData := EmptyForm;
    }

    /** `resetForm`. */
    method ResetForm()
      modifies this
      ensures formData == EmptyForm
      ensures books == old(books) && editingBook == old(editingBook)
    {
      formData := EmptyForm;
    }

    /** An input's `onChange`: only the named field takes the new value. */
    method SetField(field: BookField, value: string)
      modifies this
      ensures formData == WithField(old(formData), field, value)
      ensures books == old(books) && editingBook == old(editingBook)
    {
      formData := WithField(formData, field, value);
    }

    /**
     * `handleAddBook` at clock reading `now` with random draw `random`: an
     * incomplete form changes nothing; otherwise exactly one new book is
     * appended and the form is reset.
     */
    method AddBook(now: nat, random: real) returns (added: bool)
      requires 0.0 <= random < 1.0
      modifies this
      ensures added <==> !FormIncomplete(old(formData))
      ensures added ==> books == old(books) + [NewBook(old(formData), now, random)] && formData == EmptyForm
      ensures !added ==> books == old(books) && formData == old(formData)
      ensures editingBook == old(editingBook)
    {
      if FormIncomplete(formData) {
        return false;
      }
      books := books + [NewBook(formData, now, random)];
      ResetForm();
      return true;
    }

    /**
     * `handleEditBook`: without a book being edited, or with an incomplete
     * form, nothing changes; otherwise every book with the edited book's id
     * takes the form's fields, the edit ends and the form is reset.
     */
    method EditBook() returns (updated: bool)
      modifies this
      ensures updated <==> old(editingBook).Some? && !FormIncomplete(old(formData))
      ensures updated ==>
        books == ReplaceMatching(old(books), old(editingBook).value.id, old(formData)) &&
        editingBook == None && formData == EmptyForm
      ensures !updated ==>
        books == old(books) && editingBook == old(editingBook) && formData == old(formData)
    {
      if editingBook.None? {
        return false;
      }
      if FormIncomplete(formData) {
        return false;
      }
      books := ReplaceMatching(books, editingBook.value.id, formData);
      editingBook := None;
      ResetForm();
      return true;
    }

    /** `handleDeleteBook`. */
    method DeleteBook(id: string)
      modifies this
      ensures books == RemoveById(old(books), id)
      ensures editingBook == old(editingBook) && formData == old(formData)
    {
      books := RemoveById(books, id);
    }

    /** `openEditDialog`: remember the book and load its four fields into the form. */
    method OpenEditDialog(book: Book)
      modifies this
      ensures editingBook == Some(book)
      ensures formData == BookForm(book.title, book.author, book.category, book.isbn)
      ensures books == old(books)
    {
      editingBook := Some(book);
      formData := BookForm(book.title, book.author, book.category, book.isbn);
    }
  }
}
