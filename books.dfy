/**
 * The book collection page: a search box (case-insensitive substring match
 * on title or author) and a row of category buttons where `"All"` matches
 * every category, together with the "Clear filters" reset.
 */
module BooksPage {
  import opened Seqs
  import opened Strings
  import opened MockData

  const AllCategories: string := "All"

  /** `matchesSearch`: the lower-cased title or author includes the lower-cased query. */
  predicate MatchesSearch(book: Book, query: string)
  {
    Includes(Lower(book.title), Lower(query)) || Includes(Lower(book.author), Lower(query))
  }

  /** `matchesCategory`: the wildcard, or the book's own category. */
  predicate MatchesCategory(book: Book, category: string)
  {
    category == AllCategories || book.category == category
  }

  /** The predicate handed to `books.filter`. */
  predicate Keep(book: Book, query: string, category: string)
  {
    MatchesSearch(book, query) && MatchesCategory(book, category)
  }

  /** `filteredBooks`. */
  function FilteredBooks(books: seq<Book>, query: string, category: string): (r: seq<Book>)
    ensures IsSubsequence(r, books)
    ensures forall i :: 0 <= i < |r| ==> Keep(r[i], query, category)
  {
    FilterIsSubsequence(books, (b: Book) => Keep(b, query, category));
    FilterAll(books, (b: Book) => Keep(b, query, category));
    Filter(books, (b: Book) => Keep(b, query, category))
  }

  /**
   * A book of the catalog is shown exactly when the lower-cased query occurs
   * in its lower-cased title or author, and the category is the wildcard or its own.
   */
  lemma FilteredMembership(books: seq<Book>, query: string, category: string, book: Book)
    ensures book in FilteredBooks(books, query, category) <==>
      book in books &&
      ((exists i :: OccursAt(Lower(book.title), Lower(query), i)) ||
       (exists i :: OccursAt(Lower(book.author), Lower(query), i))) &&
      (category == "All" || book.category == category)
  {
    FilterMembership(books, (b: Book) => Keep(b, query, category), book);
    assert Keep(book, query, category) <==>
      (Includes(Lower(book.title), Lower(query)) || Includes(Lower(book.author), Lower(query))) &&
      (category == "All" || book.category == category);
    IncludesIffOccurs(Lower(book.title), Lower(query));
    IncludesIffOccurs(Lower(book.author), Lower(query));
  }

  /** With the initial filters (empty query, `"All"`) every book is shown. */
  lemma InitialFiltersShowAll(books: seq<Book>)
    ensures FilteredBooks(books, "", AllCategories) == books
  {
    forall i | 0 <= i < |books|
      ensures Keep(books[i], "", AllCategories)
    {
      IncludesEmpty(Lower(books[i].title));
    }
    FilterKeepsAll(books, (b: Book) => Keep(b, "", AllCategories));
  }

  /** Filtering the shown books again with the same filters changes nothing. */
  lemma FilteredIdempotent(books: seq<Book>, query: string, category: string)
    ensures FilteredBooks(FilteredBooks(books, query, category), query, category) ==
            FilteredBooks(books, query, category)
  {
    FilterIdempotent(books, (b: Book) => Keep(b, query, category));
  }

  /** The page's filter state. */
  class Books {
    var searchQuery: string
    var selectedCategory: string

    /** Initial state: empty query, `"All"` selected. */
    constructor ()
      ensures searchQuery == "" && selectedCategory == AllCategories
    {
      searchQuery := "";
      selectedCategory := AllCategories;
    }

    /** The books of `catalog` shown in the grid (the page passes the fixture's `Books`). */
    function Shown(catalog: seq<Book>): seq<Book>
      reads this
    {
      FilteredBooks(catalog, searchQuery, selectedCategory)
    }

    /** The search box's `onChange`. */
    method SetSearchQuery(value: string)
      modifies this
      ensures searchQuery == value && selectedCategory == old(selectedCategory)
    {
      searchQuery := value;
    }

    /** A category button's `onClick`. */
    method SelectCategory(category: string)
      modifies this
      ensures selectedCategory == category && searchQuery == old(searchQuery)
    {
      selectedCategory := category;
    }

    /** "Clear filters": back to the initial state, so the whole catalog is shown again. */
    method ClearFilters()
      modifies this
      ensures searchQuery == "" && selectedCategory == AllCategories
      ensures forall catalog :: Shown(catalog) == catalog
    {
      searchQuery := "";
      selectedCategory := AllCategories;
      forall catalog: seq<Book> ensures Shown(catalog) == catalog {
        InitialFiltersShowAll(catalog);
      }
    }
  }
}
