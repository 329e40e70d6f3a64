/** The catalogue page (src/components/BookList/BookList.tsx): the filter
    sent with the book request, the genre and author choices derived from the
    books received, and the reading-progress percentages shown on the cards. */
module BookListPage {
  import opened Wrappers
  import opened Types

  /** `BookFilters`: a member is present only when its selection is. */
  datatype Filters = Filters(genre: Option<string>, author: Option<string>)

  /** What `getBooks` delivered: a thrown error with its message, a body that
      is not an array, or the books. */
  datatype BooksReply = Thrown(message: string) | NotAnArray | Books(books: seq<Book>)

  const InvalidBooksData := "Invalid books data received"
  const LoadFailed := "Failed to load books"

  /** `{...(selectedGenre && {genre}), ...(selectedAuthor && {author})}`:
      an empty selection spreads nothing. */
  function BuildFilters(selectedGenre: string, selectedAuthor: string): (f: Filters)
    ensures f.genre.Some? <==> selectedGenre != ""
    ensures f.author.Some? <==> selectedAuthor != ""
    ensures f.genre.Some? ==> f.genre.value == selectedGenre
    ensures f.author.Some? ==> f.author.value == selectedAuthor
  {
    Filters(if selectedGenre != "" then Some(selectedGenre) else None,
            if selectedAuthor != "" then Some(selectedAuthor) else None)
  }

  predicate Distinct(xs: seq<string>) {
    forall i, j :: 0 <= i < j < |xs| ==> xs[i] != xs[j]
  }

  /** `[...new Set(xs)]`: a `Set` keeps its elements in insertion order, so
      each value appears once, where it first appeared. */
  function Unique(xs: seq<string>): (r: seq<string>)
    ensures forall x :: x in r <==> x in xs
    ensures Distinct(r)
    decreases |xs|
  {
    if xs == [] then []
    else
      var u := Unique(xs[..|xs| - 1]);
      var last := xs[|xs| - 1];
      assert forall x :: x in xs <==> x in xs[..|xs| - 1] || x == last;
      if last in u then u else u + [last]
  }

  /** The index of the first occurrence of `x` in `xs`. */
  function FirstIndex(xs: seq<string>, x: string): (i: nat)
    requires x in xs
    ensures i < |xs| && xs[i] == x
    ensures forall j :: 0 <= j < i ==> xs[j] != x
  {
    if xs[0] == x then 0 else 1 + FirstIndex(xs[1..], x)
  }

  lemma FirstIndexOfExtension(ys: seq<string>, y: string, x: string)
    requires x in ys
    ensures FirstIndex(ys + [y], x) == FirstIndex(ys, x)
  {
    assert (ys + [y])[FirstIndex(ys, x)] == x;
  }

  /** The de-duplicated list is ordered by first occurrence. */
  lemma {:induction false} UniqueKeepsFirstOccurrenceOrder(xs: seq<string>)
    ensures forall i, j :: 0 <= i < j < |Unique(xs)| ==>
      FirstIndex(xs, Unique(xs)[i]) < FirstIndex(xs, Unique(xs)[j])
    decreases |xs|
  {
    if xs != [] {
      var ys := xs[..|xs| - 1];
      var last := xs[|xs| - 1];
      assert xs == ys + [last];
      UniqueKeepsFirstOccurrenceOrder(ys);
      var u := Unique(ys);
      var r := Unique(xs);
      forall x | x in u ensures FirstIndex(xs, x) == FirstIndex(ys, x) {
        FirstIndexOfExtension(ys, last, x);
      }
      if last !in u {
        assert last !in ys;
        assert FirstIndex(xs, last) == |ys|;
      }
      forall i, j | 0 <= i < j < |r| ensures FirstIndex(xs, r[i]) < FirstIndex(xs, r[j]) {
        assert r[i] in u;
        if j < |u| {
          assert r[j] in u;
        }
      }
    }
  }

  function GenresOf(books: seq<Book>): (r: seq<string>)
    ensures |r| == |books| && forall i :: 0 <= i < |books| ==> r[i] == books[i].genre
  {
    seq(|books|, i requires 0 <= i < |books| => books[i].genre)
  }

  function AuthorsOf(books: seq<Book>): (r: seq<string>)
    ensures |r| == |books| && forall i :: 0 <= i < |books| ==> r[i] == books[i].author
  {
    seq(|books|, i requires 0 <= i < |books| => books[i].author)
  }

  /** The `reduce` that turns the `getAllProgress` map into the percentage
      per book, filling its accumulator one entry at a time. */
  method BuildProgressMap(all: map<string, Progress>) returns (m: map<string, real>)
    ensures m.Keys == all.Keys
    ensures forall k :: k in m ==> m[k] == all[k].progress
  {
    m := map[];
    var todo := all.Keys;
    while todo != {}
      invariant todo <= all.Keys
      invariant m.Keys == all.Keys - todo
      invariant forall k :: k in m ==> m[k] == all[k].progress
      decreases todo
    {
      var bookId :| bookId in todo;
      m := m[bookId := all[bookId].progress];
      todo := todo - {bookId};
    }
  }

  /** A card shows its progress bar and "Continue Reading" exactly when the
      book's percentage is present and non-zero. */
  predicate ContinueReading(readingProgress: map<string, real>, bookId: string) {
    bookId in readingProgress && readingProgress[bookId] != 0.0
  }

  /** A percentage the reader computes for a page in range is never zero, so a
      book with such a record shows "Continue Reading". */
  lemma SavedPageShowsContinue(m: map<string, real>, bookId: string, page: int, pages: int)
    requires 1 <= page <= pages
    requires bookId in m && m[bookId] * (pages as real) == (page as real) * 100.0
    ensures ContinueReading(m, bookId)
  {
  }

  class BookList {
    var books: seq<Book>
    var genres: seq<string>
    var authors: seq<string>
    var selectedGenre: string
    var selectedAuthor: string
    var readingProgress: map<string, real>
    var loading: bool
    var error: Option<string>

    constructor ()
      ensures books == [] && genres == [] && authors == []
      ensures selectedGenre == "" && selectedAuthor == ""
      ensures readingProgress == map[] && loading && error.None?
    {
      books, genres, authors := [], [], [];
      selectedGenre, selectedAuthor := "", "";
      readingProgress := map[];
      loading, error := true, None;
    }

    /** The page after `loadBooks` has handled `reply`: an array of books
        replaces the list and the choices; a body that is not an array, or a
        thrown error, sets its message and empties the list, leaving the
        choices as they were (`priorGenres`, `priorAuthors`). */
    ghost predicate ReloadedFrom(reply: BooksReply, priorGenres: seq<string>, priorAuthors: seq<string>)
      reads this
    {
      && !loading
      && (reply.Books? ==>
            && error.None? && books == reply.books
            && genres == Unique(GenresOf(reply.books)) && authors == Unique(AuthorsOf(reply.books)))
      && (!reply.Books? ==> books == [] && genres == priorGenres && authors == priorAuthors)
      && (reply.NotAnArray? ==> error == Some(InvalidBooksData))
      && (reply.Thrown? ==> error == Some(if reply.message != "" then reply.message else LoadFailed))
    }

    /** `loadBooks`: the request carries the filters built from the
        selections; an array of books replaces the list and the choices, any
        failure sets the error and empties the list. */
    method LoadBooks(reply: BooksReply) returns (filters: Filters)
      modifies this`books, this`genres, this`authors, this`loading, this`error
      ensures filters == BuildFilters(selectedGenre, selectedAuthor)
      ensures ReloadedFrom(reply, old(genres), old(authors))
    {
      loading := true;
      error := None;
      filters := BuildFilters(selectedGenre, selectedAuthor);
      match reply {
        case Books(bs) =>
          books := bs;
          genres := Unique(GenresOf(bs));
          authors := Unique(AuthorsOf(bs));
        case NotAnArray =>
          error := Some(InvalidBooksData);
          books := [];
        case Thrown(message) =>
          error := Some(if message != "" then message else LoadFailed);
          books := [];
      }
      loading := false;
    }

    /** `loadProgress`, given what `getAllProgress` returned. */
    method LoadProgress(all: map<string, Progress>)
      modifies this`readingProgress
      ensures readingProgress.Keys == all.Keys
      ensures forall k :: k in readingProgress ==> readingProgress[k] == all[k].progress
    {
      readingProgress := BuildProgressMap(all);
    }

    /** A new genre selection; the effect that depends on it reloads the books. */
    method HandleGenreChange(value: string, reply: BooksReply) returns (filters: Filters)
      modifies this`selectedGenre, this`books, this`genres, this`authors, this`loading, this`error
      ensures selectedGenre == value && selectedAuthor == old(selectedAuthor)
      ensures filters == BuildFilters(value, old(selectedAuthor))
      ensures ReloadedFrom(reply, old(genres), old(authors))
    {
      selectedGenre := value;
      filters := LoadBooks(reply);
    }

    /** A new author selection; the books are reloaded likewise. */
    method HandleAuthorChange(value: string, reply: BooksReply) returns (filters: Filters)
      modifies this`selectedAuthor, this`books, this`genres, this`authors, this`loading, this`error
      ensures selectedAuthor == value && selectedGenre == old(selectedGenre)
      ensures filters == BuildFilters(old(selectedGenre), value)
      ensures ReloadedFrom(reply, old(genres), old(authors))
    {
      selectedAuthor := value;
      filters := LoadBooks(reply);
    }
  }
}
