/** `BookService` over the `Storage` interface. A storage backend is given
    as the answers its four calls produce, so the model says nothing about
    how a backend stores books; every service operation consults each call
    at most once. */
module Service {
  import opened GoInt
  import opened Books

  datatype Option<T> = None | Some(value: T)

  /** An opaque Go `error` value; a nil error is `None`. */
  datatype Error = Error(message: string)

  /** The `([]Book, error)` pair returned by the list operations. `books` is
      `None` for a nil slice, which Go distinguishes from an empty one. */
  datatype Listing = Listing(books: Option<seq<Book>>, err: Option<Error>)

  /** The `(Book, error)` pair returned by `Save`. */
  datatype Saved = Saved(book: Book, err: Option<Error>)

  /** The `Storage` interface: what each of its methods answers. */
  datatype Storage = Storage(
    getAllBooks: () -> Listing,
    getBooksByAuthor: string -> Listing,
    get: Int -> Book,
    save: Book -> Saved)

  datatype BookService = BookService(storage: Storage)

  /** What `GetByID` does observably: the record handed to `Save`, and the
      record returned to the caller. */
  datatype Fetch = Fetch(saved: Book, returned: Book)

  /** Go's convention for a `(slice, error)` result: a non-nil error comes
      with a nil slice. */
  predicate Conventional(l: Listing) {
    l.err.Some? ==> l.books.None?
  }

  /** The error check shared by `GetAll` and `GetByAuthor`: on error, a nil
      slice and the same error; otherwise the slice as given. */
  function PassThrough(l: Listing): (r: Listing)
    ensures r.err == l.err
    ensures r.err.Some? ==> r.books.None?
    ensures r.err.None? ==> r.books == l.books
  {
    if l.err.Some? then Listing(None, l.err) else Listing(l.books, None)
  }

  /** The pass-through is the identity exactly on conventional results, and
      everything it returns is conventional, so applying it twice is the
      same as once. */
  lemma PassThroughNormalises(l: Listing)
    ensures PassThrough(l) == l <==> Conventional(l)
    ensures Conventional(PassThrough(l))
    ensures PassThrough(PassThrough(l)) == PassThrough(l)
  {
  }

  /** `GetAll`: the storage's books unchanged on success, its error
      unwrapped on failure. */
  function GetAll(svc: BookService): (r: Listing)
    ensures var l := svc.storage.getAllBooks();
      && r.err == l.err
      && (l.err.Some? ==> r.books.None?)
      && (l.err.None? ==> r.books == l.books)
  {
    PassThrough(svc.storage.getAllBooks())
  }

  /** `GetByAuthor`: asks storage with exactly the given author, then the
      same pass-through as `GetAll`. */
  function GetByAuthor(svc: BookService, author: string): (r: Listing)
    ensures var l := svc.storage.getBooksByAuthor(author);
      && r.err == l.err
      && (l.err.Some? ==> r.books.None?)
      && (l.err.None? ==> r.books == l.books)
  {
    PassThrough(svc.storage.getBooksByAuthor(author))
  }

  /** The answer depends on the storage only through its reply to the query
      for `author` itself: the argument is forwarded unchanged. */
  lemma GetByAuthorForwardsAuthor(s1: BookService, s2: BookService, author: string)
    requires s1.storage.getBooksByAuthor(author) == s2.storage.getBooksByAuthor(author)
    ensures GetByAuthor(s1, author) == GetByAuthor(s2, author)
  {
  }

  /** `GetByID`: read the book, add one to its counter, save it, and return
      whatever `Save` returns. `Save`'s error is discarded. */
  function GetByID(svc: BookService, id: Int): (r: Fetch)
    ensures var b := svc.storage.get(id);
      && r.saved.id == b.id && r.saved.name == b.name && r.saved.author == b.author
      && r.saved.count == Wrap(b.count + 1)
    ensures r.returned == svc.storage.save(r.saved).book
  {
    var b := svc.storage.get(id);
    var saved := b.(count := Inc(b.count));
    Fetch(saved, svc.storage.save(saved).book)
  }

  /** The record handed to `Save` is business-equal to the one read, and
      below the top of the `int` range its counter is exactly one higher. */
  lemma GetByIDSavesIncrement(svc: BookService, id: Int)
    ensures BookEqual(GetByID(svc, id).saved, svc.storage.get(id))
    ensures svc.storage.get(id).count < MaxInt ==>
      GetByID(svc, id).saved == svc.storage.get(id).(count := svc.storage.get(id).count + 1)
    ensures svc.storage.get(id).count == MaxInt ==>
      GetByID(svc, id).saved.count == MinInt
  {
  }

  /** The storage `svc` with `Save` failing (or succeeding) with `e`, but
      returning the same book. */
  function WithSaveError(svc: BookService, e: Option<Error>): (r: BookService) {
    var s := svc.storage;
    BookService(s.(save := (b: Book) => Saved(s.save(b).book, e)))
  }

  /** A `Save` error never reaches the caller: replacing it by any other
      outcome leaves `GetByID` unchanged. */
  lemma GetByIDDropsSaveError(svc: BookService, id: Int, e: Option<Error>)
    ensures GetByID(WithSaveError(svc, e), id) == GetByID(svc, id)
  {
  }

  /** A storage holding the single book `b`: every `Get` answers `b`, and
      `Save` echoes its argument with no error. It stores nothing itself;
      `Refetch` threads each returned book into the next `Holding`. */
  function Holding(b: Book): (r: BookService) {
    var listing := Listing(Some([b]), None);
    BookService(Storage(
      () => listing,
      (author: string) => if author == b.author then listing else Listing(Some([]), None),
      (id: Int) => b,
      (x: Book) => Saved(x, None)))
  }

  /** The book after `n` successive `GetByID(b.id)` calls against a store
      that persists what it saves: each call reads what the previous call
      saved. */
  function Refetch(b: Book, n: nat): (r: Book)
    decreases n
  {
    if n == 0 then b else Refetch(GetByID(Holding(b), b.id).returned, n - 1)
  }

  /** Every fetch adds exactly one to the counter (modulo Go's 64-bit
      wrap-around) and nothing else about the book changes. */
  lemma {:induction false} RefetchCounts(b: Book, n: nat)
    ensures Refetch(b, n) == b.(count := Wrap(b.count + n))
    ensures BookEqual(Refetch(b, n), b) && Refetch(b, n).id == b.id
    ensures b.count + n <= MaxInt ==> Refetch(b, n).count == b.count + n
    decreases n
  {
    if n > 0 {
      RefetchCounts(GetByID(Holding(b), b.id).returned, n - 1);
    }
  }

  /** The package's `GetByID` test: `Get(1)` answers the book with counter
      1, `Save` receives and returns it with counter 2. */
  lemma GetByIDExample()
    ensures var b := Book(1, "example 1", "author 1", 1);
      && GetByID(Holding(b), 1).saved == Book(1, "example 1", "author 1", 2)
      && GetByID(Holding(b), 1).returned == Book(1, "example 1", "author 1", 2)
  {
  }
}
