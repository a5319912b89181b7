# Library book service — Dafny model

A model of the `library` package's core, `library/book.go`: the `Book`
record, its business equality `BookEqual`, and `BookService`, a thin layer
over the `Storage` interface that lists all books, lists books by author,
and fetches a book by id while adding one to its read counter.

Files:

- `goint.dfy` (module `GoInt`): Go's `int`, taken as 64-bit, and the
  wrap-around of `Count += 1` at the top of its range.
- `book.dfy` (module `Books`): the `Book` record and `BookEqual` with its
  laws.
- `service.dfy` (module `Service`): the `Storage` interface, the Go
  `(slice, error)` and `(Book, error)` result pairs, and the three
  `BookService` operations.

A storage backend is modelled by the answers its four calls give: a
`Storage` value holds one total function per interface method. Each service
operation calls each storage method at most once, so nothing is lost by
making those calls pure. To state what happens across several `GetByID`
calls, `Service.Holding(b)` answers `b` to every `Get` and echoes `Save`'s
argument; `Service.Refetch` threads each returned book into the next
`Holding`, which models a store that persists what it saves.

`GetByID` really performs `Count += 1` on a Go `int`. The model keeps the
wrap-around: a counter of `MaxInt` becomes `MinInt`. Below `MaxInt` the
saved counter is exactly one higher (`Service.GetByIDSavesIncrement`). The
result type of `GetByID` has no error component, so a `Save` error cannot
reach the caller (`Service.GetByIDDropsSaveError`).

## Model

| member | source | states |
|---|---|---|
| `GoInt.Wrap` | library/book.go:27 | Go's signed-overflow reference: the result lies in the 64-bit range, differs from the unbounded value by a multiple of 2^64, and is the value itself when that is already in range |
| `GoInt.Inc` | library/book.go:27 | `Count += 1` on a Go `int` is the wrapped successor for every 64-bit value, so `MaxInt` becomes `MinInt` |
| `Books.BookEqual` | library/book.go:10-12 | two books are equal exactly when their (author, name) keys coincide |
| `Books.BookEqualIgnoresIdAndCount` | library/book.go:11 | replacing the id and counter of either argument never changes the verdict |
| `Books.BookEqualIsEquivalence` | library/book.go:11 | business equality is reflexive, symmetric and transitive |
| `Books.BookEqualRefinedIsIdentity` | library/book.go:3-12 | identical records are business-equal; business equality plus equal id and counter is exactly structural equality |
| `Books.BookEqualExamples` | library/book_test.go:24-43 | same title and author gives true; a different title with the same author gives false |
| `Service.PassThrough` | library/book.go:33-37 | the error is returned unchanged; with an error the slice is nil; without one the slice is the one given |
| `Service.PassThroughNormalises` | library/book.go:33-37 | the pass-through leaves a result unchanged exactly when it already follows Go's nil-slice-with-error convention; it always produces such a result and is idempotent |
| `Service.GetAll` | library/book.go:32-38 | the error of `GetAllBooks` is returned unwrapped; with an error the slice is nil; otherwise the slice equals storage's (same length, order and elements) |
| `Service.GetByAuthor` | library/book.go:40-46 | storage is queried with the given author; its error is returned unwrapped with a nil slice; otherwise its slice is returned |
| `Service.GetByAuthorForwardsAuthor` | library/book.go:41 | two storages that answer the same for that author give the same result, so the author is forwarded unchanged and nothing else is consulted |
| `Service.GetByID` | library/book.go:25-30 | the record saved keeps the read book's id, name and author and has its counter advanced by one with 64-bit wrap-around; the returned book is the book `Save` returns |
| `Service.GetByIDSavesIncrement` | library/book_test.go:197-200 | the saved record is business-equal to the one read; below `MaxInt` it is that record with the counter one higher; at `MaxInt` the counter becomes `MinInt` |
| `Service.GetByIDDropsSaveError` | library/book.go:28-29 | substituting any error (or none) into `Save`'s answer leaves both the saved and the returned record unchanged |
| `Service.RefetchCounts` | library/book.go:25-30 | `n` chained fetches, each reading the book the previous one saved, return the book with counter `count + n` wrapped to 64 bits and everything else unchanged; without overflow exactly `count + n` |
| `Service.GetByIDExample` | library/book_test.go:196-206 | reading the book with counter 1 saves and returns it with counter 2 |

## Left out

- `library/storage.go`: the SQL-backed storage is database plumbing (query execution, cursor handling, `rows.Scan` conversions), and its `GetAllBooks`, `GetBooksByAuthor`, `Get` and `Save` are stubs. Its `GetBooksByName` filters on the `author` column despite its name; that is not modelled either.
- Storage state across calls: a backend is the set of answers it gives. Only `Service.Refetch`, by handing each saved book to a fresh `Service.Holding`, models a backend that persists what it saves.
- A nil `*BookService` receiver or a nil `storage` interface makes `GetByID`, `GetAll` and `GetByAuthor` panic (library/book.go:26, 33, 41); a `BookService` in the model always holds a total `Storage`.
- Go strings are byte strings and may hold invalid UTF-8; `name` and `author` are `seq<char>`, so exact equality is kept but not every Go string is representable.
- `return books, nil` hands back storage's own slice, sharing its backing array; a `seq` is a value, so the model promises only that the returned books are equal to storage's, not aliasing.
- The lost update when two `GetByID` calls for the same id interleave: the read-modify-write is not atomic, which is a concurrency matter outside a sequential model.
- A missing id in `Storage.Get`: the interface has no error channel and the package does not define that case; `get` is total in the model.
- `Books.BookEqual`: takes the books by value, whereas Go takes `*Book` and panics on a nil pointer; the nil case is not modelled.
- Go's `int` is taken to be 64 bits wide; on 32-bit platforms the wrap-around point differs.
- The gomock and sqlmock test doubles are not modelled; `Books.BookEqualExamples` and `Service.GetByIDExample` restate their cases.
