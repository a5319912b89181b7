/** The `Book` record of the library package and its business equality,
    which compares titles and authors and ignores identity and the read
    counter. */
module Books {
  import opened GoInt

  datatype Book = Book(id: Int, name: string, author: string, count: Int)

  /** The part of a book that business equality looks at. */
  function Key(b: Book): (k: (string, string)) {
    (b.author, b.name)
  }

  /** `BookEqual`: same author and same title, compared exactly
      (case-sensitive, no normalisation). */
  predicate BookEqual(b1: Book, b2: Book)
    ensures BookEqual(b1, b2) <==> Key(b1) == Key(b2)
  {
    b1.author == b2.author && b1.name == b2.name
  }

  /** Changing the id or the counter of either argument never changes the
      verdict. */
  lemma BookEqualIgnoresIdAndCount(b1: Book, b2: Book, id: Int, count: Int)
    ensures BookEqual(b1.(id := id, count := count), b2) == BookEqual(b1, b2)
    ensures BookEqual(b1, b2.(id := id, count := count)) == BookEqual(b1, b2)
  {
  }

  /** Business equality is an equivalence relation on books. */
  lemma BookEqualIsEquivalence()
    ensures forall b: Book :: BookEqual(b, b)
    ensures forall b1: Book, b2: Book :: BookEqual(b1, b2) <==> BookEqual(b2, b1)
    ensures forall b1: Book, b2: Book, b3: Book ::
      BookEqual(b1, b2) && BookEqual(b2, b3) ==> BookEqual(b1, b3)
  {
  }

  /** Business equality is strictly coarser than record identity: together
      with equal ids and counters it is exactly structural equality. */
  lemma BookEqualRefinedIsIdentity(b1: Book, b2: Book)
    ensures b1 == b2 ==> BookEqual(b1, b2)
    ensures BookEqual(b1, b2) && b1.id == b2.id && b1.count == b2.count <==> b1 == b2
  {
  }

  /** The two cases of the package's table test: same title and author is
      equal, a different title with the same author is not. */
  lemma BookEqualExamples()
    ensures BookEqual(Book(0, "example 1", "author 1", 0), Book(0, "example 1", "author 1", 0))
    ensures !BookEqual(Book(0, "example 1", "author 1", 0), Book(0, "example 2", "author 1", 0))
  {
  }
}
