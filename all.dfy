/**
 * view::all (include/range/v3/view/all.hpp): turn a sequence-like value into
 * a non-owning view of it.
 *
 * The C++ code is overload and tag selection over the static capabilities of
 * the argument's type; here those capabilities are the fields of an `Input`
 * record and each overload set becomes a function that picks the overload the
 * compiler would pick. A build that the compiler refuses (no viable overload,
 * a failing static_assert) is a `Rejected` result; the run-time RANGES_ASSERT
 * on counted cursors is a precondition.
 */
module ViewAll {
  import opened Iterators

  /** range_concept_t<T>: the most refined concept tag the argument satisfies. */
  datatype Concept = Iterable | Range | SizedIterable | SizedRange {
    /** `ranges::size(t)` exists. */
    predicate Sized() {
      SizedIterable? || SizedRange?
    }
  }

  /** What the dispatch can learn about an argument `T&& t` of view::all. */
  datatype Input = Input(
    iterable: bool,             // Iterable<T>()
    derivesFromRangeBase: bool, // std::is_base_of<range_base, T>: it is already a view
    ownsElements: bool,         // detail::owns_its_elements_t<T>
    isLvalue: bool,             // std::is_lvalue_reference<T>
    concept: Concept,           // range_concept_t<T>
    begin: Cursor,              // ranges::begin(t)
    end: Cursor,                // ranges::end(t)
    size: nat                   // ranges::size(t); only consulted for a sized concept
  )

  /** What view::all returns. */
  datatype View =
    | PassThrough(input: Input)                                  // T itself, forwarded
    | IteratorRange(begin: Cursor, end: Cursor)                  // iterator_range<I, S>
    | SizedIteratorRange(begin: Cursor, end: Cursor, size: nat)  // sized_iterator_range<I, S>

  /** The compile-time diagnostics view::all can produce. */
  datatype Diagnostic =
    | NoViableOverload      // neither `invoke` overload's constraints hold
    | NotReferenceSemantics // "Ranges should have reference semantics."
    | TemporaryContainer    // "Cannot get a view of a temporary container"

  /** The outcome of compiling and running `view::all(t)`. */
  datatype Result = Built(view: View) | Rejected(diagnostic: Diagnostic)

  /** The source's `is_iterable<T>`: T derives from range_base, so it already is a view. */
  predicate DerivesFromRangeBase(x: Input) {
    x.derivesFromRangeBase
  }

  /** The four `container_view_all2` overloads. */
  datatype PairOverload = CountedWithSentinel | CountedPair | SameRandomAccess | Generic

  /**
   * The `container_view_all2` overload that overload resolution picks for a
   * begin/end pair: the counted overloads are the most specialised, then the
   * one whose begin and end are the same random-access type, then the
   * unconstrained one.
   */
  function SelectPairOverload(b: Cursor, e: Cursor): PairOverload {
    if b.Counted? && e.CountedEnd? then CountedWithSentinel
    else if b.Counted? && e.Counted? then CountedPair
    else if b.RandomAccess? && e.RandomAccess? then SameRandomAccess
    else Generic
  }

  /** RANGES_ASSERT of the counted overloads: the size is the count difference. */
  predicate SizeAssertion(b: Cursor, e: Cursor, size: nat) {
    b.Counted? && (e.Counted? || e.CountedEnd?) ==> size == e.count - b.count
  }

  /**
   * detail::container_view_all2(begin, end, size): keep the size only when
   * the cursors cannot give it back in constant time.
   */
  function ContainerViewAll2(b: Cursor, e: Cursor, size: nat): (v: View)
    requires SizeAssertion(b, e, size)
    ensures !v.PassThrough? && v.begin == b && v.end == e
    ensures v.SizedIteratorRange? <==> !ConstantTimeDistance(b, e)
    ensures v.SizedIteratorRange? ==> v.size == size
    ensures v.IteratorRange? && b.Counted? ==> Gap(b, e) == size
  {
    match SelectPairOverload(b, e)
    case CountedWithSentinel => IteratorRange(b, e)
    case CountedPair => IteratorRange(b, e)
    case SameRandomAccess => IteratorRange(b, e)
    case Generic => SizedIteratorRange(b, e, size)
  }

  /** The RANGES_ASSERT that `container_view_all(t, tag)` reaches, if any, holds. */
  predicate ContainerAssertion(x: Input) {
    x.concept.Sized() ==> SizeAssertion(x.begin, x.end, x.size)
  }

  /**
   * detail::container_view_all(t, range_concept_t<T>{}): an unsized container
   * becomes a plain begin/end pair, a sized one is handed to
   * `container_view_all2` together with its size.
   */
  function ContainerViewAll(x: Input): (v: View)
    requires ContainerAssertion(x)
    ensures !v.PassThrough? && v.begin == x.begin && v.end == x.end
    ensures v.SizedIteratorRange? <==> x.concept.Sized() && !ConstantTimeDistance(x.begin, x.end)
    ensures v.SizedIteratorRange? ==> v.size == x.size
  {
    match x.concept
    case Iterable => IteratorRange(x.begin, x.end)
    case Range => IteratorRange(x.begin, x.end)
    case SizedIterable => ContainerViewAll2(x.begin, x.end, x.size)
    case SizedRange => ContainerViewAll2(x.begin, x.end, x.size)
  }

  /** The first `invoke` overload is viable: an iterable that is already a view. */
  predicate ViewOverloadViable(x: Input) {
    x.iterable && DerivesFromRangeBase(x)
  }

  /** The second `invoke` overload is viable: an iterable container that owns its elements. */
  predicate ContainerOverloadViable(x: Input) {
    x.iterable && !DerivesFromRangeBase(x) && x.ownsElements
  }

  /** Every RANGES_ASSERT that `view::all(x)` reaches holds. */
  predicate AssertionsHold(x: Input) {
    ContainerOverloadViable(x) && x.isLvalue ==> ContainerAssertion(x)
  }

  /** The dispatch outcomes, and the three rejections. */
  datatype Outcome =
    | PassThroughOutcome
    | BoundedPair
    | RandomAccessPair
    | CountedPairDerivedSize
    | SizedPairWithStoredSize
    | Reject(diagnostic: Diagnostic)

  /**
   * The selection as one flat decision list over the capability flags, in
   * priority order: a reference definition for `Invoke`, which follows the
   * nesting of the overloads instead.
   */
  function Classify(x: Input): Outcome {
    if !x.iterable then Reject(NoViableOverload)
    else if x.derivesFromRangeBase && x.ownsElements then Reject(NotReferenceSemantics)
    else if x.derivesFromRangeBase then PassThroughOutcome
    else if !x.ownsElements then Reject(NoViableOverload)
    else if !x.isLvalue then Reject(TemporaryContainer)
    else if !x.concept.Sized() then BoundedPair
    else if x.begin.Counted? && (x.end.Counted? || x.end.CountedEnd?) then CountedPairDerivedSize
    else if x.begin.RandomAccess? && x.end.RandomAccess? then RandomAccessPair
    else SizedPairWithStoredSize
  }

  /** The result `r` of view::all on `x` is the one outcome `o` stands for. */
  predicate Realises(o: Outcome, x: Input, r: Result) {
    match o
    case Reject(d) => r == Rejected(d)
    case PassThroughOutcome => r == Built(PassThrough(x))
    case BoundedPair => r == Built(IteratorRange(x.begin, x.end))
    case RandomAccessPair => r == Built(IteratorRange(x.begin, x.end))
    case CountedPairDerivedSize => r == Built(IteratorRange(x.begin, x.end))
    case SizedPairWithStoredSize => r == Built(SizedIteratorRange(x.begin, x.end, x.size))
  }

  /**
   * view::all(t), i.e. all_getter::invoke: pass a view through, turn an
   * lvalue container into an iterator range, reject everything else.
   */
  function Invoke(x: Input): (r: Result)
    requires AssertionsHold(x)
    ensures Realises(Classify(x), x, r)
  {
    if ViewOverloadViable(x) then
      if x.ownsElements then Rejected(NotReferenceSemantics)
      else Built(PassThrough(x))
    else if ContainerOverloadViable(x) then
      if !x.isLvalue then Rejected(TemporaryContainer)
      else Built(ContainerViewAll(x))
    else
      Rejected(NoViableOverload)
  }
}
