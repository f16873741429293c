/**
 * The iterator and sentinel primitives that view::all builds its views from,
 * reduced to what the dispatch needs to know about them: their kind, where
 * they point, and how far apart a begin and an end are.
 *
 * A plain iterator or sentinel is an integer position. A counted_iterator
 * wraps a position and a running count that goes up by one on every
 * increment; a counted_sentinel only records the count at which a traversal
 * stops. Only the positions matter here, never the elements behind them.
 */
module Iterators {

  /**
   * A begin or an end cursor of some sequence. "Same type" is modelled as
   * "same constructor": two `RandomAccess` cursors stand for one iterator
   * type, two `Counted` cursors (or a `Counted` and a `CountedEnd`) for one
   * wrapped iterator type. A random-access end of a different type, such as
   * a const_iterator facing an iterator, can only be written as a `Sentinel`.
   */
  datatype Cursor =
    | RandomAccess(index: int)        // a random-access iterator
    | Forward(index: int)             // an iterator without O(1) distance
    | Sentinel(index: int)            // an end marker of a type of its own
    | Counted(index: int, count: int) // counted_iterator<I>
    | CountedEnd(count: int)          // counted_sentinel<I>

  /** The cursor can be dereferenced and incremented. */
  predicate IsIterator(c: Cursor) {
    c.RandomAccess? || c.Forward? || c.Counted?
  }

  /** `++it`: a counted iterator advances its count together with its position. */
  function Next(it: Cursor): Cursor
    requires IsIterator(it)
  {
    match it
    case RandomAccess(i) => RandomAccess(i + 1)
    case Forward(i) => Forward(i + 1)
    case Counted(i, n) => Counted(i + 1, n + 1)
  }

  /** `it == end` is well-typed: the end is of the iterator's own type or is its sentinel. */
  predicate Comparable(it: Cursor, end: Cursor) {
    match it
    case RandomAccess(_) => end.RandomAccess? || end.Sentinel?
    case Forward(_) => end.Forward? || end.Sentinel?
    case Counted(_, _) => end.Counted? || end.CountedEnd?
    case _ => false
  }

  /**
   * How many increments separate `it` from `end`: counted cursors compare
   * their counts (`end.count() - it.count()`), all others their positions.
   */
  function Gap(it: Cursor, end: Cursor): int
    requires Comparable(it, end)
  {
    if it.Counted? then end.count - it.count else end.index - it.index
  }

  /** `it == end`. */
  predicate AtEnd(it: Cursor, end: Cursor)
    requires Comparable(it, end)
  {
    if it.Counted? then it.count == end.count else it.index == end.index
  }

  /** The end is reachable from `it` by incrementing. */
  predicate Bounded(it: Cursor, end: Cursor) {
    Comparable(it, end) && Gap(it, end) >= 0
  }

  /**
   * The pair knows its own distance without traversal: both are the same
   * random-access iterator type, or the begin is counted and the end is a
   * counted iterator or counted sentinel.
   */
  predicate ConstantTimeDistance(b: Cursor, e: Cursor) {
    (b.RandomAccess? && e.RandomAccess?) || (b.Counted? && (e.Counted? || e.CountedEnd?))
  }

  /**
   * The number of elements between `it` and `end`, found the slow way: by
   * incrementing `it` until it compares equal to `end`. Its contract is the
   * reason a random-access or counted pair needs no stored size: the walk
   * always takes exactly `Gap(it, end)` steps.
   */
  function Steps(it: Cursor, end: Cursor): (n: nat)
    requires Bounded(it, end)
    ensures n == Gap(it, end)
    decreases Gap(it, end)
  {
    if AtEnd(it, end) then 0 else 1 + Steps(Next(it), end)
  }

  /**
   * `ranges::next(it, n)`: increment `it` n times. The iterator keeps its
   * kind and moves n positions; a counted one also counts n further.
   */
  function Advance(it: Cursor, n: nat): (r: Cursor)
    requires IsIterator(it)
    ensures IsIterator(r) && r.index == it.index + n
    ensures it.RandomAccess? ==> r.RandomAccess?
    ensures it.Forward? ==> r.Forward?
    ensures it.Counted? ==> r.Counted? && r.count == it.count + n
    decreases n
  {
    if n == 0 then it else Advance(Next(it), n - 1)
  }
}
