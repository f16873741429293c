/**
 * What view::all promises, stated about the model in module ViewAll: which
 * inputs pass through, which are rejected and why, which views carry a size,
 * and that no size the input had is lost on the way.
 */
module ViewAllProperties {
  import opened Iterators
  import opened ViewAll

  datatype Option<T> = None | Some(value: T)

  /**
   * The size a view can report in constant time: the stored size of a
   * sized_iterator_range, the cursor distance of an iterator_range whose
   * cursors know it, and the argument's own size for a view passed through.
   */
  function ViewSize(v: View): Option<nat> {
    match v
    case PassThrough(x) => if x.concept.Sized() then Some(x.size) else None
    case IteratorRange(b, e) =>
      if ConstantTimeDistance(b, e) && Gap(b, e) >= 0 then Some(Gap(b, e)) else None
    case SizedIteratorRange(_, _, n) => Some(n)
  }

  /** At most one of the two `invoke` overloads is viable for any argument. */
  lemma OverloadsExclusive(x: Input)
    ensures !(ViewOverloadViable(x) && ContainerOverloadViable(x))
  {
  }

  /** An iterable that already is a view comes back as itself, and nothing else does. */
  lemma AlreadyAViewPassesThrough(x: Input)
    requires AssertionsHold(x)
    ensures Invoke(x).Built? && Invoke(x).view.PassThrough?
        <==> x.iterable && x.derivesFromRangeBase && !x.ownsElements
    ensures Invoke(x).Built? && Invoke(x).view.PassThrough? ==> Invoke(x).view.input == x
  {
  }

  /** A view type that owns its elements fails the reference-semantics static_assert. */
  lemma OwningViewRejected(x: Input)
    requires x.iterable && x.derivesFromRangeBase && x.ownsElements
    ensures Invoke(x) == Rejected(NotReferenceSemantics)
  {
  }

  /** A container that owns its elements is only viewed as an lvalue. */
  lemma TemporaryContainerRejected(x: Input)
    requires AssertionsHold(x)
    requires x.iterable && !x.derivesFromRangeBase && x.ownsElements
    ensures Invoke(x) == Rejected(TemporaryContainer) <==> !x.isLvalue
  {
  }

  /** No overload matches a non-iterable, or an iterable that is neither a view nor an owner. */
  lemma NeitherViewNorOwnerRejected(x: Input)
    requires !x.iterable || (!x.derivesFromRangeBase && !x.ownsElements)
    ensures Invoke(x) == Rejected(NoViableOverload)
  {
  }

  /** The only successful results are the argument itself or a view of its own begin and end. */
  lemma BuiltViewsKeepCursors(x: Input)
    requires AssertionsHold(x)
    requires Invoke(x).Built? && !Invoke(x).view.PassThrough?
    ensures Invoke(x).view.begin == x.begin && Invoke(x).view.end == x.end
    ensures x.iterable && !x.derivesFromRangeBase && x.ownsElements && x.isLvalue
  {
  }

  /** A container with no size query becomes a plain begin/end pair. */
  lemma UnsizedContainerGivesPlainPair(x: Input)
    requires ContainerOverloadViable(x) && x.isLvalue && !x.concept.Sized()
    ensures Invoke(x) == Built(IteratorRange(x.begin, x.end))
  {
  }

  /** A sized container with same-type random-access cursors drops its size. */
  lemma SizedRandomAccessDropsSize(x: Input, size: nat)
    requires ContainerOverloadViable(x) && x.isLvalue && x.concept.Sized()
    requires x.begin.RandomAccess? && x.end.RandomAccess?
    ensures Invoke(x) == Built(IteratorRange(x.begin, x.end))
    ensures Invoke(x) == Invoke(x.(size := size))
  {
  }

  /** A sized container with counted cursors and a consistent size drops its size. */
  lemma SizedCountedDropsSize(x: Input)
    requires ContainerOverloadViable(x) && x.isLvalue && x.concept.Sized()
    requires x.begin.Counted? && (x.end.Counted? || x.end.CountedEnd?)
    requires x.size == x.end.count - x.begin.count
    ensures AssertionsHold(x)
    ensures Invoke(x) == Built(IteratorRange(x.begin, x.end))
  {
  }

  /** A counted container whose size disagrees with its counts fails the RANGES_ASSERT. */
  lemma CountedSizeMismatchViolatesAssertion(x: Input)
    requires ContainerOverloadViable(x) && x.isLvalue && x.concept.Sized()
    requires x.begin.Counted? && (x.end.Counted? || x.end.CountedEnd?)
    ensures AssertionsHold(x) <==> x.size == x.end.count - x.begin.count
  {
  }

  /** Any other sized container stores exactly the size, begin and end it was given. */
  lemma OtherSizedStoresSize(x: Input)
    requires ContainerOverloadViable(x) && x.isLvalue && x.concept.Sized()
    requires !ConstantTimeDistance(x.begin, x.end)
    ensures Invoke(x) == Built(SizedIteratorRange(x.begin, x.end, x.size))
  {
  }

  /** A size is stored only when the cursors cannot recompute it. */
  lemma SizeStoredOnlyWhenNeeded(x: Input)
    requires AssertionsHold(x)
    requires Invoke(x).Built? && Invoke(x).view.SizedIteratorRange?
    ensures !ConstantTimeDistance(x.begin, x.end) && x.concept.Sized()
    ensures Invoke(x).view.size == x.size
  {
  }

  /**
   * No size is lost: when `ranges::size` tells the truth (it counts the
   * increments from begin to end), the view reports that size in constant
   * time, whether it stored it or recomputes it from its cursors, and
   * advancing the view's begin by that size reaches the view's end.
   */
  lemma SizedInputKeepsSize(x: Input)
    requires AssertionsHold(x)
    requires x.concept.Sized() && Bounded(x.begin, x.end)
    requires x.size == Steps(x.begin, x.end)
    requires Invoke(x).Built?
    ensures ViewSize(Invoke(x).view) == Some(x.size)
    ensures var v := Invoke(x).view;
      !v.PassThrough? ==> Comparable(Advance(v.begin, x.size), v.end) && AtEnd(Advance(v.begin, x.size), v.end)
  {
  }

  /** A fixed array of five ints: a random-access pair that reports size 5 without storing it. */
  lemma ArrayOfFive()
    ensures var x := Input(true, false, true, true, SizedRange, RandomAccess(0), RandomAccess(5), 5);
      && Invoke(x) == Built(IteratorRange(RandomAccess(0), RandomAccess(5)))
      && ViewSize(Invoke(x).view) == Some(5)
  {
  }

  /** A forward-only list of three: a plain pair with no constant-time size. */
  lemma ForwardListOfThree()
    ensures var x := Input(true, false, true, true, Range, Forward(0), Forward(3), 0);
      && Invoke(x) == Built(IteratorRange(Forward(0), Forward(3)))
      && ViewSize(Invoke(x).view) == None
      && Steps(Forward(0), Forward(3)) == 3
  {
  }
}
