# view::all, modelled in Dafny

range-v3's `view::all` (include/range/v3/view/all.hpp) takes a sequence-like
value and returns a non-owning view of it. It does so by overload selection
over the capabilities of the argument's type:

- an iterable that already derives from `range_base` (it is a view) is
  returned as it is, provided it does not own its elements;
- an iterable that is not a view but owns its elements (a container) must be
  an lvalue, and becomes an `iterator_range` of its begin and end, or, when it
  has a size that its cursors cannot recompute in constant time, a
  `sized_iterator_range` that also stores that size;
- anything else has no matching overload.

The model has three modules:

- `Iterators` (iterators.dfy): the cursors the views are made of. Random-access,
  forward and sentinel cursors are integer positions. A counted iterator carries
  a position and a count. A counted sentinel carries only a count. The helpers
  `Steps` (walk from a begin to an end) and `Advance` (increment n times) say
  what a size means for these cursors; all.hpp itself never traverses.
- `ViewAll` (all.dfy): the file itself. `Input` holds the capability facts of
  the argument type: `Iterable<T>`, `is_iterable<T>`, `owns_its_elements_t<T>`,
  whether it is an lvalue, `range_concept_t<T>`, and the answers of
  `ranges::begin`, `ranges::end` and `ranges::size`. `ContainerViewAll2` and
  `ContainerViewAll` are the two `detail` overload sets. `Invoke` is
  `all_getter::invoke`. A build that the compiler refuses is a `Rejected`
  result carrying the diagnostic. The RANGES_ASSERT of the counted overloads
  is a precondition. `Classify` is a flat decision list over the capability
  flags, and `Invoke`'s postcondition ties the nested overload selection to it.
- `ViewAllProperties` (all_properties.dfy): what the dispatch promises. It
  covers pass-through, the three rejections, which views store a size, and
  that no size is lost.

Two points of the selection the model takes from the code:

- An iterable that is neither a view nor an owner of its elements is rejected
  (no `invoke` overload matches, all.hpp:109-123). It does not fall back to
  pass-through.
- The counted `container_view_all2` overloads are chosen before the
  random-access one, as the most specialised. An unsized container always
  becomes a plain pair, whatever its cursors are (all.hpp:68-80).

## Model

| member | source | states |
|---|---|---|
| `ViewAll.ContainerViewAll2` | include/range/v3/view/all.hpp:37-66 | the view keeps the given begin and end; it stores a size exactly when the pair is neither same-type random-access nor counted, and then the size stored is the size given; a counted pair's size equals its count difference (the RANGES_ASSERT) |
| `ViewAll.ContainerViewAll` | include/range/v3/view/all.hpp:68-96 | a container's view keeps its begin and end; it stores a size exactly when the concept is sized and the cursors cannot recompute it, and then the stored size is ranges::size(t) |
| `ViewAll.Invoke` | include/range/v3/view/all.hpp:106-130 | view::all realises the one outcome the capability flags select: pass-through of the argument itself, a plain pair, a sized pair with the argument's size, or one of the three build-time rejections |
| `ViewAllProperties.OverloadsExclusive` | include/range/v3/view/all.hpp:109-123 | the two invoke overloads are never both viable |
| `ViewAllProperties.AlreadyAViewPassesThrough` | include/range/v3/view/all.hpp:108-117 | the result is the argument passed through exactly when it is iterable, derives from range_base and does not own its elements, and then it is the argument unchanged |
| `ViewAllProperties.OwningViewRejected` | include/range/v3/view/all.hpp:114-115 | a range_base type that owns its elements is rejected for lacking reference semantics, whether lvalue or not |
| `ViewAllProperties.TemporaryContainerRejected` | include/range/v3/view/all.hpp:120-128 | a non-view iterable that owns its elements is rejected as a temporary container exactly when it is not an lvalue |
| `ViewAllProperties.NeitherViewNorOwnerRejected` | include/range/v3/view/all.hpp:109-123 | a non-iterable, or an iterable that neither derives from range_base nor owns its elements, matches no overload and has no fallback |
| `ViewAllProperties.BuiltViewsKeepCursors` | include/range/v3/view/all.hpp:119-130 | every view that is not the argument itself comes from an lvalue owning non-view iterable and holds that argument's begin and end |
| `ViewAllProperties.UnsizedContainerGivesPlainPair` | include/range/v3/view/all.hpp:68-80 | an Iterable or Range container becomes a plain begin/end pair with no size |
| `ViewAllProperties.SizedRandomAccessDropsSize` | include/range/v3/view/all.hpp:37-43 | a sized container with same-type random-access cursors becomes a plain pair, and its result does not depend on the size supplied |
| `ViewAllProperties.SizedCountedDropsSize` | include/range/v3/view/all.hpp:52-66 | a sized container with a counted begin and a counted end, whose size is the count difference, satisfies the assertion and becomes a plain pair |
| `ViewAllProperties.CountedSizeMismatchViolatesAssertion` | include/range/v3/view/all.hpp:56-64 | for a sized counted container the assertion holds exactly when size == end.count() - begin.count() |
| `ViewAllProperties.OtherSizedStoresSize` | include/range/v3/view/all.hpp:45-50 | any other sized container becomes a sized_iterator_range of exactly its begin, end and size |
| `ViewAllProperties.SizeStoredOnlyWhenNeeded` | include/range/v3/view/all.hpp:82-96 | a stored size only appears for a sized concept whose cursors cannot recompute it, and it is the argument's size unchanged |
| `ViewAllProperties.SizedInputKeepsSize` | include/range/v3/view/all.hpp:82-96 | when ranges::size is the true element count, the view reports that size in constant time, stored or recomputed, and advancing its begin by it reaches its end |
| `ViewAllProperties.ArrayOfFive` | include/range/v3/view/all.hpp:37-43 | an lvalue array of five ints becomes a plain random-access pair whose size, 5, comes from its cursors |
| `ViewAllProperties.ForwardListOfThree` | include/range/v3/view/all.hpp:75-80 | an lvalue forward list of three becomes a plain pair with no constant-time size, three steps long |

## Left out

- The meaning of `ranges::size`, `iterator_range`, `sized_iterator_range` and the concept predicates is external to this file. The answers of `ranges::begin`, `ranges::end` and `ranges::size` enter as fields of `Input`; the cursors they return are `Iterators.Cursor` values, kept to positions and counts.
- The cursor model assumes one thing about counted_iterator and counted_sentinel, whose headers are not part of this model: a counted iterator's count rises by one on each increment, and `==` against a counted sentinel (or another counted iterator) compares counts. That assumption is what makes the assertion at all.hpp:56 and all.hpp:64 mean "the size is the element count", and `SizedInputKeepsSize` depends on it.
- How `owns_its_elements_t` is computed (comparing the reference types reached through `T&` and `T const&`) is C++ type identity. It is a boolean flag.
- The `bindable<all_getter>` pipe glue and `std::forward` value-category mechanics are left out; only an is-lvalue flag remains.
- `range_view_all_t` is a type alias with no behaviour of its own.
- The `char const *` TODO is unimplemented in the source.
- `Invoke`: RANGES_ASSERT is a precondition in every build. Its being compiled out in release builds is not modelled.
- `ContainerViewAll2`: sizes are unbounded naturals, so `static_cast<Size>` of a negative count difference wrapping to a large unsigned value is not modelled.
- `ContainerViewAll2`: a counted_iterator over a random-access iterator would also satisfy the random-access overload. The model takes the counted overload for it as the most specialised.
- `ContainerViewAll`: `iterator_range<I>` (Range tag) and `iterator_range<I, S>` (Iterable tag) are one `IteratorRange` constructor. The type-level difference between them is not kept.
