/** Method slots as the shimmer library leaves them. A slot holds either the
    library's own function or a wrapper that remembers the function it
    replaced; `unwrap` puts that function back. */
module Shimmer {

  datatype Slot = Original | Wrapped(inner: Slot)

  /** Number of wrappers stacked on the library's own function; each one
      opens its own span when called. */
  function Depth(s: Slot): nat
  {
    match s
    case Original => 0
    case Wrapped(inner) => Depth(inner) + 1
  }

  /** `shimmer.wrap(obj, name, patcher)`: the slot now holds a wrapper
      around whatever it held before; wrapping a wrapped slot stacks. */
  function Wrap(s: Slot): (r: Slot)
    ensures r.Wrapped? && Depth(r) == Depth(s) + 1
  {
    Wrapped(s)
  }

  /** `shimmer.unwrap(obj, name)`: restores what the outermost wrapper
      replaced; on a slot that is not wrapped it leaves the slot alone. */
  function Unwrap(s: Slot): (r: Slot)
    ensures Depth(r) == if s.Wrapped? then Depth(s) - 1 else 0
  {
    match s
    case Original => Original
    case Wrapped(inner) => inner
  }

  lemma UnwrapWrap(s: Slot)
    ensures Unwrap(Wrap(s)) == s
  {
  }

  /** A slot is instrumented at most once. */
  predicate AtMostOnce(s: Slot)
  {
    s == Original || s == Wrapped(Original)
  }
}
