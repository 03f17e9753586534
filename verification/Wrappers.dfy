/** An optional value, octets, and a fact about multisets. */
module Wrappers {

  type Byte = x: int | 0 <= x < 0x100

  datatype Option<+T> = None | Some(value: T) {
    predicate IsFailure() { None? }
    function PropagateFailure<U>(): Option<U> requires None? { None }
    function Extract(): T requires Some? { value }
  }

  /** Taking one more out of a multiset. */
  lemma TakeOneMore<T>(all: multiset<T>, some: multiset<T>, x: T)
    requires some <= all
    ensures some + multiset{x} <= all <==> x in all - some
    ensures x in all - some ==> all - (some + multiset{x}) == all - some - multiset{x}
  {
    if x in all - some {
      assert forall y :: (some + multiset{x})[y] <= all[y];
    } else {
      assert (some + multiset{x})[x] > all[x];
    }
  }
}
