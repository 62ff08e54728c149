/**
 * utils/getFirstOption.ts: the index of the nearest item that is not
 * disabled, searching forwards or backwards from a base index.
 *
 * The DOM lookup `getItemNodeFromIndex(i).hasAttribute('disabled')` is
 * abstracted to a predicate `disabled(i)`; whether the lookup finds a node for
 * the base index at all is the flag `baseExists`.
 */
module GetFirstOption {

  /**
   * The first index in [from, itemCount) whose item is not disabled, or -1
   * when every item there is disabled (the forward loop at lines 22-26).
   */
  function FirstEnabledFrom(from: int, itemCount: int, disabled: int -> bool): (r: int)
    ensures r == -1 || (from <= r < itemCount && !disabled(r))
    ensures r != -1 ==> (forall i :: from <= i < r ==> disabled(i))
    ensures (forall i :: from <= i < itemCount ==> disabled(i)) ==> r == -1
    ensures r == -1 && from >= 0 ==> (forall i :: from <= i < itemCount ==> disabled(i))
    decreases itemCount - from
  {
    if from >= itemCount then -1
    else if !disabled(from) then from
    else FirstEnabledFrom(from + 1, itemCount, disabled)
  }

  /**
   * The last index in [0, last] whose item is not disabled, or -1 when every
   * item there is disabled (the backward loop at lines 28-32).
   */
  function LastEnabledUpTo(last: int, disabled: int -> bool): (r: int)
    ensures r == -1 || (0 <= r <= last && !disabled(r))
    ensures r != -1 ==> (forall i :: r < i <= last ==> disabled(i))
    ensures r == -1 <==> (forall i :: 0 <= i <= last ==> disabled(i))
    decreases last
  {
    if last < 0 then -1
    else if !disabled(last) then last
    else LastEnabledUpTo(last - 1, disabled)
  }

  /** What getNextNonDisabledIndex returns. */
  function NextNonDisabledIndex(moveAmount: int, baseIndex: int, itemCount: int,
                                baseExists: bool, disabled: int -> bool): int
  {
    if !baseExists || !disabled(baseIndex) then baseIndex
    else if moveAmount > 0 then FirstEnabledFrom(baseIndex + 1, itemCount, disabled)
    else LastEnabledUpTo(baseIndex - 1, disabled)
  }

  /** getNextNonDisabledIndex, with its two loops and early returns. */
  method GetNextNonDisabledIndex(moveAmount: int, baseIndex: int, itemCount: int,
                                 baseExists: bool, disabled: int -> bool)
    returns (r: int)
    ensures r == NextNonDisabledIndex(moveAmount, baseIndex, itemCount, baseExists, disabled)
  {
    if !baseExists || !disabled(baseIndex) {
      return baseIndex;
    }
    if moveAmount > 0 {
      var index := baseIndex + 1;
      while index < itemCount
        invariant baseIndex + 1 <= index
        invariant FirstEnabledFrom(index, itemCount, disabled)
               == FirstEnabledFrom(baseIndex + 1, itemCount, disabled)
        decreases itemCount - index
      {
        if !disabled(index) {
          return index;
        }
        index := index + 1;
      }
    } else {
      var index := baseIndex - 1;
      while index >= 0
        invariant index <= baseIndex - 1
        invariant LastEnabledUpTo(index, disabled) == LastEnabledUpTo(baseIndex - 1, disabled)
        decreases index
      {
        if !disabled(index) {
          return index;
        }
        index := index - 1;
      }
    }
    return -1;
  }

  /** A base whose node is missing or enabled is returned unchanged. */
  lemma BaseKeptWhenUsable(moveAmount: int, baseIndex: int, itemCount: int,
                           baseExists: bool, disabled: int -> bool)
    requires !baseExists || !disabled(baseIndex)
    ensures NextNonDisabledIndex(moveAmount, baseIndex, itemCount, baseExists, disabled) == baseIndex
  {
  }

  /**
   * Moving forwards from a disabled base finds the smallest enabled index
   * after the base and before itemCount, and -1 exactly when there is none.
   */
  lemma ForwardFindsNearest(moveAmount: int, baseIndex: int, itemCount: int, disabled: int -> bool)
    requires moveAmount > 0 && disabled(baseIndex) && baseIndex >= -1
    ensures var r := NextNonDisabledIndex(moveAmount, baseIndex, itemCount, true, disabled);
      && (r == -1 <==> forall i :: baseIndex < i < itemCount ==> disabled(i))
      && (r != -1 ==> baseIndex < r < itemCount && !disabled(r)
                      && forall i :: baseIndex < i < r ==> disabled(i))
  {
  }

  /**
   * Moving backwards (a zero move included) from a disabled base finds the
   * largest enabled index below the base, and -1 exactly when there is none.
   */
  lemma BackwardFindsNearest(moveAmount: int, baseIndex: int, itemCount: int, disabled: int -> bool)
    requires moveAmount <= 0 && disabled(baseIndex)
    ensures var r := NextNonDisabledIndex(moveAmount, baseIndex, itemCount, true, disabled);
      && (r == -1 <==> forall i :: 0 <= i < baseIndex ==> disabled(i))
      && (r != -1 ==> 0 <= r < baseIndex && !disabled(r)
                      && forall i :: r < i < baseIndex ==> disabled(i))
  {
  }

  /** Only the sign of moveAmount matters, never its magnitude. */
  lemma OnlySignOfMoveMatters(m1: int, m2: int, baseIndex: int, itemCount: int,
                              baseExists: bool, disabled: int -> bool)
    requires (m1 > 0) == (m2 > 0)
    ensures NextNonDisabledIndex(m1, baseIndex, itemCount, baseExists, disabled)
         == NextNonDisabledIndex(m2, baseIndex, itemCount, baseExists, disabled)
  {
  }

  /**
   * From a disabled base inside the list, any result other than -1 is an
   * index of the list whose item is enabled.
   */
  lemma FoundIndexIsEnabledItem(moveAmount: int, baseIndex: int, itemCount: int, disabled: int -> bool)
    requires 0 <= baseIndex < itemCount && disabled(baseIndex)
    ensures var r := NextNonDisabledIndex(moveAmount, baseIndex, itemCount, true, disabled);
      r != -1 ==> 0 <= r < itemCount && r != baseIndex && !disabled(r)
  {
  }
}
