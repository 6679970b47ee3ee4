/** The selection index arithmetic shared by the keyboard handlers:
    `-1` means "nothing highlighted", `0..count-1` a position in the list. */
module Navigator {

  /** The keys the `onKeyDown` handlers look at; every other key is `OtherKey`. */
  datatype Key = ArrowDown | ArrowUp | Enter | Escape | OtherKey

  /** The index invariant: -1 or a position of a `count`-element list. */
  predicate InRange(index: int, count: nat) {
    -1 <= index < count
  }

  function Min(a: int, b: int): int { if a <= b then a else b }
  function Max(a: int, b: int): int { if a <= b then b else a }

  /** ArrowDown: `prev < count - 1 ? prev + 1 : prev`. Moves one step forward,
      stops at the last position without wrapping, and stays put on an empty list. */
  function NextIndex(index: int, count: nat): (r: int)
    ensures InRange(index, count) ==> InRange(r, count)
    ensures r == index || r == index + 1
    ensures r == index <==> index >= count - 1
    ensures index < count ==> r < count
  {
    if index < count - 1 then index + 1 else index
  }

  /** ArrowUp: `prev > 0 ? prev - 1 : -1`. One step back, never below -1;
      from the first position it drops the highlight. */
  function PrevIndex(index: int): (r: int)
    ensures r == Max(index - 1, -1)
    ensures forall count: nat :: InRange(index, count) ==> InRange(r, count)
  {
    if index > 0 then index - 1 else -1
  }

  /** `k` ArrowDown presses in a row. */
  function PressDown(k: nat, index: int, count: nat): int
  {
    if k == 0 then index else PressDown(k - 1, NextIndex(index, count), count)
  }

  /** `k` ArrowUp presses in a row. */
  function PressUp(k: nat, index: int): int
  {
    if k == 0 then index else PressUp(k - 1, PrevIndex(index))
  }

  /** From a valid index, `k` ArrowDown presses advance `k` places but stop at
      the last item: the index is clamped, never wrapped. With no items it stays -1. */
  lemma {:induction false} PressDownClamps(k: nat, index: int, count: nat)
    requires InRange(index, count)
    ensures PressDown(k, index, count) == Max(index, Min(index + k, count - 1))
    ensures InRange(PressDown(k, index, count), count)
  {
    if k > 0 {
      PressDownClamps(k - 1, NextIndex(index, count), count);
    }
  }

  /** `k` ArrowUp presses from any index at or above -1 go back `k` places,
      bottoming out at -1. */
  lemma {:induction false} PressUpFloors(k: nat, index: int)
    requires index >= -1
    ensures PressUp(k, index) == Max(index - k, -1)
  {
    if k > 0 {
      PressUpFloors(k - 1, PrevIndex(index));
    }
  }
}
