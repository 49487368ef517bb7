/**
  A two-state switch flipped by taps, as used for a card's face and for the
  app's light/dark theme.
 */
module Toggle {

  /** One tap: the state becomes its negation. */
  function Flip(on: bool): bool {
    !on
  }

  /** The state after `n` taps, starting from `on`. */
  function FlipTimes(on: bool, n: nat): bool {
    if n == 0 then on else Flip(FlipTimes(on, n - 1))
  }

  /** Each tap changes the state, and two taps restore it. */
  lemma FlipIsInvolution(on: bool)
    ensures Flip(on) != on
    ensures Flip(Flip(on)) == on
  {
  }

  /** After `n` taps the state has changed exactly when `n` is odd. */
  lemma {:induction false} FlipTimesParity(on: bool, n: nat)
    ensures FlipTimes(on, n) == if n % 2 == 0 then on else !on
  {
    if n > 0 {
      FlipTimesParity(on, n - 1);
    }
  }
}
