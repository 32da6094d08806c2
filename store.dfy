/**
 * The application store: one mutable field, the display mode, which starts
 * scattered and is flipped by `ToggleMode`.
 */
module AppStore {
  import opened Types

  /** The mode the store's updater computes from the current one. */
  function Toggled(mode: AppState): (r: AppState)
    ensures r != mode
    ensures r == TREE_SHAPE <==> mode == SCATTERED
  {
    if mode == SCATTERED then TREE_SHAPE else SCATTERED
  }

  /** Toggling is an involution. */
  lemma ToggledTwice(mode: AppState)
    ensures Toggled(Toggled(mode)) == mode
  {
  }

  /** The mode after `n` toggles starting from `mode`. */
  function ToggledTimes(mode: AppState, n: nat): AppState
  {
    if n == 0 then mode else Toggled(ToggledTimes(mode, n - 1))
  }

  /** After `n` toggles from the initial mode, the tree is shown exactly when `n` is odd. */
  lemma {:induction false} ToggledTimesParity(n: nat)
    ensures ToggledTimes(SCATTERED, n) == TREE_SHAPE <==> n % 2 == 1
  {
    if n > 0 {
      ToggledTimesParity(n - 1);
    }
  }

  /** The store. Its only field is the mode; the toggle action is a method. */
  class Store {
    var mode: AppState

    constructor ()
      ensures mode == SCATTERED
    {
      mode := SCATTERED;
    }

    method ToggleMode()
      modifies this
      ensures mode == Toggled(old(mode))
    {
      mode := Toggled(mode);
    }
  }
}
