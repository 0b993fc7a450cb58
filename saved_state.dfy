/** Saving and restoring the state of the sheet's behaviour (collapsed, expanded, ...) through
    the host's persisted-state bundle, a map from keys to integers that may be absent. */
module SavedState {
  import opened Wrappers

  /** The key the behaviour state is saved under. */
  const SAVED_STATE: string := "saved_behavior_state"

  /** The toolkit's code for a fully expanded sheet. */
  const STATE_EXPANDED: int := 3

  type Bundle = map<string, int>

  /** The bundle's integer lookup: a missing key reads as 0. */
  function GetInt(b: Bundle, key: string): int {
    if key in b then b[key] else 0
  }

  /** The bundle after saving: an absent bundle stays absent, a present one gets the behaviour
      state under the saved-state key and keeps every other key as it was. */
  function SaveState(outState: Option<Bundle>, behaviorState: int): (r: Option<Bundle>)
    ensures outState.None? <==> r.None?
    ensures outState.Some? ==> r.value.Keys == outState.value.Keys + {SAVED_STATE}
    ensures outState.Some? ==> r.value[SAVED_STATE] == behaviorState
    ensures outState.Some? ==> forall k :: k in outState.value && k != SAVED_STATE ==> r.value[k] == outState.value[k]
  {
    match outState
    case None => None
    case Some(b) => Some(b[SAVED_STATE := behaviorState])
  }

  /** The state the delayed restore hands to the behaviour, if it hands it one at all: only a
      present bundle whose saved state is the expanded state leads to a call. */
  function RestoreCall(savedInstanceState: Option<Bundle>): (call: Option<int>)
    ensures call.Some? <==> savedInstanceState.Some? && GetInt(savedInstanceState.value, SAVED_STATE) == STATE_EXPANDED
    ensures call.Some? ==> call.value == STATE_EXPANDED
  {
    match savedInstanceState
    case None => None
    case Some(b) =>
      var state := GetInt(b, SAVED_STATE);
      if state == STATE_EXPANDED then Some(state) else None
  }

  /** The behaviour's state once the restore has run. */
  function RestoreState(savedInstanceState: Option<Bundle>, behaviorState: int): (r: int)
    ensures r == behaviorState || r == STATE_EXPANDED
  {
    match RestoreCall(savedInstanceState)
    case None => behaviorState
    case Some(state) => state
  }

  /** Restoring a bundle that holds the state saved from a behaviour re-expands the sheet when
      it was expanded and otherwise leaves the current state alone. */
  lemma SaveThenRestore(b: Bundle, saved: int, current: int)
    ensures RestoreState(SaveState(Some(b), saved), current) == if saved == STATE_EXPANDED then STATE_EXPANDED else current
  {
  }

  /** A bundle without the key reads as state 0, which is not the expanded state: nothing is restored. */
  lemma RestoreWithoutKey(b: Bundle, current: int)
    requires SAVED_STATE !in b
    ensures RestoreState(Some(b), current) == current
  {
  }
}
