// The localStorage persistence of a list held in component state: the mount
// effect that reads the stored list and the effect that writes it back after
// every change. Both are pure functions of the stored value here.

module Storage {
  import opened Wrappers

  /**
   * The list a component starts from: the stored list when the key holds
   * one, otherwise the component's own fallback.
   */
  function LoadedOr<T>(stored: Option<seq<T>>, fallback: seq<T>): (items: seq<T>)
    ensures stored.Some? ==> items == stored.value
    ensures stored.None? ==> items == fallback
  {
    match stored
    case Some(saved) => saved
    case None => fallback
  }

  /** The save effect as written: only a non-empty list is written back. */
  function Saved<T>(stored: Option<seq<T>>, items: seq<T>): Option<seq<T>> {
    if |items| > 0 then Some(items) else stored
  }

  /**
   * A non-empty list survives a reload; an empty one is not written, so the
   * reload shows whatever was stored before.
   */
  lemma SaveThenLoad<T>(stored: Option<seq<T>>, items: seq<T>, fallback: seq<T>)
    ensures |items| > 0 ==> LoadedOr(Saved(stored, items), fallback) == items
    ensures |items| == 0 ==> LoadedOr(Saved(stored, items), fallback) == LoadedOr(stored, fallback)
  {
  }

  /**
   * Removing the only entry of a stored list is lost on reload: the entry
   * comes back.
   */
  lemma RemovedLastEntryReturns<T>(entry: T, fallback: seq<T>)
    ensures var stored := Saved(None, [entry]);
      LoadedOr(Saved(stored, []), fallback) == [entry]
  {
  }

  /** The save effect as intended: every change is written back, the empty list included. */
  function SavedEveryChange<T>(items: seq<T>): Option<seq<T>> {
    Some(items)
  }

  /** With every change written, a reload always shows the list as it was left. */
  lemma SavedEveryChangeRoundTrip<T>(items: seq<T>, fallback: seq<T>)
    ensures LoadedOr(SavedEveryChange(items), fallback) == items
  {
  }
}
