/**
 * The states of the dialog (`DialogSG`) and the order of its windows.
 * `dialog.next()` moves to the following window and the `Back` button to the
 * preceding one, both by position in the `Dialog` declaration.
 */
module States {
  import opened Wrappers

  /** Greeting, Age and Finish are the three `DialogSG` states, in declaration
      order; Done stands for "no dialog context on the stack", which is where a
      conversation is before its first /start and after `done()`. */
  datatype State = Greeting | Age | Finish | Done

  /** The windows of the `Dialog`, in the order they are declared. */
  const Windows: seq<State> := [Greeting, Age, Finish]

  /** The window that follows `s`, or None when `s` is the last window (or no window). */
  function Next(s: State): (r: Option<State>)
    ensures s !in Windows ==> r.None?
    ensures forall i :: 0 <= i < |Windows| && Windows[i] == s ==>
              (r.Some? <==> i + 1 < |Windows|) && (r.Some? ==> r.value == Windows[i + 1])
  {
    match s
    case Greeting => Some(Age)
    case Age => Some(Finish)
    case _ => None
  }

  /** The window that precedes `s`, or None when `s` is the first window (or no window). */
  function Prev(s: State): (r: Option<State>)
    ensures s !in Windows ==> r.None?
    ensures forall i :: 0 <= i < |Windows| && Windows[i] == s ==>
              (r.Some? <==> 0 < i) && (r.Some? ==> r.value == Windows[i - 1])
  {
    match s
    case Age => Some(Greeting)
    case Finish => Some(Age)
    case _ => None
  }

  /** Going forward one window and going back one window undo each other. */
  lemma NextPrevInverse(s: State, t: State)
    ensures Next(s) == Some(t) <==> Prev(t) == Some(s)
  {
  }

  /** Every state but Done is a window, each window appears once, and Greeting is the first. */
  lemma WindowsAreTheDialogStates(s: State)
    ensures s in Windows <==> s != Done
    ensures Windows[0] == Greeting
    ensures forall i, j :: 0 <= i < j < |Windows| ==> Windows[i] != Windows[j]
  {
  }
}
