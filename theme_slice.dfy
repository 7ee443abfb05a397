/**
 * The second theme slice (src/theme/index.ts): the same state and initial value as
 * the store's slice, but only two reducers, so the mode can change only by toggling.
 * The mode, the state and its initial value are the store slice's own.
 */
module ThemeSlice {
  import Store = AppThemeSlice

  type Mode = Store.Mode

  type ThemeState = Store.ThemeState

  datatype Action = ToggleTheme | SetPrimaryColor(color: string)

  const InitialState := Store.InitialState

  function Reduce(s: ThemeState, a: Action): (r: ThemeState)
    ensures a.ToggleTheme? ==> r.mode != s.mode && r.primaryColor == s.primaryColor
    ensures a.SetPrimaryColor? ==> r.mode == s.mode && r.primaryColor == a.color
  {
    match a
    case ToggleTheme => s.(mode := Store.Flip(s.mode))
    case SetPrimaryColor(c) => s.(primaryColor := c)
  }

  function Run(s: ThemeState, actions: seq<Action>): ThemeState {
    if actions == [] then s else Reduce(Run(s, actions[..|actions| - 1]), actions[|actions| - 1])
  }

  /** The number of toggles among the actions. */
  function Toggles(actions: seq<Action>): (n: nat)
    ensures n <= |actions|
  {
    if actions == [] then 0
    else Toggles(actions[..|actions| - 1]) + (if actions[|actions| - 1].ToggleTheme? then 1 else 0)
  }

  /** Toggling twice gives back the state toggled. */
  lemma ToggleTwice(s: ThemeState)
    ensures Reduce(Reduce(s, ToggleTheme), ToggleTheme) == s
  {
  }

  /**
   * Whatever the actions, the mode depends only on how many toggles there were: it is
   * the start mode after an even number and the other mode after an odd number.
   */
  lemma {:induction false} ModeParity(s: ThemeState, actions: seq<Action>)
    ensures Run(s, actions).mode == if Toggles(actions) % 2 == 0 then s.mode else Store.Flip(s.mode)
  {
    if actions != [] {
      ModeParity(s, actions[..|actions| - 1]);
    }
  }

  /** Without a toggle the mode never changes. */
  lemma ModeOnlyByToggling(s: ThemeState, actions: seq<Action>)
    requires forall i :: 0 <= i < |actions| ==> !actions[i].ToggleTheme?
    ensures Run(s, actions).mode == s.mode
  {
    NoTogglesCounted(actions);
    ModeParity(s, actions);
  }

  lemma {:induction false} NoTogglesCounted(actions: seq<Action>)
    requires forall i :: 0 <= i < |actions| ==> !actions[i].ToggleTheme?
    ensures Toggles(actions) == 0
  {
    if actions != [] {
      NoTogglesCounted(actions[..|actions| - 1]);
    }
  }

  class Theme {
    var mode: Mode
    var primaryColor: string

    function State(): ThemeState
      reads this
    {
      Store.ThemeState(mode, primaryColor)
    }

    constructor ()
      ensures State() == InitialState
    {
      mode := Store.Light;
      primaryColor := "#1976d1";
    }

    method ToggleTheme()
      modifies this
      ensures State() == Reduce(old(State()), Action.ToggleTheme)
    {
      mode := Store.Flip(mode);
    }

    method SetPrimaryColor(color: string)
      modifies this
      ensures State() == Reduce(old(State()), Action.SetPrimaryColor(color))
    {
      primaryColor := color;
    }
  }
}
