/**
 * The theme slice of the Redux store (src/app/themeSlice.ts): a mode and a primary
 * colour, changed in place by three reducers. `Reduce` is the reducer as a function
 * on states; the class `Theme` holds the slice and its methods update it in place.
 */
module AppThemeSlice {
  datatype Mode = Light | Dark

  datatype ThemeState = ThemeState(mode: Mode, primaryColor: string)

  datatype Action = ToggleTheme | SetPrimaryColor(color: string) | SetThemeMode(newMode: Mode)

  const InitialState := ThemeState(Light, "#1976d1")

  function Flip(m: Mode): (r: Mode)
    ensures r != m
  {
    if m == Light then Dark else Light
  }

  /** The slice's reducer. */
  function Reduce(s: ThemeState, a: Action): (r: ThemeState)
    ensures a.ToggleTheme? ==> r.mode != s.mode && r.primaryColor == s.primaryColor
    ensures a.SetPrimaryColor? ==> r.mode == s.mode && r.primaryColor == a.color
    ensures a.SetThemeMode? ==> r.mode == a.newMode && r.primaryColor == s.primaryColor
  {
    match a
    case ToggleTheme => s.(mode := Flip(s.mode))
    case SetPrimaryColor(c) => s.(primaryColor := c)
    case SetThemeMode(m) => s.(mode := m)
  }

  /** The state after dispatching `actions` in order. */
  function Run(s: ThemeState, actions: seq<Action>): ThemeState {
    if actions == [] then s else Reduce(Run(s, actions[..|actions| - 1]), actions[|actions| - 1])
  }

  /** Toggling twice gives back the state toggled. */
  lemma ToggleTwice(s: ThemeState)
    ensures Reduce(Reduce(s, ToggleTheme), ToggleTheme) == s
  {
  }

  /** Setting the mode twice is the same as setting it once. */
  lemma SetThemeModeIdempotent(s: ThemeState, m: Mode)
    ensures Reduce(Reduce(s, SetThemeMode(m)), SetThemeMode(m)) == Reduce(s, SetThemeMode(m))
  {
  }

  /**
   * After any sequence of actions the colour is the start colour when no action set
   * it, and otherwise the colour of the last `setPrimaryColor`.
   */
  lemma {:induction false} ColorIsLastSet(s: ThemeState, actions: seq<Action>)
    ensures (forall i :: 0 <= i < |actions| ==> !actions[i].SetPrimaryColor?)
            ==> Run(s, actions).primaryColor == s.primaryColor
    ensures (exists i :: 0 <= i < |actions| && actions[i].SetPrimaryColor?)
            ==> exists i :: 0 <= i < |actions| && actions[i] == SetPrimaryColor(Run(s, actions).primaryColor)
                            && forall j :: i < j < |actions| ==> !actions[j].SetPrimaryColor?
  {
    if actions != [] {
      var n := |actions| - 1;
      var init := actions[..n];
      ColorIsLastSet(s, init);
      assert forall i :: 0 <= i < n ==> init[i] == actions[i];
      if !actions[n].SetPrimaryColor? {
        if exists i :: 0 <= i < |actions| && actions[i].SetPrimaryColor? {
          var k :| 0 <= k < |actions| && actions[k].SetPrimaryColor?;
          assert init[k].SetPrimaryColor?;
          var i :| 0 <= i < n && init[i] == SetPrimaryColor(Run(s, init).primaryColor)
                   && forall j :: i < j < n ==> !init[j].SetPrimaryColor?;
          assert actions[i] == SetPrimaryColor(Run(s, actions).primaryColor);
        }
      }
    }
  }

  /** The slice as the store holds it; each reducer assigns its field in place. */
  class Theme {
    var mode: Mode
    var primaryColor: string

    function State(): ThemeState
      reads this
    {
      ThemeState(mode, primaryColor)
    }

    constructor ()
      ensures State() == InitialState
    {
      mode := Light;
      primaryColor := "#1976d1";
    }

    method ToggleTheme()
      modifies this
      ensures State() == Reduce(old(State()), Action.ToggleTheme)
    {
      mode := if mode == Light then Dark else Light;
    }

    method SetPrimaryColor(color: string)
      modifies this
      ensures State() == Reduce(old(State()), Action.SetPrimaryColor(color))
    {
      primaryColor := color;
    }

    method SetThemeMode(newMode: Mode)
      modifies this
      ensures State() == Reduce(old(State()), Action.SetThemeMode(newMode))
    {
      mode := newMode;
    }
  }
}
