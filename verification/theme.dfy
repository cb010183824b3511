/** The dark/light theme switch of js/main.js (`isDarkMode` and
    `toggleTheme`), reduced to the state the scene keeps: the flag and the
    ambient light intensity. Page background, clear colour and button text
    are presentation and not part of this model. */
module Theme {

  datatype Theme = Theme(isDarkMode: bool, ambientIntensity: real)

  const DarkAmbient: real := 0.4
  const LightAmbient: real := 0.6

  /** The ambient intensity matches the mode. */
  predicate Consistent(t: Theme) {
    t.ambientIntensity == (if t.isDarkMode then DarkAmbient else LightAmbient)
  }

  /** Dark mode, with the ambient light created at intensity 0.4. */
  function Initial(): (t: Theme)
    ensures t.isDarkMode && Consistent(t)
  {
    Theme(true, DarkAmbient)
  }

  /** `toggleTheme`: the flag flips and the ambient intensity follows the new
      mode, whatever it was before. */
  function Toggle(t: Theme): (r: Theme)
    ensures r.isDarkMode == !t.isDarkMode
    ensures Consistent(r)
  {
    var dark := !t.isDarkMode;
    Theme(dark, if dark then DarkAmbient else LightAmbient)
  }

  /** Toggling twice restores a consistent theme. */
  lemma ToggleTwice(t: Theme)
    requires Consistent(t)
    ensures Toggle(Toggle(t)) == t
  {
  }

  /** `toggleTheme` pressed `n` times. */
  function ToggleTimes(t: Theme, n: nat): Theme
    decreases n
  {
    if n == 0 then t else ToggleTimes(Toggle(t), n - 1)
  }

  /** Any number of toggles keeps a consistent theme consistent, and flips
      the mode exactly when the number is odd. */
  lemma {:induction false} ToggleTimesFrom(t: Theme, n: nat)
    requires Consistent(t)
    ensures Consistent(ToggleTimes(t, n))
    ensures ToggleTimes(t, n).isDarkMode <==> (t.isDarkMode <==> n % 2 == 0)
    decreases n
  {
    if n > 0 {
      ToggleTimesFrom(Toggle(t), n - 1);
    }
  }

  /** From start-up, the scene is dark exactly after an even number of
      toggles, with the matching ambient intensity. */
  lemma ToggleTimesParity(n: nat)
    ensures Consistent(ToggleTimes(Initial(), n))
    ensures ToggleTimes(Initial(), n).isDarkMode <==> n % 2 == 0
  {
    ToggleTimesFrom(Initial(), n);
  }
}
