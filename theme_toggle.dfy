/**
 * The theme toggle: one button that cycles light -> dark -> system -> light, whose
 * icon shows the current theme and whose tooltip names the theme a click selects.
 */
module ThemeToggle {

  /** The themes the provider stores. */
  datatype Theme = Light | Dark | System

  datatype Icon = Sun | Moon

  /** The theme a click selects: dark after light, system after dark, light otherwise. */
  function Toggle(t: Theme): (r: Theme)
    ensures r != t
    ensures t == Light <==> r == Dark
    ensures t == Dark <==> r == System
  {
    if t == Light then Dark
    else if t == Dark then System
    else Light
  }

  /** Three clicks from any theme come back to it, and fewer never do. */
  lemma ToggleCycle(t: Theme)
    ensures Toggle(Toggle(Toggle(t))) == t
    ensures Toggle(Toggle(t)) != t
  {
  }

  /** Every theme is reached by a click from exactly one theme. */
  lemma ToggleBijective(t1: Theme, t2: Theme)
    ensures Toggle(t1) == Toggle(t2) ==> t1 == t2
    ensures exists p :: Toggle(p) == t1
  {
    assert Toggle(Toggle(Toggle(t1))) == t1;
  }

  /** The icon: a moon for the dark theme, a sun otherwise. */
  function IconOf(t: Theme): (r: Icon)
    ensures r == Moon <==> t == Dark
  {
    if t == Light then Sun
    else if t == Dark then Moon
    else Sun
  }

  /** The name each theme goes by: the reference the tooltip is checked against. */
  function ModeName(t: Theme): string {
    match t
    case Light => "Modo claro"
    case Dark => "Modo escuro"
    case System => "Modo sistema"
  }

  /** No two themes share a name. */
  lemma ModeNameInjective(a: Theme, b: Theme)
    ensures ModeName(a) == ModeName(b) ==> a == b
  {
    if a != b {
      assert ModeName(a)[5] != ModeName(b)[5];
    }
  }

  /** The tooltip, written per current theme: it names the theme the next click selects. */
  function Tooltip(t: Theme): (r: string)
    ensures r == ModeName(Toggle(t))
  {
    if t == Light then "Modo escuro"
    else if t == Dark then "Modo sistema"
    else "Modo claro"
  }

  /** The tooltip never names the current theme. */
  lemma TooltipNeverCurrent(t: Theme)
    ensures Tooltip(t) != ModeName(t)
  {
    ModeNameInjective(Toggle(t), t);
  }
}
