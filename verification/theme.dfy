/** The dark/light theme switch of the header, the same handler on the
    selection page and on the preview page. */
module Theme {

  datatype Theme = Dark | Light

  /** The page's initial theme. */
  const Initial: Theme := Dark

  /** `currentTheme === 'dark' ? 'light' : 'dark'`: always the other theme. */
  function ThemeToggle(t: Theme): (r: Theme)
    ensures r != t
  {
    if t == Dark then Light else Dark
  }

  /** Toggling twice is the identity. */
  lemma ThemeToggleTwice(t: Theme)
    ensures ThemeToggle(ThemeToggle(t)) == t
  {
  }
}
