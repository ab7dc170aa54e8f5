/** Unix path joining, as `PathBuf::join` does it on the platforms the tool supports. */
module Paths {

  predicate IsAbsolute(p: string) {
    |p| > 0 && p[0] == '/'
  }

  /** `base.join(component)`: an absolute component replaces the base; otherwise one `/`
      separates them, unless the base is empty or already ends with one. */
  function Join(base: string, component: string): string
  {
    if IsAbsolute(component) then component
    else if base == [] || base[|base| - 1] == '/' then base + component
    else base + "/" + component
  }

  /** Joining a relative component never loses the base: the base is a prefix of the
      result, the component its suffix, and at most one separator lies between them. */
  lemma JoinStaysUnderBase(base: string, component: string)
    requires !IsAbsolute(component)
    ensures var p := Join(base, component);
      && |base| + |component| <= |p| <= |base| + |component| + 1
      && p[..|base|] == base
      && p[|p| - |component|..] == component
  {
  }
}
