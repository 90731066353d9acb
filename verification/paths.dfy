/** File-system path composition as Rust's `PathBuf::join` performs it on Unix. */
module Paths {

  predicate IsAbsolute(p: string) {
    |p| > 0 && p[0] == '/'
  }

  /** A separator is inserted after a non-empty base that does not already end in one. */
  predicate NeedsSeparator(base: string) {
    |base| > 0 && base[|base| - 1] != '/'
  }

  /** `Path::new(base).join(component)`: an absolute component replaces the base;
      otherwise one `/` separates the two unless the base is empty or already ends in `/`.
      The ensures are this definition, case by case; `JoinTwice` is what follows from it. */
  function JoinPath(base: string, component: string): (r: string)
    ensures IsAbsolute(component) ==> r == component
    ensures !IsAbsolute(component) && NeedsSeparator(base) ==> r == base + "/" + component
    ensures !IsAbsolute(component) && !NeedsSeparator(base) ==> r == base + component
  {
    if IsAbsolute(component) then component
    else if NeedsSeparator(base) then base + "/" + component
    else base + component
  }

  /** Joining two relative components one after the other is joining them as one
      component with a `/` between, so `.join("logs").join("service.log")` is
      `.join("logs/service.log")`. */
  lemma JoinTwice(base: string, x: string, y: string)
    requires |x| > 0 && !IsAbsolute(x) && x[|x| - 1] != '/'
    requires !IsAbsolute(y)
    ensures JoinPath(JoinPath(base, x), y) == JoinPath(base, x + "/" + y)
  {
    var prefix := if NeedsSeparator(base) then base + "/" else base;
    var xy := x + "/" + y;
    assert xy[0] == x[0];
    assert JoinPath(base, x) == prefix + x;
    assert JoinPath(base, xy) == prefix + xy;
    assert (prefix + x)[|prefix + x| - 1] == x[|x| - 1];
    assert JoinPath(prefix + x, y) == prefix + x + "/" + y;
    assert prefix + x + "/" + y == prefix + xy;
  }
}
