/**
 * The display name given to components built by a higher-order component
 * (`makeHoc` in webapp/src/util/funcs.ts): `name(wrappedName)`, where the
 * wrapped name falls back through JavaScript's `||`.
 */
module HocName {
  import opened Wrappers

  /**
   * A React component object: `name` is its function name (possibly empty),
   * `displayName` an optional field that can be assigned.
   */
  class Component {
    const name: string
    var displayName: Option<string>

    constructor (name: string, displayName: Option<string>)
      ensures this.name == name && this.displayName == displayName
    {
      this.name := name;
      this.displayName := displayName;
    }
  }

  /** `Component.displayName || Component.name || 'Component'`: undefined and "" are both false. */
  function WrappedName(displayName: Option<string>, name: string): (r: string)
    ensures r != ""
    ensures displayName.Some? && displayName.value != "" ==> r == displayName.value
    ensures (displayName.None? || displayName.value == "") && name != "" ==> r == name
    ensures (displayName.None? || displayName.value == "") && name == "" ==> r == "Component"
  {
    if displayName.Some? && displayName.value != "" then displayName.value
    else if name != "" then name
    else "Component"
  }

  /** The template string `${name}(${wrappedName})`. */
  function HocDisplayName(hocName: string, wrappedName: string): string {
    hocName + "(" + wrappedName + ")"
  }

  /** The index of the first `c` in `s`, if any. */
  function IndexOf(s: string, c: char): (r: Option<nat>)
    ensures r.Some? ==> r.value < |s| && s[r.value] == c && c !in s[..r.value]
    ensures r.None? ==> c !in s
    decreases |s|
  {
    if s == [] then None
    else if s[0] == c then Some(0)
    else match IndexOf(s[1..], c)
      case None => None
      case Some(i) =>
        assert s[..i + 1] == [s[0]] + s[1..][..i];
        Some(i + 1)
  }

  /** Reads a display name back into the HoC's name and the wrapped name. */
  function ParseDisplayName(s: string): Option<(string, string)> {
    match IndexOf(s, '(')
    case None => None
    case Some(i) =>
      if i + 1 <= |s| - 1 && s[|s| - 1] == ')' then Some((s[..i], s[i + 1..|s| - 1]))
      else None
  }

  /** The first `c` of `a + b` is in `b` when `a` has none. */
  lemma {:induction false} IndexAfter(a: string, b: string, c: char)
    requires c !in a
    requires b != [] && b[0] == c
    ensures IndexOf(a + b, c) == Some(|a|)
    decreases |a|
  {
    if a != [] {
      assert (a + b)[1..] == a[1..] + b;
      assert c !in a[1..];
      IndexAfter(a[1..], b, c);
    } else {
      assert a + b == b;
    }
  }

  /** The display name records both names: for a HoC name without `(`, they can be read back. */
  lemma ParseRoundTrip(hocName: string, wrappedName: string)
    requires '(' !in hocName
    ensures ParseDisplayName(HocDisplayName(hocName, wrappedName)) == Some((hocName, wrappedName))
  {
    var s := HocDisplayName(hocName, wrappedName);
    var rest := "(" + wrappedName + ")";
    assert s == hocName + rest;
    IndexAfter(hocName, rest, '(');
    assert s[..|hocName|] == hocName;
    assert s[|hocName| + 1..|s| - 1] == wrappedName;
  }

  /**
   * The function `makeHoc(hoc, hocName)` returns, applied to `component`.
   * `produced` is the object `hoc(component)` returned (the HoC itself is
   * not part of this model); it is returned with its display name set and
   * nothing else changed.
   */
  method WrapComponent(hocName: string, component: Component, produced: Component) returns (r: Component)
    modifies produced`displayName
    ensures r == produced
    ensures r.displayName == Some(HocDisplayName(hocName, WrappedName(old(component.displayName), component.name)))
  {
    var wrappedName := WrappedName(component.displayName, component.name);
    produced.displayName := Some(HocDisplayName(hocName, wrappedName));
    r := produced;
  }
}
