/**
 * Hotkeys as the manager sees them. A `HotKey` carries no modifiers
 * (every hotkey of this program is built with `HotKey::new(None, code)`),
 * so it is determined by its key code, and so is its id.
 */
module Keys {
  import opened Wrappers

  /** A key code, written as its symbolic name ("KeyE", "Digit5", "Space", "F12"). */
  type Code = string

  /** The identifier carried by a hotkey-pressed event. */
  type HotKeyId = string

  datatype HotKey = HotKey(code: Code)

  /**
   * `HotKey::id()`: a function of the key code alone, and one that tells
   * hotkeys apart (hash collisions are not modelled).
   */
  function Id(h: HotKey): (r: HotKeyId)
    ensures forall g: HotKey :: g.code == r <==> g == h
  {
    h.code
  }

  /**
   * `Code::from_str`: a partial function that accepts exactly the symbolic
   * names in `codeNames` (the key-code vocabulary of the hotkey library).
   */
  function ParseCode(codeNames: set<string>, name: string): (r: Option<Code>)
    ensures r.Some? <==> name in codeNames
    ensures r.Some? ==> r.value == name
  {
    if name in codeNames then Some(name) else None
  }

  function Elems<T>(s: seq<T>): set<T> {
    set x | x in s
  }

  predicate Distinct<T(==)>(s: seq<T>) {
    forall i, j :: 0 <= i < j < |s| ==> s[i] != s[j]
  }
}
