/**
 * The configuration snapshot and the label normaliser that turns the
 * labels a user types ("e", "5", "F12") into key-code names.
 */
module AppConfig {
  import opened Wrappers
  import opened Keys

  /** A launch target, as the path string the launcher and the log receive. */
  type Path = string

  /**
   * A parsed configuration file. `applications` is the `BTreeMap` from
   * label to path, given as its entries in iteration (ascending label) order.
   */
  datatype Config = Config(
    leaderKey: string,
    applications: seq<(string, Path)>,
    timeoutMs: nat,
    db: Option<Path>)

  // ---------------------------------------------------------------------------
  // Labels are Rust `String`s: `len()` counts UTF-8 bytes, not characters.

  function Utf8Width(c: char): nat {
    if c as int < 0x80 then 1
    else if c as int < 0x800 then 2
    else if c as int < 0x1_0000 then 3
    else 4
  }

  /** `String::len()`: the length of the UTF-8 encoding. */
  function Utf8Len(s: string): (r: nat)
    ensures r == 0 <==> s == []
    ensures r <= 4 * |s|
  {
    if s == [] then 0 else Utf8Width(s[0]) + Utf8Len(s[1..])
  }

  lemma {:induction false} Utf8LenAtLeastLength(s: string)
    ensures Utf8Len(s) >= |s|
  {
    if s != [] {
      Utf8LenAtLeastLength(s[1..]);
    }
  }

  /** A one-byte string is exactly a one-character string whose character is ASCII. */
  lemma {:induction false} Utf8LenOne(s: string)
    ensures Utf8Len(s) == 1 <==> |s| == 1 && s[0] as int < 0x80
  {
    if s != [] {
      Utf8LenAtLeastLength(s[1..]);
      assert Utf8Len(s) == Utf8Width(s[0]) + Utf8Len(s[1..]);
      if |s| == 1 {
        assert s[1..] == [];
      }
    }
  }

  // ---------------------------------------------------------------------------
  // ASCII character classes (`char::is_ascii_alphabetic` and friends).

  predicate IsAsciiAlphabetic(c: char)
    ensures IsAsciiAlphabetic(c) <==> 0x41 <= c as int <= 0x5A || 0x61 <= c as int <= 0x7A
    ensures IsAsciiAlphabetic(c) ==> c as int < 0x80
  {
    ('A' <= c <= 'Z') || ('a' <= c <= 'z')
  }

  predicate IsAsciiDigit(c: char)
    ensures IsAsciiDigit(c) <==> 0x30 <= c as int <= 0x39
    ensures IsAsciiDigit(c) ==> c as int < 0x80 && !IsAsciiAlphabetic(c)
  {
    '0' <= c <= '9'
  }

  function ToAsciiUppercase(c: char): (u: char)
    ensures IsAsciiAlphabetic(c) ==> 'A' <= u <= 'Z'
    ensures 'a' <= c <= 'z' ==> u as int == c as int - 32
    ensures !('a' <= c <= 'z') ==> u == c
  {
    if 'a' <= c <= 'z' then (c as int - 32) as char else c
  }

  /**
   * The key-code name a configuration label stands for: a single ASCII
   * letter becomes "Key" and its uppercase form, a single ASCII digit
   * becomes "Digit" and the digit, and every other label is kept as it is.
   * The test in the code is on byte length; the contract restates it in
   * characters.
   */
  function NormalizeLabel(keyLabel: string): (r: string)
    ensures |keyLabel| == 1 && IsAsciiAlphabetic(keyLabel[0]) ==> r == "Key" + [ToAsciiUppercase(keyLabel[0])]
    ensures |keyLabel| == 1 && IsAsciiDigit(keyLabel[0]) ==> r == "Digit" + keyLabel
    ensures !(|keyLabel| == 1 && (IsAsciiAlphabetic(keyLabel[0]) || IsAsciiDigit(keyLabel[0]))) ==> r == keyLabel
  {
    Utf8LenOne(keyLabel);
    if Utf8Len(keyLabel) == 1 then
      var c := keyLabel[0];
      if IsAsciiAlphabetic(c) then "Key" + [ToAsciiUppercase(c)]
      else if IsAsciiDigit(c) then "Digit" + [c]
      else keyLabel
    else keyLabel
  }

  /** Normalising twice is normalising once: the rewritten names are longer than one character. */
  lemma NormalizeIdempotent(keyLabel: string)
    ensures NormalizeLabel(NormalizeLabel(keyLabel)) == NormalizeLabel(keyLabel)
  {
  }

  /** The letter case of a one-letter label does not matter. */
  lemma NormalizeIgnoresCase(lower: char)
    requires 'a' <= lower <= 'z'
    ensures NormalizeLabel([lower]) == NormalizeLabel([(lower as int - 32) as char])
  {
  }

  /** Distinct labels can normalise to the same key code: "e" and "KeyE" both name the E key. */
  lemma NormalizeNotInjective()
    ensures NormalizeLabel("e") == NormalizeLabel("KeyE") == "KeyE"
    ensures LabelLess("KeyE", "e")
  {
    assert NormalizeLabel("e") == "Key" + [ToAsciiUppercase('e')];
  }

  // ---------------------------------------------------------------------------
  // BTreeMap<String, _> order: lexicographic by character (the same order as
  // UTF-8 bytes).

  predicate LabelLess(a: string, b: string) {
    if a == [] then b != []
    else if b == [] then false
    else a[0] < b[0] || (a[0] == b[0] && LabelLess(a[1..], b[1..]))
  }

  lemma {:induction false} LabelLessIrreflexive(a: string)
    ensures !LabelLess(a, a)
  {
    if a != [] {
      LabelLessIrreflexive(a[1..]);
    }
  }

  /** The entries of a `BTreeMap`, in iteration order: labels strictly ascending. */
  predicate InLabelOrder(entries: seq<(string, Path)>) {
    forall i, j :: 0 <= i < j < |entries| ==> LabelLess(entries[i].0, entries[j].0)
  }

  /** Entries in label order carry each label once: they are a map. */
  lemma LabelOrderedIsMap(entries: seq<(string, Path)>)
    requires InLabelOrder(entries)
    ensures forall i, j :: 0 <= i < j < |entries| ==> entries[i].0 != entries[j].0
  {
    forall i, j | 0 <= i < j < |entries|
      ensures entries[i].0 != entries[j].0
    {
      LabelLessIrreflexive(entries[i].0);
    }
  }

  // ---------------------------------------------------------------------------
  // `Config::applications`

  /** Every label normalises to a key code the hotkey library knows (the `unwrap` cannot fail). */
  predicate LabelsParse(entries: seq<(string, Path)>, codeNames: set<string>) {
    forall i :: 0 <= i < |entries| ==> NormalizeLabel(entries[i].0) in codeNames
  }

  /**
   * `Config::applications`: one (hotkey, path) binding per entry, in entry
   * order, with the hotkey built from the normalised label and the path
   * copied unchanged.
   */
  function Applications(entries: seq<(string, Path)>, codeNames: set<string>): (r: seq<(HotKey, Path)>)
    requires LabelsParse(entries, codeNames)
    ensures |r| == |entries|
    ensures forall i :: 0 <= i < |r| ==>
              r[i].0 == HotKey(NormalizeLabel(entries[i].0)) && r[i].1 == entries[i].1
  {
    if entries == [] then []
    else
      var (keyLabel, path) := entries[0];
      var code := ParseCode(codeNames, NormalizeLabel(keyLabel));
      [(HotKey(code.value), path)] + Applications(entries[1..], codeNames)
  }

  /** Every configured label yields a binding to its path, under its normalised key code. */
  lemma ApplicationsCoverConfig(entries: seq<(string, Path)>, codeNames: set<string>, keyLabel: string, path: Path)
    requires LabelsParse(entries, codeNames)
    requires (keyLabel, path) in entries
    ensures (HotKey(NormalizeLabel(keyLabel)), path) in Applications(entries, codeNames)
  {
    var i :| 0 <= i < |entries| && entries[i] == (keyLabel, path);
    assert Applications(entries, codeNames)[i] == (HotKey(NormalizeLabel(keyLabel)), path);
  }

  /** Every binding comes from a configured label and keeps that label's path. */
  lemma ApplicationsFromConfig(entries: seq<(string, Path)>, codeNames: set<string>, key: HotKey, path: Path)
    requires LabelsParse(entries, codeNames)
    requires (key, path) in Applications(entries, codeNames)
    ensures exists keyLabel :: (keyLabel, path) in entries && key == HotKey(NormalizeLabel(keyLabel)) && key.code in codeNames
  {
    var apps := Applications(entries, codeNames);
    var i :| 0 <= i < |apps| && apps[i] == (key, path);
    assert entries[i] in entries;
  }
}

/**
 * The config-file watcher callback: it forwards a "config changed" signal
 * for a modify event unless the last forwarded one is less than 100 ms old.
 */
module ConfigWatch {
  import opened Wrappers
  import opened Clock

  const DebounceMs: nat := 100

  /** What the file watcher hands to the callback. */
  datatype WatchResult = WatchError | WatchEvent(isModify: bool)

  /**
   * One call of the callback: the new `last_event` and whether a signal is
   * sent. Errors and non-modify events are dropped; a modify event is
   * forwarded when nothing was forwarded yet or at least 100 ms passed since
   * the last forwarded one, and only a forwarded event moves `last_event`.
   */
  function DebounceStep(lastEvent: Option<nat>, now: nat, ev: WatchResult): (r: (Option<nat>, bool))
    ensures r.1 <==> ev == WatchEvent(true) && (lastEvent.None? || now >= lastEvent.value + DebounceMs)
    ensures r.0 == if r.1 then Some(now) else lastEvent
  {
    match ev
    case WatchError => (lastEvent, false)
    case WatchEvent(isModify) =>
      if !isModify then (lastEvent, false)
      else if lastEvent.Some? && Elapsed(now, lastEvent.value) < DebounceMs then (lastEvent, false)
      else (Some(now), true)
  }

  /** Consecutive forwarded signals are at least 100 ms apart. */
  ghost predicate Spaced(times: seq<nat>) {
    forall i :: 0 <= i < |times| - 1 ==> times[i] + DebounceMs <= times[i + 1]
  }

  /** Any two forwarded signals, not only consecutive ones, are at least 100 ms apart. */
  lemma {:induction false} SpacedApart(times: seq<nat>, i: nat, j: nat)
    requires Spaced(times)
    requires i < j < |times|
    ensures times[i] + DebounceMs <= times[j]
  {
    if i + 1 < j {
      SpacedApart(times, i, j - 1);
    }
  }

  /** The state the callback closure captures, plus the signals it has sent. */
  class Watcher {
    var lastEvent: Option<nat>
    ghost var signals: seq<nat>

    ghost predicate Valid()
      reads this
    {
      Spaced(signals) &&
      lastEvent == (if signals == [] then None else Some(signals[|signals| - 1]))
    }

    constructor ()
      ensures Valid() && lastEvent == None && signals == []
    {
      lastEvent := None;
      signals := [];
    }

    /** The callback, run once per watcher notification at time `now`. */
    method OnEvent(ev: WatchResult, now: nat) returns (forwarded: bool)
      requires Valid()
      modifies this
      ensures Valid()
      ensures (lastEvent, forwarded) == DebounceStep(old(lastEvent), now, ev)
      ensures signals == if forwarded then old(signals) + [now] else old(signals)
    {
      forwarded := false;
      if ev.WatchEvent? && ev.isModify {
        if lastEvent.Some? && Elapsed(now, lastEvent.value) < DebounceMs {
          return;
        }
        lastEvent := Some(now);
        signals := signals + [now];
        forwarded := true;
      }
    }
  }
}
