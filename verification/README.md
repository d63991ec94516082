# Leader-key chord launcher: a Dafny model

app-activate launches an application when the user presses a *leader*
key and then a second key bound to that application. This project models
and verifies the two core parts of that tool:

- **The chord state machine (`HotKeyManager`).** It keeps the OS-wide hotkey
  registrations in step with its state. While `Waiting`, only the leader key
  is registered. A leader press registers every application hotkey and
  starts `AwaitingSecondKey`. A bound key launches its application. A
  timeout poll or a launch unregisters exactly the keys the chord
  registered. A configuration reload swaps the leader and the bindings.
- **Two helpers from the configuration code.** The label normaliser turns
  `"e"` into `KeyE` and `"5"` into `Digit5`, and leaves every other label
  unchanged. The change-watcher callback forwards a modify event only when
  100 ms have passed since the last forwarded one.

Files and modules:

- `wrappers.dfy` (`Wrappers`): `Option`, `Outcome` and `Result`.
- `clock.dfy` (`Clock`): monotonic time in milliseconds. Rust's `elapsed()`
  saturates at zero.
- `keys.dfy` (`Keys`): hotkeys, their ids, and `Code::from_str` as a
  partial function.
- `os_facility.dfy` (`OsFacility`): the external collaborators.
  - The OS hotkey facility is a class holding its set of registered hotkeys
    and a log of the calls made on it.
  - The SQLite usage log is a class holding its rows.
  - Each failure of these collaborators is an input flag.
- `config.dfy` (`AppConfig`, `ConfigWatch`): the configuration snapshot,
  `Config::applications`, and the debounce callback of `Config::watch`.
- `hotkey_manager.dfy` (`HotKeys`): the chord state, the manager class and
  its registration invariant `Valid()`.
- `scenarios.dfy` (`Scenarios`): complete runs, each proved only from the
  operations' contracts. They cover:
  - the basic chord, the timeout, ignored keys and audit logging;
  - a reload mid-chord, both as written and corrected;
  - a double reload and a burst of watcher events.

Modelling choices:

- **Time.** Time is an explicit `now: nat` in milliseconds. The audit
  timestamp is a separate `unixSecs` argument.
- **Collaborator outcomes.** These outcomes are arguments:
  - whether the launch succeeds;
  - whether the usage-log connection is present, as a nullable `AuditDb`;
  - whether the insert fails;
  - whether the OS refuses a call.
- **Hotkey ids.** A hotkey has no modifiers, so its id is its key-code name.
- **`Code::from_str`.** It accepts exactly the names in a `codeNames` set.
  The manager keeps that set as a constant.
- **The OS facility's registration rules.**
  - Registering a hotkey that is already registered is refused.
  - Unregistering a hotkey that is not registered is a successful no-op.
- **The `unwrap`s.** For the calls at `src/hotkey_manager.rs:78` and `:125`,
  the OS is taken to accept the call. Before `:78` the model *proves* that
  the key is not yet registered, using the precondition `CanRegisterApps()`
  for a leader press.
- **The `BTreeMap` of labels.** It is given as its entries in iteration
  order. `InLabelOrder` states that order: strictly ascending labels,
  lexicographic by character, which equals UTF-8 byte order.
  `FromConfig`, `UpdateConfig` and `UpdateConfigReleasing` require it, as
  every `Config` the program builds meets it. With it, the entries carry
  each label once, and `iter().find` over the bindings returns the one of
  the smallest label naming the searched key. A configuration in which two
  labels name one key ("e" and "KeyE") cannot reach a launch, however: the
  leader press registers that hotkey twice and the `unwrap` at
  src/hotkey_manager.rs:78 fails (`RegistrableWhenWaiting` states the
  condition a leader press needs).
- **Label length.** `key.len()` counts UTF-8 bytes. `Utf8LenOne` proves that
  a one-byte label is exactly a one-character ASCII label. So
  `NormalizeLabel`'s contract is stated over characters while its body
  follows the byte test.

In these respects the code behaves differently from what a reader might
expect, and the model follows the code:

- There is a single set of bindings. A leader press during a chord finds no
  binding, so it is ignored and does not refresh `pressed_at`.
- A reload overwrites the state with `Waiting` without releasing the
  chord's keys. The `## Findings` section covers this.
- A reload unregisters the old leader before it parses and registers the
  new one. If either step fails, the manager is left without a registered
  leader, while the old leader and bindings are still stored.
- Only application labels are normalised. The leader label goes to
  `Code::from_str` unchanged.

## Model

| member | source | states |
|---|---|---|
| `Keys.ParseCode` | src/hotkey_manager.rs:36 | `Code::from_str` succeeds exactly for a known key-code name and yields that code |
| `Keys.Id` | src/hotkey_manager.rs:71 | `HotKey::id()` of a modifier-less hotkey is its key-code name, and no other hotkey has that id |
| `Clock.Elapsed` | src/hotkey_manager.rs:63 | `elapsed()` / `duration_since`: the time between the two instants, or zero when the earlier instant lies in the future |
| `Clock.ElapsedExceeds` | src/hotkey_manager.rs:63 | with saturating subtraction, "elapsed since t exceeds d" is the same as "now is past the deadline t + d" |
| `OsFacility.OsHotKeys.constructor` | src/hotkey_manager.rs:35 | a new hotkey facility has nothing registered |
| `OsFacility.OsHotKeys.Register` | src/hotkey_manager.rs:37 | registering succeeds exactly when the key is not registered and the OS accepts; on success the key is added, otherwise nothing changes; the call is logged |
| `OsFacility.OsHotKeys.Unregister` | src/hotkey_manager.rs:49 | unregistering succeeds unless the OS refuses, and then removes the key (a no-op for an absent key); the call is logged |
| `OsFacility.AuditDb.Insert` | src/hotkey_manager.rs:95-106 | the `INSERT` appends exactly the given record when it succeeds and leaves the table alone when it fails |
| `AppConfig.Utf8Len` | src/config.rs:57 | `len()`: the UTF-8 byte length, which is zero exactly for the empty string and at most four bytes per character |
| `AppConfig.Utf8LenAtLeastLength` | src/config.rs:57 | a string's UTF-8 byte length is at least its character count |
| `AppConfig.Utf8LenOne` | src/config.rs:57 | `len() == 1` (bytes) holds exactly for a one-character string whose character is ASCII |
| `AppConfig.IsAsciiAlphabetic` | src/config.rs:59 | `is_ascii_alphabetic`: exactly the code points 0x41-0x5A and 0x61-0x7A, all of them ASCII |
| `AppConfig.IsAsciiDigit` | src/config.rs:61 | `is_ascii_digit`: exactly the code points 0x30-0x39, all ASCII and none of them a letter |
| `AppConfig.ToAsciiUppercase` | src/config.rs:60 | an ASCII letter maps to an uppercase letter (a lowercase one shifted by 32), and every other character is unchanged |
| `AppConfig.NormalizeLabel` | src/config.rs:57-68 | a one-character ASCII letter becomes "Key" and its uppercase form, a one-character digit becomes "Digit" and the digit, and every other label (empty, longer, a single non-alphanumeric or non-ASCII character) is unchanged |
| `AppConfig.NormalizeIdempotent` | src/config.rs:57-68 | normalising an already normalised label changes nothing |
| `AppConfig.NormalizeIgnoresCase` | src/config.rs:59-60 | a lowercase letter label and its uppercase form name the same key |
| `AppConfig.NormalizeNotInjective` | src/config.rs:57-60 | the distinct labels "e" and "KeyE" both name KeyE, and "KeyE" comes first in label order |
| `AppConfig.LabelLessIrreflexive` | src/config.rs:21 | no label sorts before itself |
| `AppConfig.LabelOrderedIsMap` | src/config.rs:21 | entries in strictly ascending label order carry every label at most once, as a map does |
| `AppConfig.Applications` | src/config.rs:53-72 | one binding per configured entry, in the same order, whose hotkey is the normalised label's key code and whose path is the entry's path |
| `AppConfig.ApplicationsCoverConfig` | src/config.rs:53-71 | every configured (label, path) pair appears as a binding of its normalised key code to that path |
| `AppConfig.ApplicationsFromConfig` | src/config.rs:53-71 | every binding comes from some configured label with the same path, and its key code is a known one |
| `ConfigWatch.DebounceStep` | src/config.rs:78-90 | an error or a non-modify event is never forwarded; a modify event is forwarded exactly when nothing was forwarded before or at least 100 ms passed since the last forwarded event; only a forwarded event moves `last_event` |
| `ConfigWatch.SpacedApart` | src/config.rs:75-88 | if consecutive forwarded signals are 100 ms apart, then any two forwarded signals are at least 100 ms apart |
| `ConfigWatch.Watcher.constructor` | src/config.rs:75 | the callback starts with no previous event and no signal sent |
| `ConfigWatch.Watcher.OnEvent` | src/config.rs:78-90 | the callback's captured `last_event` and its decision follow `DebounceStep`; a forwarded signal is recorded; the signals stay 100 ms apart and `last_event` stays the time of the last one |
| `HotKeys.AppKeys` | src/hotkey_manager.rs:73-81 | the hotkeys a leader press collects into `registered_keys`: one per binding, in binding order, each of which finds a binding when pressed |
| `HotKeys.FirstMatch` | src/hotkey_manager.rs:87-88 | finds the smallest binding index whose hotkey has the event's id, or reports that no binding has it |
| `HotKeys.HotKeyManager.constructor` | src/hotkey_manager.rs:39-45 | a manager starts `Waiting` with the given facility, leader, bindings and timeout, having launched nothing |
| `HotKeys.HotKeyManager.FromConfig` | src/hotkey_manager.rs:33-46 | fails exactly when the facility cannot be created, the leader label is unknown or its registration is refused, with the matching error; otherwise the manager is `Waiting`, only the leader is registered (one register call), the timeout is `timeout_ms` and the bindings are `Config::applications`, and the invariant holds |
| `HotKeys.HotKeyManager.UpdateConfig` | src/hotkey_manager.rs:48-59 | succeeds exactly when the old leader can be unregistered and the new label parses and registers; on success the old leader is replaced by the new one in the registered set, the state is `Waiting` and timeout and bindings are replaced, while an in-flight chord's keys stay registered (the invariant survives exactly when no chord keys were in flight); on failure no field changes, but the old leader is already unregistered unless that step itself was refused; the OS calls made are logged per branch (the unregister of the old leader, then the register of the new one when it parsed) |
| `HotKeys.HotKeyManager.UpdateConfigReleasing` | src/hotkey_manager.rs:48-59 | the corrected reload: it releases the chord first, so under the invariant it succeeds exactly when the new label parses and both OS calls are accepted, and on success only the new leader is registered and the invariant holds |
| `HotKeys.HotKeyManager.IsTimedOut` | src/hotkey_manager.rs:61-66 | true exactly when a chord is in flight and `now` is strictly past `pressed_at + timeout` |
| `HotKeys.HotKeyManager.Handle` | src/hotkey_manager.rs:68-119 | the leader while `Waiting` registers every binding's hotkey in binding order and starts the chord at `now` with those keys. A key while awaiting that some binding matches launches the first matching binding's path, logs it only if the launch succeeded, a connection is present and the insert succeeds, and then resets whatever the outcome. Every other event (an unbound key, the leader during a chord, a non-leader while `Waiting`) changes nothing. The registration invariant is preserved |
| `HotKeys.HotKeyManager.ResetState` | src/hotkey_manager.rs:121-129 | unregisters exactly the chord's keys, in order, and ends in `Waiting`; in `Waiting` it changes nothing else; under the invariant only the leader stays registered |
| `HotKeys.HotKeyManager.PollTimeout` | src/app_activator.rs:111-116 | resets exactly when the chord has timed out, unregistering the chord's keys in order, and otherwise makes no OS call and changes nothing; afterwards it is not timed out at the same instant, so a repeated poll resets nothing |
| `HotKeys.FirstMatchTakesSmallestLabel` | src/hotkey_manager.rs:87-88 | `find` over `Config::applications` of a label-ordered map returns the binding of the smallest label naming the searched key, with the path configured for that label (a configuration with two such labels fails at the leader press, so no launch reaches this case) |
| `HotKeys.RegistrableWhenWaiting` | src/hotkey_manager.rs:71-81 | while `Waiting` under the invariant, a leader press can register every binding exactly when no hotkey is bound twice and none is the leader |
| `Scenarios.EditorConfig` | src/config.rs:53-72 | the label "e" bound to a path yields the single binding KeyE to that path |
| `Scenarios.BasicChord` | src/hotkey_manager.rs:71-113 | leader then "e": the editor is launched once, the manager is `Waiting` and only the leader is registered |
| `Scenarios.TimeoutResetsOnce` | src/hotkey_manager.rs:61-66 | leader and no second key: a poll at exactly the deadline does not reset, the first poll past it does, a later poll does not; nothing is launched |
| `Scenarios.UnrelatedKeysIgnored` | src/hotkey_manager.rs:86-116 | an unbound key and a repeated leader during a chord leave the chord, its start time and the registrations unchanged |
| `Scenarios.AuditOnlyAfterLaunch` | src/hotkey_manager.rs:91-113 | a failed launch writes no audit row but still ends the chord; a successful launch writes exactly one row |
| `Scenarios.ReloadMidChordLeaks` | src/hotkey_manager.rs:48-59 | a reload during a chord leaves the chord's key registered beside the new leader, so the next leader press could not register the bindings |
| `Scenarios.ReloadMidChordReleasing` | src/hotkey_manager.rs:48-59 | with the corrected reload, only the new leader is registered after a reload during a chord |
| `Scenarios.ReloadTwice` | src/hotkey_manager.rs:48-59 | from a freshly built manager, reloading the editor configuration twice leaves only the leader registered and the state `Waiting` |
| `Scenarios.ReloadTwiceIsReloadOnce` | src/hotkey_manager.rs:48-59 | for any manager in any state and any label-ordered configuration whose labels parse: when a first reload succeeds, a second reload of the same configuration succeeds and leaves the registrations, the state, the leader, the timeout and the bindings as the first left them |
| `Scenarios.DebouncedBurst` | src/config.rs:78-90 | modify events within 100 ms of a forwarded one, non-modify events and watcher errors are dropped; a modify event 100 ms later is forwarded |

## Left out

- Released key events: the event loop passes only `Pressed` events to `handle` (src/app_activator.rs:93). `handle` does not look at the event state.
- Panics at the `unwrap` calls (src/hotkey_manager.rs:78, :125): the model assumes the OS accepts these calls. A leader press requires `CanRegisterApps()`, and the model shows the code cannot guarantee it after a reload mid-chord (see Findings).
- The key-code vocabulary of the hotkey library is not listed: `Code::from_str` accepts exactly the names in `codeNames`. The `unwrap` at src/config.rs:69 becomes the precondition `LabelsParse`.
- `HotKey::id()` hashing: an id is the key-code name. Hash collisions are not modelled.
- Time: `Instant` values are milliseconds as `nat`, and `SystemTime` seconds are an argument. Duration overflow and the `u64` bound of `timeout_ms` are not modelled.
- The launched process: `open::that_detached` is recorded as a path in `launches`, with success as an input. What the process does is not modelled.
- `PathBuf` is a string, and `to_string_lossy` is the identity on it.
- Logging via `debug!`, `trace!` and `error!` has no effect on state and is not modelled.
- Threads, the mpsc channel and `tx.send`: a forwarded signal is recorded in `Watcher.signals`. A failed send is ignored as in the code.
- `Config::from` (file reading, TOML parsing, `exit(1)`), the `path` field of `Config`, and the `notify` watcher set-up (src/config.rs:93-94) are I/O.
- src/main.rs, the rest of src/app_activator.rs (event loop, SQLite table creation, wait/wait-until choice), src/launchd_manager.rs, src/usage_reporter.rs, src/args.rs, src/lib.rs, src/reporter.rs and xtask/src/main.rs are glue and I/O, not part of this model.
- UpdateConfigReleasing: whether it succeeds, and what is registered afterwards, is stated only when the invariant held before the call. The corrected reload is meant for a manager that keeps the invariant.

## Findings

| source | as written | input that shows it | evidently intended | confidence | as-written member | corrected member |
|---|---|---|---|---|---|---|
| src/hotkey_manager.rs:53 | `update_config` sets `State::Waiting` directly instead of calling `reset_state`. The keys of a chord in flight stay registered, and `registered_keys` no longer records them | leader "Space" with "e" bound. Press Space, then reload with leader "Enter" before the second key. KeyE stays registered beside Enter. The next leader press registers KeyE again, which the facility refuses, and the `unwrap` at line 78 panics | release the chord's keys (as `reset_state` does) before the leader is swapped | medium: depends on the facility refusing a duplicate registration; not executed | `HotKeys.HotKeyManager.UpdateConfig`, shown by `Scenarios.ReloadMidChordLeaks` | `HotKeys.HotKeyManager.UpdateConfigReleasing`, shown by `Scenarios.ReloadMidChordReleasing` |
