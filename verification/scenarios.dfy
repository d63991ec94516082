/**
 * Whole runs of the manager and of the config watcher, built from the
 * contracts of their operations alone.
 */
module Scenarios {
  import opened Wrappers
  import opened Keys
  import opened OsFacility
  import opened AppConfig
  import opened ConfigWatch
  import opened HotKeys

  const CodeNames: set<string> := {"Space", "Enter", "KeyE", "KeyQ"}
  const Editor: Path := "/Applications/Editor.app"

  /** leader "Space", "e" bound to the editor, 1000 ms timeout, no usage log. */
  function EditorConfig(leader: string): (c: Config)
    ensures c.leaderKey == leader
    ensures InLabelOrder(c.applications)
    ensures LabelsParse(c.applications, CodeNames)
    ensures Applications(c.applications, CodeNames) == [(HotKey("KeyE"), Editor)]
  {
    assert ToAsciiUppercase('e') == 'E';
    assert NormalizeLabel("e") == "KeyE";
    var entries := [("e", Editor)];
    assert entries[0].0 == "e";
    Config(leader, entries, 1000, None)
  }

  method Start(leader: string) returns (m: HotKeyManager)
    requires leader in CodeNames
    ensures fresh(m) && fresh(m.os) && m.Valid() && m.state == Waiting
    ensures m.leaderKey == HotKey(leader) && m.os.registered == {HotKey(leader)}
    ensures m.applications == [(HotKey("KeyE"), Editor)] && m.timeout == 1000
    ensures m.launches == [] && m.codeNames == CodeNames
  {
    var r := HotKeyManager.FromConfig(EditorConfig(leader), CodeNames, false, false);
    m := r.value;
  }

  /** Leader, then "e" within the timeout: the editor is launched once and only the leader stays registered. */
  method BasicChord() returns (launched: seq<Path>, registered: set<HotKey>, waiting: bool)
    ensures launched == [Editor]
    ensures registered == {HotKey("Space")}
    ensures waiting
  {
    var m := Start("Space");
    m.Handle("Space", null, 0, 0, true, false);
    assert m.state == AwaitingSecondKey(0, [HotKey("KeyE")]);
    assert m.os.registered == {HotKey("Space"), HotKey("KeyE")};
    m.Handle("KeyE", null, 500, 0, true, false);
    launched, registered, waiting := m.launches, m.os.registered, m.state.Waiting?;
  }

  /**
   * Leader, then nothing: the poll at exactly the deadline does not reset,
   * the first poll past it does, and later polls find nothing to reset.
   */
  method TimeoutResetsOnce() returns (atDeadline: bool, pastDeadline: bool, later: bool, registered: set<HotKey>, launched: seq<Path>)
    ensures !atDeadline && pastDeadline && !later
    ensures registered == {HotKey("Space")} && launched == []
  {
    var m := Start("Space");
    m.Handle("Space", null, 0, 0, true, false);
    atDeadline := m.PollTimeout(1000);
    pastDeadline := m.PollTimeout(1001);
    later := m.PollTimeout(2000);
    registered, launched := m.os.registered, m.launches;
  }

  /** Leader, then an unbound key and the leader again: the chord and its start time are untouched. */
  method UnrelatedKeysIgnored() returns (state: State, registered: set<HotKey>, launched: seq<Path>)
    ensures state == AwaitingSecondKey(0, [HotKey("KeyE")])
    ensures registered == {HotKey("Space"), HotKey("KeyE")} && launched == []
  {
    var m := Start("Space");
    m.Handle("Space", null, 0, 0, true, false);
    m.Handle("KeyQ", null, 10, 0, true, false);
    m.Handle("Space", null, 20, 0, true, false);
    state, registered, launched := m.state, m.os.registered, m.launches;
  }

  /** A failed launch is not logged but still ends the chord; a successful one is logged. */
  method AuditOnlyAfterLaunch() returns (afterFailure: seq<AuditRecord>, afterSuccess: seq<AuditRecord>, waiting: bool)
    ensures afterFailure == []
    ensures afterSuccess == [AuditRecord(1_700_000_000, Editor)]
    ensures waiting
  {
    var m := Start("Space");
    var db := new AuditDb();
    m.Handle("Space", db, 0, 0, true, false);
    m.Handle("KeyE", db, 100, 1_699_999_999, false, false);
    afterFailure := db.rows;
    m.Handle("Space", db, 200, 0, true, false);
    m.Handle("KeyE", db, 300, 1_700_000_000, true, false);
    afterSuccess, waiting := db.rows, m.state.Waiting?;
  }

  /**
   * A reload in the middle of a chord, as written: the chord's key stays
   * registered beside the new leader, so the next leader press would
   * register it a second time.
   */
  method ReloadMidChordLeaks() returns (registered: set<HotKey>, waiting: bool, nextLeaderPressRegisters: bool)
    ensures registered == {HotKey("Enter"), HotKey("KeyE")}
    ensures waiting
    ensures !nextLeaderPressRegisters
  {
    var m := Start("Space");
    m.Handle("Space", null, 0, 0, true, false);
    var r := m.UpdateConfig(EditorConfig("Enter"), false, false);
    registered, waiting := m.os.registered, m.state.Waiting?;
    nextLeaderPressRegisters := m.CanRegisterApps();
  }

  /** The same reload with the chord released first: only the new leader is registered. */
  method ReloadMidChordReleasing() returns (registered: set<HotKey>, waiting: bool, nextLeaderPressRegisters: bool)
    ensures registered == {HotKey("Enter")}
    ensures waiting
    ensures nextLeaderPressRegisters
  {
    var m := Start("Space");
    m.Handle("Space", null, 0, 0, true, false);
    var r := m.UpdateConfigReleasing(EditorConfig("Enter"), false, false);
    registered, waiting := m.os.registered, m.state.Waiting?;
    nextLeaderPressRegisters := m.CanRegisterApps();
  }

  /** Reloading the same configuration twice ends where reloading it once does. */
  method ReloadTwice() returns (once: set<HotKey>, twice: set<HotKey>, waiting: bool)
    ensures once == twice == {HotKey("Space")}
    ensures waiting
  {
    var m := Start("Space");
    var r := m.UpdateConfig(EditorConfig("Space"), false, false);
    once := m.os.registered;
    r := m.UpdateConfig(EditorConfig("Space"), false, false);
    twice, waiting := m.os.registered, m.state.Waiting?;
  }

  /**
   * For any manager, in any state, and any configuration the OS accepts:
   * when a first reload succeeds, a second reload of the same configuration
   * succeeds too and leaves the registrations, the state, the leader, the
   * timeout and the bindings exactly as the first one left them.
   */
  method ReloadTwiceIsReloadOnce(m: HotKeyManager, config: Config)
    returns (first: Outcome<Error>, second: Outcome<Error>, afterFirst: set<HotKey>)
    requires InLabelOrder(config.applications) && LabelsParse(config.applications, m.codeNames)
    requires config.leaderKey in m.codeNames
    modifies m`leaderKey, m`applications, m`state, m`timeout, m.os
    ensures first.Pass? ==> second.Pass?
    ensures first.Pass? ==> afterFirst == old(m.os.registered) - {old(m.leaderKey)} + {HotKey(config.leaderKey)}
    ensures first.Pass? ==> m.os.registered == afterFirst
    ensures first.Pass? ==> m.state == Waiting && m.leaderKey == HotKey(config.leaderKey)
    ensures first.Pass? ==> m.timeout == config.timeoutMs && m.applications == Applications(config.applications, m.codeNames)
  {
    first := m.UpdateConfig(config, false, false);
    afterFirst := m.os.registered;
    second := m.UpdateConfig(config, false, false);
  }

  /** A burst of modify events within 100 ms yields one signal; errors and other kinds yield none. */
  method DebouncedBurst() returns (forwarded: seq<bool>)
    ensures forwarded == [true, false, false, false, true]
  {
    var w := new Watcher();
    var a := w.OnEvent(WatchEvent(true), 1000);
    var b := w.OnEvent(WatchEvent(true), 1050);
    var c := w.OnEvent(WatchEvent(false), 1060);
    var d := w.OnEvent(WatchError, 1070);
    var e := w.OnEvent(WatchEvent(true), 1100);
    forwarded := [a, b, c, d, e];
  }
}
