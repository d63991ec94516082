/**
 * The leader-key chord state machine. While `Waiting` only the leader key
 * is registered with the OS facility; a leader press registers every
 * application hotkey and starts waiting for the second key; the second key
 * launches its application, and every way out of the chord unregisters
 * exactly the keys the chord registered.
 */
module HotKeys {
  import opened Wrappers
  import opened Keys
  import opened Clock
  import opened OsFacility
  import opened AppConfig

  /** The chord state. `pressedAt` is the leader press time in milliseconds. */
  datatype State = Waiting | AwaitingSecondKey(pressedAt: nat, registeredKeys: seq<HotKey>)

  /** Why building or reloading a manager failed. */
  datatype Error =
    | OsUnavailable                // GlobalHotKeyManager::new() failed
    | UnknownKeyCode(name: string) // Code::from_str rejected the leader label
    | RegisterFailed(key: HotKey)
    | UnregisterFailed(key: HotKey)

  /**
   * The application hotkeys, in binding order: the keys a leader press
   * registers. Each of them, once pressed, finds a binding to launch.
   */
  function AppKeys(apps: seq<(HotKey, Path)>): (r: seq<HotKey>)
    ensures |r| == |apps|
    ensures forall i :: 0 <= i < |apps| ==> r[i] == apps[i].0
    ensures forall i :: 0 <= i < |r| ==> FirstMatch(apps, Id(r[i])).Some?
  {
    seq(|apps|, i requires 0 <= i < |apps| => apps[i].0)
  }

  /**
   * The index of the first binding whose hotkey has id `id`, as
   * `iter().find(..)` finds it.
   */
  function FirstMatch(apps: seq<(HotKey, Path)>, id: HotKeyId): (r: Option<nat>)
    ensures r.Some? ==> r.value < |apps| && Id(apps[r.value].0) == id
    ensures r.Some? ==> forall k :: 0 <= k < r.value ==> Id(apps[k].0) != id
    ensures r.None? ==> forall k :: 0 <= k < |apps| ==> Id(apps[k].0) != id
  {
    if apps == [] then None
    else if Id(apps[0].0) == id then Some(0)
    else match FirstMatch(apps[1..], id)
      case None => None
      case Some(k) => Some(k + 1)
  }

  class HotKeyManager {
    const os: OsHotKeys
    /** The names `Code::from_str` accepts. */
    const codeNames: set<string>
    var leaderKey: HotKey
    var applications: seq<(HotKey, Path)>
    var state: State
    /** In milliseconds. */
    var timeout: nat
    /** The paths handed to the process launcher, in order. */
    var launches: seq<Path>

    /**
     * The registration invariant: the OS watches for the leader key and, while
     * a chord is in flight, for exactly the chord's keys, which are the
     * application hotkeys, each once, none of them the leader.
     */
    ghost predicate Valid()
      reads this, os
    {
      match state
      case Waiting => os.registered == {leaderKey}
      case AwaitingSecondKey(_, keys) =>
        keys == AppKeys(applications) && Distinct(keys) && leaderKey !in Elems(keys) &&
        os.registered == {leaderKey} + Elems(keys)
    }

    /** The bindings are usable: no hotkey twice and none is the leader. */
    predicate Registrable()
      reads this
    {
      var keys := AppKeys(applications);
      Distinct(keys) && leaderKey !in Elems(keys)
    }

    /** A leader press can register every application hotkey without a refusal. */
    predicate CanRegisterApps()
      reads this, os
    {
      var keys := AppKeys(applications);
      Distinct(keys) && Elems(keys) !! os.registered
    }

    constructor (os: OsHotKeys, codeNames: set<string>, leaderKey: HotKey,
                 applications: seq<(HotKey, Path)>, timeout: nat)
      ensures this.os == os && this.codeNames == codeNames && this.leaderKey == leaderKey
      ensures this.applications == applications && this.timeout == timeout
      ensures state == Waiting && launches == []
    {
      this.os := os;
      this.codeNames := codeNames;
      this.leaderKey := leaderKey;
      this.applications := applications;
      this.timeout := timeout;
      state := Waiting;
      launches := [];
    }

    /**
     * `HotKeyManager::from_config`: create the OS facility, parse and register
     * the leader key, and start `Waiting` with the configured bindings.
     */
    static method FromConfig(config: Config, codeNames: set<string>, osUnavailable: bool, leaderRefused: bool)
      returns (r: Result<HotKeyManager, Error>)
      requires InLabelOrder(config.applications)
      requires !osUnavailable && config.leaderKey in codeNames && !leaderRefused ==>
                 LabelsParse(config.applications, codeNames)
      ensures r.Ok? <==> !osUnavailable && config.leaderKey in codeNames && !leaderRefused
      ensures r.Err? ==>
                r.error == if osUnavailable then OsUnavailable
                           else if config.leaderKey !in codeNames then UnknownKeyCode(config.leaderKey)
                           else RegisterFailed(HotKey(config.leaderKey))
      ensures r.Ok? ==> fresh(r.value) && fresh(r.value.os) && r.value.Valid()
      ensures r.Ok? ==> r.value.state == Waiting && r.value.leaderKey == HotKey(config.leaderKey)
      ensures r.Ok? ==> r.value.os.registered == {r.value.leaderKey}
      ensures r.Ok? ==> r.value.os.log == [RegisterCall(r.value.leaderKey)]
      ensures r.Ok? ==> r.value.timeout == config.timeoutMs && r.value.codeNames == codeNames
      ensures r.Ok? ==> r.value.applications == Applications(config.applications, codeNames)
      ensures r.Ok? ==> r.value.launches == []
    {
      if osUnavailable {
        return Err(OsUnavailable);
      }
      var os := new OsHotKeys();
      var code := ParseCode(codeNames, config.leaderKey);
      if code.None? {
        return Err(UnknownKeyCode(config.leaderKey));
      }
      var leader := HotKey(code.value);
      var ok := os.Register(leader, leaderRefused);
      if !ok {
        return Err(RegisterFailed(leader));
      }
      var m := new HotKeyManager(os, codeNames, leader, Applications(config.applications, codeNames), config.timeoutMs);
      r := Ok(m);
    }

    /** A reload gets past every fallible step. */
    predicate ReloadSucceeds(config: Config, unregisterRefused: bool, registerRefused: bool)
      reads this, os
    {
      !unregisterRefused && config.leaderKey in codeNames && !registerRefused &&
      HotKey(config.leaderKey) !in os.registered - {leaderKey}
    }

    /**
     * `HotKeyManager::update_config`, as written: unregister the old leader,
     * parse and register the new one, then set `Waiting` and replace the
     * timeout and the bindings. The state is overwritten without a reset, so
     * the keys of a chord in flight stay registered; a failure after the first
     * step leaves the old leader unregistered and every field as it was.
     */
    method UpdateConfig(config: Config, unregisterRefused: bool, registerRefused: bool) returns (r: Outcome<Error>)
      requires InLabelOrder(config.applications)
      requires ReloadSucceeds(config, unregisterRefused, registerRefused) ==>
                 LabelsParse(config.applications, codeNames)
      modifies this`leaderKey, this`applications, this`state, this`timeout, os
      ensures r.Pass? <==> old(ReloadSucceeds(config, unregisterRefused, registerRefused))
      ensures r.Pass? ==> leaderKey == HotKey(config.leaderKey) && state == Waiting
      ensures r.Pass? ==> timeout == config.timeoutMs && applications == Applications(config.applications, codeNames)
      ensures r.Pass? ==> os.registered == old(os.registered) - {old(leaderKey)} + {leaderKey}
      ensures r.Pass? ==> os.log == old(os.log) + [UnregisterCall(old(leaderKey)), RegisterCall(leaderKey)]
      ensures r.Fail? ==> leaderKey == old(leaderKey) && state == old(state)
      ensures r.Fail? ==> timeout == old(timeout) && applications == old(applications)
      ensures r.Fail? && unregisterRefused ==>
                r.error == UnregisterFailed(old(leaderKey)) && os.registered == old(os.registered) &&
                os.log == old(os.log) + [UnregisterCall(old(leaderKey))]
      ensures r.Fail? && !unregisterRefused && config.leaderKey !in codeNames ==>
                os.log == old(os.log) + [UnregisterCall(old(leaderKey))]
      ensures r.Fail? && !unregisterRefused && config.leaderKey in codeNames ==>
                os.log == old(os.log) + [UnregisterCall(old(leaderKey)), RegisterCall(HotKey(config.leaderKey))]
      ensures r.Fail? && !unregisterRefused ==>
                os.registered == old(os.registered) - {old(leaderKey)} &&
                r.error == (if config.leaderKey !in codeNames then UnknownKeyCode(config.leaderKey)
                            else RegisterFailed(HotKey(config.leaderKey)))
      ensures r.Pass? && old(Valid()) ==> (Valid() <==> old(state).Waiting? || old(state).registeredKeys == [])
      ensures r.Pass? && old(Valid()) && old(state).AwaitingSecondKey? ==>
                Elems(old(state).registeredKeys) <= os.registered
    {
      var ok := os.Unregister(leaderKey, unregisterRefused);
      if !ok {
        return Fail(UnregisterFailed(leaderKey));
      }
      var code := ParseCode(codeNames, config.leaderKey);
      if code.None? {
        return Fail(UnknownKeyCode(config.leaderKey));
      }
      var leader := HotKey(code.value);
      ok := os.Register(leader, registerRefused);
      if !ok {
        return Fail(RegisterFailed(leader));
      }
      ghost var oldLeader := leaderKey;
      leaderKey := leader;
      state := Waiting;
      timeout := config.timeoutMs;
      applications := [];
      applications := Applications(config.applications, codeNames);
      r := Pass;
      if old(Valid()) && old(state).AwaitingSecondKey? {
        ghost var keys := old(state).registeredKeys;
        assert os.registered == Elems(keys) + {leader};
        assert keys != [] ==> keys[0] in os.registered && keys[0] != leader;
      }
    }

    /**
     * The reload with the chord released first: every key of a chord in
     * flight is unregistered before the leader is swapped.
     */
    method UpdateConfigReleasing(config: Config, unregisterRefused: bool, registerRefused: bool)
      returns (r: Outcome<Error>)
      requires InLabelOrder(config.applications)
      requires config.leaderKey in codeNames && !unregisterRefused && !registerRefused ==>
                 LabelsParse(config.applications, codeNames)
      modifies this`leaderKey, this`applications, this`state, this`timeout, os
      ensures state == Waiting
      ensures r.Pass? ==> config.leaderKey in codeNames && !unregisterRefused && !registerRefused
      ensures r.Pass? ==> leaderKey == HotKey(config.leaderKey)
      ensures r.Pass? ==> timeout == config.timeoutMs && applications == Applications(config.applications, codeNames)
      ensures r.Fail? ==> leaderKey == old(leaderKey) && timeout == old(timeout) && applications == old(applications)
      ensures old(Valid()) ==> (r.Pass? <==> config.leaderKey in codeNames && !unregisterRefused && !registerRefused)
      ensures old(Valid()) && r.Pass? ==> Valid() && os.registered == {leaderKey}
      ensures old(Valid()) && r.Fail? && !unregisterRefused ==> os.registered == {}
    {
      ResetState();
      r := UpdateConfig(config, unregisterRefused, registerRefused);
    }

    /** `is_timed_out`: a chord is in flight and more than `timeout` ms have passed since the leader press. */
    function IsTimedOut(now: nat): (r: bool)
      reads this
      ensures r <==> state.AwaitingSecondKey? && now > state.pressedAt + timeout
    {
      match state
      case AwaitingSecondKey(pressedAt, _) =>
        ElapsedExceeds(now, pressedAt, timeout);
        Elapsed(now, pressedAt) > timeout
      case Waiting => false
    }

    /**
     * `handle`: a hotkey-pressed event with id `eventId` at time `now`.
     * `conn` is the optional usage-log connection, `unixSecs` the wall-clock
     * time in seconds, `launchOk` whether the launcher started the
     * application, `insertFails` whether the log insert fails.
     */
    method Handle(eventId: HotKeyId, conn: AuditDb?, now: nat, unixSecs: nat, launchOk: bool, insertFails: bool)
      requires state.Waiting? && eventId == Id(leaderKey) ==> CanRegisterApps()
      modifies this`state, this`launches, os, conn
      // the leader while waiting: register every binding, in order, and start the chord
      ensures old(state).Waiting? && eventId == Id(leaderKey) ==>
                state == AwaitingSecondKey(now, AppKeys(applications)) &&
                os.registered == old(os.registered) + Elems(AppKeys(applications)) &&
                os.log == old(os.log) + RegisterCalls(AppKeys(applications)) &&
                launches == old(launches) && (conn != null ==> conn.rows == old(conn.rows))
      // a bound key while awaiting: launch the first binding with that id, log it, reset
      ensures old(state).AwaitingSecondKey? && FirstMatch(applications, eventId).Some? ==>
                var path := applications[FirstMatch(applications, eventId).value].1;
                launches == old(launches) + [path] &&
                state == Waiting &&
                os.registered == old(os.registered) - Elems(old(state).registeredKeys) &&
                os.log == old(os.log) + UnregisterCalls(old(state).registeredKeys) &&
                (conn != null ==> conn.rows == if launchOk && !insertFails
                                               then old(conn.rows) + [AuditRecord(unixSecs, path)]
                                               else old(conn.rows))
      // anything else is ignored
      ensures !(old(state).Waiting? && eventId == Id(leaderKey)) &&
              !(old(state).AwaitingSecondKey? && FirstMatch(applications, eventId).Some?) ==>
                state == old(state) && os.registered == old(os.registered) && os.log == old(os.log) &&
                launches == old(launches) && (conn != null ==> conn.rows == old(conn.rows))
      ensures old(Valid()) ==> Valid()
    {
      match state {
        case Waiting =>
          if eventId == Id(leaderKey) {
            var keys: seq<HotKey> := [];
            var i := 0;
            while i < |applications|
              invariant 0 <= i <= |applications|
              invariant keys == AppKeys(applications)[..i]
              invariant os.registered == old(os.registered) + Elems(keys)
              invariant os.log == old(os.log) + RegisterCalls(keys)
              modifies os
            {
              var h := applications[i].0;
              assert h == AppKeys(applications)[i] && h in Elems(AppKeys(applications));
              var ok := os.Register(h, false);
              assert ok;
              keys := keys + [h];
              i := i + 1;
            }
            assert keys == AppKeys(applications);
            state := AwaitingSecondKey(now, keys);
          }
        case AwaitingSecondKey(_, _) =>
          var found := FirstMatch(applications, eventId);
          if found.Some? {
            var path := applications[found.value].1;
            launches := launches + [path];
            if launchOk && conn != null {
              var logged := conn.Insert(AuditRecord(unixSecs, path), insertFails);
            }
            ResetState();
          }
      }
    }

    /**
     * `reset_state`: unregister every key of a chord in flight, in order,
     * and return to `Waiting`. In `Waiting` nothing but the state is touched.
     */
    method ResetState()
      modifies this`state, os
      ensures state == Waiting
      ensures old(state).AwaitingSecondKey? ==>
                os.registered == old(os.registered) - Elems(old(state).registeredKeys) &&
                os.log == old(os.log) + UnregisterCalls(old(state).registeredKeys)
      ensures old(state).Waiting? ==> os.registered == old(os.registered) && os.log == old(os.log)
      ensures old(Valid()) ==> Valid() && os.registered == {leaderKey}
    {
      if state.AwaitingSecondKey? {
        var keys := state.registeredKeys;
        var i := 0;
        while i < |keys|
          invariant 0 <= i <= |keys|
          invariant os.registered == old(os.registered) - Elems(keys[..i])
          invariant os.log == old(os.log) + UnregisterCalls(keys[..i])
          modifies os
        {
          var ok := os.Unregister(keys[i], false);
          assert keys[..i + 1] == keys[..i] + [keys[i]];
          i := i + 1;
        }
        assert keys[..i] == keys;
      }
      state := Waiting;
    }

    /**
     * The host's timeout poll after each batch of events: reset when the
     * chord has timed out.
     */
    method PollTimeout(now: nat) returns (didReset: bool)
      modifies this`state, os
      ensures didReset == old(IsTimedOut(now))
      ensures didReset ==>
                state == Waiting && os.registered == old(os.registered) - Elems(old(state).registeredKeys)
      ensures didReset ==> os.log == old(os.log) + UnregisterCalls(old(state).registeredKeys)
      ensures !didReset ==> state == old(state) && os.registered == old(os.registered) && os.log == old(os.log)
      ensures !IsTimedOut(now)
      ensures old(Valid()) ==> Valid()
    {
      didReset := IsTimedOut(now);
      if didReset {
        ResetState();
      }
    }
  }

  /**
   * When two labels name the pressed key ("e" and "KeyE"), the launched
   * binding is the one of the smallest such label, and its path is the one
   * configured for that label.
   */
  lemma FirstMatchTakesSmallestLabel(entries: seq<(string, Path)>, codeNames: set<string>, id: HotKeyId,
                                     keyLabel: string, path: Path)
    requires InLabelOrder(entries) && LabelsParse(entries, codeNames)
    requires FirstMatch(Applications(entries, codeNames), id).Some?
    requires (keyLabel, path) in entries && NormalizeLabel(keyLabel) == id
    ensures var k := FirstMatch(Applications(entries, codeNames), id).value;
            NormalizeLabel(entries[k].0) == id &&
            (entries[k].0 == keyLabel ==> entries[k].1 == path) &&
            (entries[k].0 != keyLabel ==> LabelLess(entries[k].0, keyLabel))
  {
    var apps := Applications(entries, codeNames);
    var k := FirstMatch(apps, id).value;
    var j :| 0 <= j < |entries| && entries[j] == (keyLabel, path);
    assert Id(apps[j].0) == id;
    if j != k {
      assert k < j;
      LabelOrderedIsMap(entries);
    }
  }

  /** While waiting under the invariant, a leader press can register the bindings exactly when they are usable. */
  lemma RegistrableWhenWaiting(m: HotKeyManager)
    requires m.Valid() && m.state.Waiting?
    ensures m.CanRegisterApps() <==> m.Registrable()
  {
  }
}
