/**
 * The external collaborators the manager drives: the process-wide hotkey
 * registration table of the OS facility (`GlobalHotKeyManager`) and the
 * optional SQLite usage log. Their failures are nondeterministic, so each
 * call that may fail takes a `refused` / `fails` flag as an input.
 */
module OsFacility {
  import opened Keys

  /** One call made on the hotkey facility, in the order it was made. */
  datatype OsCall = RegisterCall(key: HotKey) | UnregisterCall(key: HotKey)

  function RegisterCalls(keys: seq<HotKey>): (r: seq<OsCall>)
    ensures |r| == |keys|
  {
    seq(|keys|, i requires 0 <= i < |keys| => RegisterCall(keys[i]))
  }

  function UnregisterCalls(keys: seq<HotKey>): (r: seq<OsCall>)
    ensures |r| == |keys|
  {
    seq(|keys|, i requires 0 <= i < |keys| => UnregisterCall(keys[i]))
  }

  /** The OS hotkey facility: the set of hotkeys it currently watches for. */
  class OsHotKeys {
    var registered: set<HotKey>
    ghost var log: seq<OsCall>

    constructor ()
      ensures registered == {} && log == []
    {
      registered := {};
      log := [];
    }

    /**
     * `register(hotkey)`: refused when the hotkey is already registered
     * (`AlreadyRegistered`) or when the OS refuses it.
     */
    method Register(h: HotKey, refused: bool) returns (ok: bool)
      modifies this
      ensures ok <==> h !in old(registered) && !refused
      ensures registered == if ok then old(registered) + {h} else old(registered)
      ensures log == old(log) + [RegisterCall(h)]
    {
      ok := h !in registered && !refused;
      if ok {
        registered := registered + {h};
      }
      log := log + [RegisterCall(h)];
    }

    /**
     * `unregister(hotkey)`: removes the hotkey; a hotkey that is not
     * registered is left alone and the call still succeeds, unless the OS
     * refuses the call.
     */
    method Unregister(h: HotKey, refused: bool) returns (ok: bool)
      modifies this
      ensures ok <==> !refused
      ensures registered == if ok then old(registered) - {h} else old(registered)
      ensures log == old(log) + [UnregisterCall(h)]
    {
      ok := !refused;
      if ok {
        registered := registered - {h};
      }
      log := log + [UnregisterCall(h)];
    }
  }

  /** A row of the `log (datetime, application)` table. */
  datatype AuditRecord = AuditRecord(datetime: nat, application: string)

  /** The optional SQLite connection, reduced to the rows of its `log` table. */
  class AuditDb {
    var rows: seq<AuditRecord>

    constructor ()
      ensures rows == []
    {
      rows := [];
    }

    /** `INSERT INTO log ...`: appends the record unless the statement fails. */
    method Insert(rec: AuditRecord, fails: bool) returns (ok: bool)
      modifies this
      ensures ok <==> !fails
      ensures rows == if ok then old(rows) + [rec] else old(rows)
    {
      ok := !fails;
      if ok {
        rows := rows + [rec];
      }
    }
  }
}
