/**
 * The session store the controller calls (createNewSession, saveSession,
 * getSessions and the browser storage behind them). Its implementation is
 * not part of this model: its durable collection is an abstract list of
 * sessions, and saving promises only that the saved session is recorded.
 * Reading and writing the browser storage can throw (a full quota, corrupt
 * data); which call throws is left open, and a call that throws reports it.
 */
module Memory {
  import opened Wrappers
  import opened Types

  class SessionStore {
    /** The sessions the store holds, in the order it lists them. */
    var records: seq<ChatSession>

    constructor (initial: seq<ChatSession>)
      ensures records == initial
    {
      records := initial;
    }

    /**
     * Records the session and returns normally (`ok`), or throws, after which
     * nothing is known of the stored sessions. Whether a recorded session
     * replaces an older copy, and where it goes, is left open.
     */
    method Save(s: ChatSession) returns (ok: bool)
      modifies this
      ensures ok ==> s in records
    {
      ok :| true;
      if ok {
        assert s in [s];
        var after: seq<ChatSession> :| s in after;
        records := after;
      } else {
        var after: seq<ChatSession> :| true;
        records := after;
      }
    }

    /** Lists exactly the stored sessions, or throws (`None`). */
    method GetSessions() returns (listed: Option<seq<ChatSession>>)
      ensures listed.Some? ==> listed.value == records
    {
      var ok: bool :| true;
      listed := if ok then Some(records) else None;
    }

    /** Wipes the storage: no session is left. */
    method Clear()
      modifies this
      ensures records == []
    {
      records := [];
    }
  }
}
