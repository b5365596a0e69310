/**
 * The chat history of each session, as `get_memory` in
 * `backend/app/memory/file_memory.py` keeps it: one history per file named
 * after the session id. The files themselves are not modelled; the store is
 * a map from file name to the messages saved so far.
 */
module SessionMemory {
  import opened Wrappers
  import opened Text
  import opened Schema

  /**
   * The history file of a session: `f"{session_id}.json"`. A request without
   * an `X-Session-ID` header has session id `None`, which formats as `None`.
   */
  function SessionKey(header: Option<string>): (key: string)
    ensures IsSuffix(".json", key)
    ensures key[..|key| - 5] == header.GetOr("None")
  {
    header.GetOr("None") + ".json"
  }

  /** Different session ids have differently named history files. */
  lemma SessionKeyInjective(a: string, b: string)
    requires SessionKey(Some(a)) == SessionKey(Some(b))
    ensures a == b
  {
    var ka := SessionKey(Some(a));
    assert a == ka[..|ka| - 5];
  }

  /** A request without the header shares the history of the session whose id is `None`. */
  lemma AbsentHeaderSharesHistory()
    ensures SessionKey(None) == SessionKey(Some("None"))
  {
  }

  /** The histories saved so far, by file name. */
  class SessionStore {
    var histories: map<string, seq<Message>>

    constructor ()
      ensures histories == map[]
    {
      histories := map[];
    }

    /** `get_memory(session_id).messages`: empty for a session never written. */
    function History(key: string): seq<Message>
      reads this
    {
      if key in histories then histories[key] else []
    }

    /** `get_memory(session_id).add_messages(messages)`. */
    method AddMessages(key: string, messages: seq<Message>)
      modifies this
      ensures histories == old(histories)[key := old(History(key)) + messages]
      ensures History(key) == old(History(key)) + messages
      ensures forall k :: k != key ==> History(k) == old(History(k))
    {
      histories := histories[key := History(key) + messages];
    }
  }
}
