/** The session registry of the web service: one dialog engine per session id. */
module Sessions {
  import opened Wrappers
  import opened Text
  import opened Values
  import opened Dialog

  /** One exchange of the web chat, as the chat route stores it. */
  datatype Exchange = Exchange(user: string, assistant: string, orderData: Option<Dict>)

  /** A session record: the customer's name, the session's dialog engine and the exchanges so far. */
  datatype SessionRecord = SessionRecord(customerName: string, dialog: DialogManager, conversationHistory: seq<Exchange>)

  class SessionManager {
    var sessions: map<string, SessionRecord>

    constructor ()
      ensures sessions == map[]
    {
      sessions := map[];
    }

    /**
      `create_session`: a new dialog engine, started for the customer, stored with an empty exchange
      list under `sessionId` (the fresh id); other sessions are untouched. `instructions` is the
      prompt text the engine loads.
    */
    method CreateSession(customerName: string, sessionId: string, instructions: string) returns (id: string, greeting: string)
      modifies this
      ensures id == sessionId && id in sessions
      ensures sessions == old(sessions)[id := sessions[id]]
      ensures |sessions| == if id in old(sessions) then |old(sessions)| else |old(sessions)| + 1
      ensures sessions[id].customerName == customerName && sessions[id].conversationHistory == []
      ensures fresh(sessions[id].dialog) && sessions[id].dialog.instructions == instructions
      ensures sessions[id].dialog.customerName == customerName
      ensures sessions[id].dialog.conversationHistory == [] && sessions[id].dialog.orderContext == []
      ensures greeting == Greeting(customerName) && Contains(greeting, customerName)
    {
      var dialog := new DialogManager(instructions);
      greeting := dialog.StartConversation(customerName);
      sessions := sessions[sessionId := SessionRecord(customerName, dialog, [])];
      id := sessionId;
    }

    /** `get_session`: the record stored under `sessionId`, if any. */
    function GetSession(sessionId: string): (r: Option<SessionRecord>)
      reads this
      ensures r.Some? <==> sessionId in sessions
      ensures r.Some? ==> r.value == sessions[sessionId]
    {
      if sessionId in sessions then Some(sessions[sessionId]) else None
    }

    /** `delete_session`: removes a stored session and says so; an unknown id changes nothing. */
    method DeleteSession(sessionId: string) returns (ok: bool)
      modifies this
      ensures ok <==> sessionId in old(sessions)
      ensures sessions == old(sessions) - {sessionId} && sessionId !in sessions
      ensures |sessions| == if ok then |old(sessions)| - 1 else |old(sessions)|
    {
      if sessionId in sessions {
        sessions := sessions - {sessionId};
        return true;
      }
      return false;
    }

    /** `get_active_sessions_count`: the number of stored sessions. */
    function GetActiveSessionsCount(): (n: nat)
      reads this
      ensures n == |sessions.Keys|
    {
      |sessions|
    }
  }

  /** Deleting the same session twice: the second delete reports failure and changes nothing. */
  method DeleteTwice(registry: SessionManager, sessionId: string) returns (first: bool, second: bool)
    modifies registry
    ensures first <==> sessionId in old(registry.sessions)
    ensures !second
    ensures registry.sessions == old(registry.sessions) - {sessionId}
  {
    first := registry.DeleteSession(sessionId);
    second := registry.DeleteSession(sessionId);
  }
}
