/** The therapy chat client of `src/services/llmService.ts`: one stored
    session id decides whether a user message starts a new conversation or
    continues the current one. The HTTP exchange is an oracle: each call is
    handed the reply the server would give. */
module LlmService {
  import opened Wrappers
  import opened ChatTypes

  /** The JSON body the server returns. */
  datatype TherapyResponse = TherapyResponse(
    response: string,
    sessionId: string,
    interactionCount: int,
    stage: string,
    apiSource: string,
    success: bool,
    error: Option<string>)

  /** What `fetch` and `response.json()` produce: a failure (network error or
      a body that is not JSON), or an HTTP reply with its `ok` flag. */
  datatype ServerReply = NetworkFailure | HttpReply(ok: bool, status: int, body: TherapyResponse)

  /** The request a call sends to the server. */
  datatype Request =
    | StartRequest(userInput: string)
    | ContinueRequest(sessionId: string, userInput: string)

  /** Which endpoint `generateResponse` uses. */
  datatype Endpoint = Start | Continue

  const StartFailure := "Failed to connect to therapy service. Please try again."
  const ContinueFailure := "Failed to get response from therapy service. Please try again."
  const NoActiveSession := "No active session. Please start a new conversation."
  const InvalidMessageFormat := "Invalid message format"

  /** The reply passes both checks: HTTP ok and `success: true`. */
  predicate Accepted(reply: ServerReply) {
    reply.HttpReply? && reply.ok && reply.body.success
  }

  /** `!this.sessionId` is false: a non-empty session id is stored. */
  predicate IsActive(session: Option<string>) {
    session.Some? && session.value != ""
  }

  /** The assistant message built from an accepted reply. */
  function ReplyMessage(body: TherapyResponse, id: Uuid, now: int): (m: Message)
    ensures m.role == Assistant && m.content == body.response && m.id == id
    ensures m.metadata == Some(Metadata(Some(body.sessionId), Some(body.interactionCount), Some(body.stage), Some(body.apiSource)))
  {
    Message(id, Assistant, body.response, now,
      Some(Metadata(Some(body.sessionId), Some(body.interactionCount), Some(body.stage), Some(body.apiSource))))
  }

  /** The routing rule of `generateResponse`: a one-message history, or no
      active session, starts a conversation; anything else continues it. */
  function Route(historyLength: nat, session: Option<string>): (e: Endpoint)
    ensures e == Continue <==> historyLength != 1 && IsActive(session)
  {
    if historyLength == 1 || !IsActive(session) then Start else Continue
  }

  /** `generateResponse` accepts a history only when it ends with a user message. */
  predicate WellFormedHistory(messages: seq<Message>) {
    |messages| > 0 && messages[|messages| - 1].role == User
  }

  class TherapyAPIService {
    var sessionId: Option<string>

    /** A fresh service has no session. */
    constructor()
      ensures sessionId == None
    {
      sessionId := None;
    }

    /** `getSessionId`. */
    method GetSessionId() returns (s: Option<string>)
      ensures s == sessionId
    {
      s := sessionId;
    }

    /** `resetSession`. */
    method ResetSession()
      modifies this
      ensures sessionId == None
    {
      sessionId := None;
    }

    /** `startConversation`: the session id of an accepted reply is stored;
        any failure (network, HTTP status, `success: false`) is reported with
        one fixed message and leaves the session alone. */
    method StartConversation(userMessage: string, reply: ServerReply, freshId: Uuid, now: int)
      returns (r: Result<Message>, sent: Request)
      modifies this
      ensures sent == StartRequest(userMessage)
      ensures Accepted(reply) ==>
        r == Ok(ReplyMessage(reply.body, freshId, now)) && sessionId == Some(reply.body.sessionId)
      ensures !Accepted(reply) ==> r == Err(StartFailure) && sessionId == old(sessionId)
    {
      sent := StartRequest(userMessage);
      if reply.NetworkFailure? || !reply.ok || !reply.body.success {
        // every error inside the try block is replaced by the fixed message
        r := Err(StartFailure);
        return;
      }
      sessionId := Some(reply.body.sessionId);
      r := Ok(ReplyMessage(reply.body, freshId, now));
    }

    /** `continueConversation`: refused without contacting the server when no
        session is active; otherwise the reply is returned and the stored
        session id is never changed, whatever id the server sends back. */
    method ContinueConversation(userMessage: string, reply: ServerReply, freshId: Uuid, now: int)
      returns (r: Result<Message>, sent: Option<Request>)
      ensures !IsActive(sessionId) ==> r == Err(NoActiveSession) && sent == None
      ensures IsActive(sessionId) ==> sent == Some(ContinueRequest(sessionId.value, userMessage))
      ensures IsActive(sessionId) && Accepted(reply) ==> r == Ok(ReplyMessage(reply.body, freshId, now))
      ensures IsActive(sessionId) && !Accepted(reply) ==> r == Err(ContinueFailure)
    {
      if !IsActive(sessionId) {
        r, sent := Err(NoActiveSession), None;
        return;
      }
      sent := Some(ContinueRequest(sessionId.value, userMessage));
      if reply.NetworkFailure? || !reply.ok || !reply.body.success {
        r := Err(ContinueFailure);
        return;
      }
      r := Ok(ReplyMessage(reply.body, freshId, now));
    }
  }

  /** The session id `generateResponse` leaves stored: only an accepted
      start replaces it. */
  function SessionAfter(messages: seq<Message>, session: Option<string>, reply: ServerReply): Option<string> {
    if WellFormedHistory(messages) && Route(|messages|, session) == Start && Accepted(reply)
    then Some(reply.body.sessionId) else session
  }

  /** The request `generateResponse` sends, if any. */
  function RequestSent(messages: seq<Message>, session: Option<string>): Option<Request> {
    if !WellFormedHistory(messages) then None
    else if Route(|messages|, session) == Start then Some(StartRequest(messages[|messages| - 1].content))
    else Some(ContinueRequest(session.value, messages[|messages| - 1].content))
  }

  /** What `generateResponse` resolves to (`Ok`) or rejects with (`Err`). */
  function Respond(messages: seq<Message>, session: Option<string>, reply: ServerReply, freshId: Uuid, now: int): Result<Message> {
    if !WellFormedHistory(messages) then Err(InvalidMessageFormat)
    else if Accepted(reply) then Ok(ReplyMessage(reply.body, freshId, now))
    else if Route(|messages|, session) == Start then Err(StartFailure)
    else Err(ContinueFailure)
  }

  /** The promises of `generateResponse`: a malformed history is rejected
      without a request; a reply is always an assistant message whose metadata
      is copied from the server; a continued conversation never changes the
      stored session, and a failure never does either; every start failure
      has the one fixed message. */
  lemma RespondSpec(messages: seq<Message>, session: Option<string>, reply: ServerReply, freshId: Uuid, now: int)
    ensures !WellFormedHistory(messages) ==>
      Respond(messages, session, reply, freshId, now) == Err(InvalidMessageFormat)
      && RequestSent(messages, session) == None && SessionAfter(messages, session, reply) == session
    ensures Respond(messages, session, reply, freshId, now).Ok? ==>
      var m := Respond(messages, session, reply, freshId, now).value;
      m.role == Assistant && m.content == reply.body.response && m.id == freshId
      && m.metadata == Some(Metadata(Some(reply.body.sessionId), Some(reply.body.interactionCount),
                                     Some(reply.body.stage), Some(reply.body.apiSource)))
    ensures Respond(messages, session, reply, freshId, now).Err? ==> SessionAfter(messages, session, reply) == session
    ensures Route(|messages|, session) == Continue ==> SessionAfter(messages, session, reply) == session
    ensures WellFormedHistory(messages) && Route(|messages|, session) == Start && !Accepted(reply) ==>
      Respond(messages, session, reply, freshId, now) == Err(StartFailure)
    ensures WellFormedHistory(messages) && Route(|messages|, session) == Start && Accepted(reply) ==>
      SessionAfter(messages, session, reply) == Some(reply.body.sessionId)
  {
  }

  /** `generateResponse`, on the service singleton `api`. */
  method GenerateResponse(api: TherapyAPIService, messages: seq<Message>, reply: ServerReply, freshId: Uuid, now: int)
    returns (r: Result<Message>, sent: Option<Request>)
    modifies api
    ensures r == Respond(messages, old(api.sessionId), reply, freshId, now)
    ensures sent == RequestSent(messages, old(api.sessionId))
    ensures api.sessionId == SessionAfter(messages, old(api.sessionId), reply)
  {
    if |messages| == 0 || messages[|messages| - 1].role != User {
      r, sent := Err(InvalidMessageFormat), None;
      return;
    }
    var userContent := messages[|messages| - 1].content;
    var session := api.GetSessionId();
    var isFirstMessage := |messages| == 1 || !IsActive(session);
    if isFirstMessage {
      var req;
      r, req := api.StartConversation(userContent, reply, freshId, now);
      sent := Some(req);
    } else {
      r, sent := api.ContinueConversation(userContent, reply, freshId, now);
    }
  }
}
