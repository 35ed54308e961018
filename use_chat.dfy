/** The chat hook of the client (client/src/hooks/useChat.js): the message
    log, the loading flag and the error, updated step by step while a message
    is sent. The clock (message ids and timestamps) and the server's answer
    are parameters; `sendMessage` is split at its `await` into StartSend and
    FinishSend. */
module UseChat {
  import opened Js
  import opened Text

  /** A chat message object, field by field. */
  type Message = map<string, string>

  /** How the call to the server ended: its answer, or the thrown error's
      message (absent or empty when the error carries none). */
  datatype Reply = Answered(response: string) | Rejected(message: Option<string>)

  const DefaultError := "Failed to get response from AI"

  function UserMessage(content: string, id: string, timestamp: string): Message {
    map["id" := id, "type" := "user", "content" := content, "timestamp" := timestamp]
  }

  function AiMessage(content: string, id: string, timestamp: string): Message {
    map["id" := id, "type" := "ai", "content" := content, "timestamp" := timestamp]
  }

  /** `err.message || 'Failed to get response from AI'` */
  function ErrorText(message: Option<string>): (text: string)
    ensures text != ""
    ensures message.Some? && message.value != "" ==> text == message.value
    ensures !(message.Some? && message.value != "") ==> text == DefaultError
  {
    if message.Some? && message.value != "" then message.value else DefaultError
  }

  /** `{ id, timestamp, ...fields }`: the caller's fields win over the
      generated id and timestamp. */
  function Stamped(fields: Message, id: string, timestamp: string): (m: Message)
    ensures m.Keys == fields.Keys + {"id", "timestamp"}
    ensures forall k :: k in fields ==> m[k] == fields[k]
    ensures "id" !in fields ==> m["id"] == id
    ensures "timestamp" !in fields ==> m["timestamp"] == timestamp
  {
    map["id" := id, "timestamp" := timestamp] + fields
  }

  class ChatSession {
    var messages: seq<Message>
    var isLoading: bool
    var error: Option<string>

    constructor ()
      ensures messages == [] && !isLoading && error == None
    {
      messages, isLoading, error := [], false, None;
    }

    /** What sendMessage does before it awaits the server: log the user's
        message, start loading, clear the error. */
    method StartSend(message: string, id: string, timestamp: string)
      modifies this
      ensures messages == old(messages) + [UserMessage(message, id, timestamp)]
      ensures isLoading && error == None
    {
      messages := messages + [UserMessage(message, id, timestamp)];
      isLoading := true;
      error := None;
    }

    /** What sendMessage does once the server has answered or failed: log
        the answer, or record the error and keep the log; stop loading. */
    method FinishSend(reply: Reply, id: string, timestamp: string)
      modifies this
      ensures reply.Answered? ==>
        messages == old(messages) + [AiMessage(reply.response, id, timestamp)] && error == old(error)
      ensures reply.Rejected? ==> messages == old(messages) && error == Some(ErrorText(reply.message))
      ensures !isLoading
    {
      match reply {
        case Answered(response) =>
          messages := messages + [AiMessage(response, id, timestamp)];
        case Rejected(message) =>
          error := Some(ErrorText(message));
      }
      isLoading := false;
    }

    /** A blank message changes nothing. Otherwise the user's message is
        logged, followed by the answer when there is one; the error is the
        failure's message or none, and loading has stopped. */
    method SendMessage(message: string, reply: Reply, userId: string, sentAt: string, aiId: string, answeredAt: string)
      modifies this
      ensures Trim(message) == "" ==>
        messages == old(messages) && isLoading == old(isLoading) && error == old(error)
      ensures Trim(message) != "" ==>
        messages == old(messages) + [UserMessage(message, userId, sentAt)]
          + (if reply.Answered? then [AiMessage(reply.response, aiId, answeredAt)] else [])
        && !isLoading
        && error == (if reply.Answered? then None else Some(ErrorText(reply.message)))
    {
      if Trim(message) == "" {
        return;
      }
      StartSend(message, userId, sentAt);
      FinishSend(reply, aiId, answeredAt);
    }

    method ClearMessages()
      modifies this
      ensures messages == [] && error == None && isLoading == old(isLoading)
    {
      messages := [];
      error := None;
    }

    /** Appends one message; the caller's fields override the generated id
        and timestamp. */
    method AddMessage(fields: Message, id: string, timestamp: string)
      modifies this
      ensures messages == old(messages) + [Stamped(fields, id, timestamp)]
      ensures isLoading == old(isLoading) && error == old(error)
    {
      messages := messages + [Stamped(fields, id, timestamp)];
    }
  }

  /** A message that is not blank always leaves the user's words in the log,
      right after what was there. */
  lemma SentMessageIsLogged(before: seq<Message>, message: string, reply: Reply,
                            userId: string, sentAt: string, aiId: string, answeredAt: string)
    ensures var after := before + [UserMessage(message, userId, sentAt)]
          + (if reply.Answered? then [AiMessage(reply.response, aiId, answeredAt)] else []);
      after[..|before|] == before
      && after[|before|]["type"] == "user" && after[|before|]["content"] == message
      && (reply.Answered? <==> |after| == |before| + 2)
      && (reply.Answered? ==> after[|before| + 1]["type"] == "ai" && after[|before| + 1]["content"] == reply.response)
  {
  }
}
