/**
 * How a turn's reply lands in the chat: the placeholder appended when the
 * turn starts is found again by its id and settled with the engine's
 * answer or with the error the engine threw.
 */
module Transcript {
  import opened Wrappers
  import opened ChatModel

  /** What a turn started with and needs to finish: the placeholder's id and the user's text. */
  datatype Turn = Turn(botId: int, userText: string)

  /** The engine's answer to a prompt, or the exception (with its message, if any) it threw. */
  datatype EngineResult = Completed(response: string) | Threw(message: Option<string>)

  /** The reply used when no engine is loaded; it is not flagged as an error. */
  const ModelNotLoaded := "Error: Model not loaded"

  /** The text of a failed reply. */
  function ErrorText(message: Option<string>): (r: string)
    ensures "Error: " <= r
    ensures message.Some? ==> r[|"Error: "|..] == message.value
    ensures message.None? ==> r[|"Error: "|..] == "Unknown error"
  {
    "Error: " + message.GetOr("Unknown error")
  }

  /**
   * The engine's contribution to a turn: the missing-engine reply when none
   * is loaded, the engine's own result otherwise.
   */
  function Reply(llm: Option<Engine>, generate: (Engine, string) -> EngineResult, prompt: string): (r: EngineResult)
    ensures llm.None? ==> r == Completed(ModelNotLoaded)
    ensures llm.Some? ==> r == generate(llm.value, prompt)
  {
    match llm
    case None => Completed(ModelNotLoaded)
    case Some(e) => generate(e, prompt)
  }

  /**
   * `indexOfFirst { it.id == id }`: the position of the first message with
   * that id, or -1 when there is none.
   */
  function IndexOfFirst(ms: seq<Message>, id: int): (r: int)
    ensures -1 <= r < |ms|
    ensures r == -1 <==> forall i :: 0 <= i < |ms| ==> ms[i].id != id
    ensures r >= 0 ==> ms[r].id == id && forall j :: 0 <= j < r ==> ms[j].id != id
  {
    if |ms| == 0 then -1
    else if ms[0].id == id then 0
    else
      var k := IndexOfFirst(ms[1..], id);
      if k == -1 then -1 else k + 1
  }

  /**
   * A placeholder after the engine has answered: no longer streaming, with
   * the reply as its text, or with the error text and the error flag.
   * Its id and sender stay.
   */
  function Resolved(m: Message, outcome: EngineResult): (r: Message)
    ensures r.id == m.id && r.sender == m.sender && !r.isStreaming
    ensures outcome.Completed? ==> r.text == outcome.response && r.isError == m.isError
    ensures outcome.Threw? ==> r.isError && r.text == ErrorText(outcome.message)
  {
    match outcome
    case Completed(response) => m.(text := response, isStreaming := false)
    case Threw(message) => m.(text := ErrorText(message), isError := true, isStreaming := false)
  }

  /**
   * The chat after a turn's reply arrives: the first message carrying the
   * placeholder's id is resolved, every other message stays, and a chat
   * without that id (cleared or replaced meanwhile) is left as it is.
   */
  function Settle(ms: seq<Message>, botId: int, outcome: EngineResult): (r: seq<Message>)
    ensures |r| == |ms| && forall i :: 0 <= i < |ms| ==> r[i].id == ms[i].id
    ensures (forall i :: 0 <= i < |ms| ==> ms[i].id != botId) ==> r == ms
    ensures forall i :: 0 <= i < |ms| && r[i] != ms[i] ==>
      ms[i].id == botId && forall j :: 0 <= j < i ==> ms[j].id != botId
    ensures forall i :: 0 <= i < |ms| && ms[i].id == botId && (forall j :: 0 <= j < i ==> ms[j].id != botId) ==>
      r[i] == Resolved(ms[i], outcome)
  {
    var k := IndexOfFirst(ms, botId);
    if k == -1 then ms else ms[k := Resolved(ms[k], outcome)]
  }

  /** No message of the chat carries `id`. */
  predicate FreshId(ms: seq<Message>, id: int) {
    forall i :: 0 <= i < |ms| ==> ms[i].id != id
  }

  /**
   * A turn that nothing interrupted: when the placeholder's id is fresh,
   * the chat ends with the user's line and the resolved placeholder, and
   * everything before them is untouched.
   */
  lemma SettleFreshTurn(prior: seq<Message>, user: Message, botId: int, outcome: EngineResult)
    requires FreshId(prior, botId) && user.id != botId
    ensures Settle(prior + [user, Placeholder(botId)], botId, outcome)
      == prior + [user, Resolved(Placeholder(botId), outcome)]
  {
    var ms := prior + [user, Placeholder(botId)];
    assert ms[|prior| + 1].id == botId;
    var r := Settle(ms, botId, outcome);
    assert r[|prior| + 1] == Resolved(Placeholder(botId), outcome);
    assert forall i :: 0 <= i < |prior| + 1 ==> r[i] == ms[i];
  }
}
