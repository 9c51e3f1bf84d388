/**
 The assistant chat panel: whether the popup is open, the transcript, the
 query being typed and a loading flag. Sending is split into `BeginSend`
 (guard, optimistic user message, request chosen) and `CompleteSend` (the
 assistant's reply once the request's outcome is known).
 */
module Chat {
  import opened Outcomes
  import Text

  datatype Role = User | Ai

  datatype Message = Message(role: Role, text: string)

  datatype ChatState = ChatState(isOpen: bool, messages: seq<Message>, query: string, loading: bool)

  /** What a send produced: the new state and the query posted, if any. */
  datatype Sent = Sent(state: ChatState, request: Option<string>)

  const NoResponse := "No response"
  const Apology := "Sorry, I encountered an error while processing your question."

  function Initial(): ChatState {
    ChatState(false, [], "", false)
  }

  /** First half of the send handler. A query that trims to nothing sends
      nothing and changes nothing. Otherwise the trimmed query is appended as
      the user's message and posted, the input is emptied and the panel is
      marked loading. The handler itself does not look at `loading`. */
  function BeginSend(c: ChatState): (r: Sent)
    ensures Text.Trim(c.query) == "" <==> r.request.None?
    ensures r.request.None? ==> r.state == c
    ensures r.request.Some? ==>
      && var q := r.request.value;
      && q == Text.Trim(c.query) && q != ""
      && |r.state.messages| == |c.messages| + 1
      && r.state.messages[..|c.messages|] == c.messages
      && r.state.messages[|c.messages|] == Message(User, q)
      && r.state.query == "" && r.state.loading && r.state.isOpen == c.isOpen
  {
    var q := Text.Trim(c.query);
    if q == "" then Sent(c, None)
    else
      Sent(c.(messages := c.messages + [Message(User, q)], query := "", loading := true), Some(q))
  }

  /** The query posted has no whitespace left to trim at either end. */
  lemma PostedQueryIsTrimmed(c: ChatState)
    ensures var b := BeginSend(c);
      b.request.Some? ==> Text.Trim(b.request.value) == b.request.value
  {
  }

  /** The assistant's text for an outcome: the response when it is a
      non-empty string, "No response" for a success without one, and the fixed
      apology for any failure, whatever the server said. */
  function Reply(o: Outcome): (r: string)
    ensures r != ""
    ensures o.Err? ==> r == Apology
    ensures o.Ok? ==> r == NoResponse || Some(r) == o.response
    ensures o.Ok? && o.response.Some? && o.response.value != "" ==> r == o.response.value
    ensures o.Ok? && (o.response.None? || o.response.value == "") ==> r == NoResponse
  {
    match o
    case Ok(resp) => OrElse(resp, NoResponse)
    case Err(_) => Apology
  }

  /** Second half of the send handler: one assistant message at the end of
      the transcript as it is now, and the loading flag down. */
  function CompleteSend(c: ChatState, o: Outcome): (r: ChatState)
    ensures |r.messages| == |c.messages| + 1
    ensures r.messages[..|c.messages|] == c.messages
    ensures r.messages[|c.messages|] == Message(Ai, Reply(o))
    ensures !r.loading && r.query == c.query && r.isOpen == c.isOpen
  {
    c.(messages := c.messages + [Message(Ai, Reply(o))], loading := false)
  }

  /** The clear button: the transcript goes, nothing else changes and no
      request is cancelled. */
  function ClearChat(c: ChatState): (r: ChatState)
    ensures r.messages == []
    ensures r.query == c.query && r.loading == c.loading && r.isOpen == c.isOpen
  {
    c.(messages := [])
  }

  /** The floating toggle button. */
  function Toggle(c: ChatState): (r: ChatState)
    ensures r.isOpen == !c.isOpen
    ensures r.messages == c.messages && r.query == c.query && r.loading == c.loading
  {
    c.(isOpen := !c.isOpen)
  }

  /** The popup's close button. */
  function Close(c: ChatState): (r: ChatState)
    ensures !r.isOpen
    ensures r.messages == c.messages && r.query == c.query && r.loading == c.loading
  {
    c.(isOpen := false)
  }

  function EditQuery(c: ChatState, q: string): (r: ChatState)
    ensures r.query == q && r == c.(query := r.query)
  {
    c.(query := q)
  }

  /** The send button is enabled when nothing is loading and the query has
      something besides whitespace. */
  predicate SendEnabled(c: ChatState) {
    !c.loading && Text.Trim(c.query) != ""
  }

  /** A query is sent exactly when it has a non-whitespace character. */
  lemma SendsIffNotBlank(c: ChatState)
    ensures BeginSend(c).request.Some? <==> exists i :: 0 <= i < |c.query| && !Text.IsTrimmable(c.query[i])
  {
    Text.TrimEmptyIff(c.query);
  }

  /** A full exchange with nothing in between: the transcript grows by exactly
      two, the old transcript is its prefix, the user's trimmed query comes
      first and the assistant's reply second, and the panel is idle again. */
  lemma SendExchange(c: ChatState, o: Outcome)
    requires Text.Trim(c.query) != ""
    ensures var b := BeginSend(c);
      && b.request.Some?
      && var r := CompleteSend(b.state, o);
      && |r.messages| == |c.messages| + 2
      && c.messages <= r.messages
      && r.messages[|c.messages|] == Message(User, Text.Trim(c.query))
      && r.messages[|c.messages| + 1] == Message(Ai, Reply(o))
      && !r.loading && r.query == "" && r.isOpen == c.isOpen
  {
  }

  /** Clearing while a request is in flight does not stop it: the reply then
      arrives into the empty transcript and is all that is left. */
  lemma ClearDuringSend(c: ChatState, o: Outcome)
    requires Text.Trim(c.query) != ""
    ensures CompleteSend(ClearChat(BeginSend(c).state), o).messages == [Message(Ai, Reply(o))]
  {
  }

  /** A failure leaves no trace beyond the apology: two failures with
      different server messages give the same state. */
  lemma FailureIsAbsorbed(c: ChatState, e1: Option<string>, e2: Option<string>)
    ensures CompleteSend(c, Err(e1)) == CompleteSend(c, Err(e2))
  {
  }
}
