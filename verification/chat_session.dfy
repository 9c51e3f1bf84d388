/**
 The chat panel driven by a sequence of user and network events, with the
 rendering rules in force. The input, the send, clear and close buttons exist
 only while the popup is open. The input is disabled while loading, and the
 send button also while the query is blank. Each event is handled atomically,
 in order. `Resolve` delivers the outcome of the oldest request in flight.
 */
module ChatSession {
  import opened Outcomes
  import opened Chat
  import Text

  datatype Event =
    | TypeQuery(query: string)
    | PressSend
    | PressEnter
    | Resolve(outcome: Outcome)
    | PressClear
    | PressToggle
    | PressClose

  /** The panel and the queries posted whose outcome has not arrived yet. */
  datatype Session = Session(chat: ChatState, pending: seq<string>)

  function Start(): Session {
    Session(Initial(), [])
  }

  /** Begins a send and records the request it posts, if any. */
  function Submit(s: Session): (r: Session)
    ensures Text.Trim(s.chat.query) == "" ==> r == s
    ensures Text.Trim(s.chat.query) != "" ==>
      && r.chat == BeginSend(s.chat).state
      && r.pending == s.pending + [Text.Trim(s.chat.query)]
  {
    var b := BeginSend(s.chat);
    match b.request
    case None => s.(chat := b.state)
    case Some(q) => Session(b.state, s.pending + [q])
  }

  /** One event. */
  function Apply(s: Session, e: Event): (r: Session)
    ensures |r.pending| > |s.pending| ==> !s.chat.loading && s.chat.isOpen && (e.PressSend? || e.PressEnter?)
    ensures |r.pending| <= |s.pending| + 1
    ensures !e.PressClear? ==> s.chat.messages <= r.chat.messages
  {
    var c := s.chat;
    match e
    case TypeQuery(q) => if c.isOpen && !c.loading then s.(chat := EditQuery(c, q)) else s
    case PressSend => if c.isOpen && SendEnabled(c) then Submit(s) else s
    case PressEnter => if c.isOpen && !c.loading then Submit(s) else s
    case Resolve(o) =>
      if s.pending == [] then s
      else Session(CompleteSend(c, o), s.pending[1..])
    case PressClear => if c.isOpen then s.(chat := ClearChat(c)) else s
    case PressToggle => s.(chat := Toggle(c))
    case PressClose => if c.isOpen then s.(chat := Close(c)) else s
  }

  /** Events in order. */
  function Run(s: Session, evs: seq<Event>): Session
    decreases |evs|
  {
    if evs == [] then s else Run(Apply(s, evs[0]), evs[1..])
  }

  /** At most one request is in flight, the loading flag is up exactly while
      there is one, and while there is one it is the user's last message. */
  predicate Consistent(s: Session) {
    && |s.pending| <= 1
    && (s.chat.loading <==> |s.pending| == 1)
    && (s.chat.loading && s.chat.messages != [] ==>
          s.chat.messages[|s.chat.messages| - 1] == Message(User, s.pending[0]))
  }

  /** Without a clear, the transcript alternates user and assistant messages,
      starting with the user, and ends on a user message exactly while a reply
      is awaited. */
  predicate Alternating(s: Session) {
    && Consistent(s)
    && (forall i :: 0 <= i < |s.chat.messages| ==>
          s.chat.messages[i].role == (if i % 2 == 0 then User else Ai))
    && (|s.chat.messages| % 2 == 1 <==> s.chat.loading)
  }

  predicate NoClear(evs: seq<Event>) {
    forall i :: 0 <= i < |evs| ==> !evs[i].PressClear?
  }

  /** The Enter key and the send button do the same thing: the handler's own
      blank-query test stands in for the button's. */
  lemma EnterActsLikeSend(s: Session)
    ensures Apply(s, PressEnter) == Apply(s, PressSend)
  {
  }

  /** With the disabled-input guards in force, one event never puts a second
      request in flight, and the loading flag keeps tracking the request. */
  lemma ApplyKeepsConsistent(s: Session, e: Event)
    requires Consistent(s)
    ensures Consistent(Apply(s, e))
  {
  }

  /** A submission from an idle, consistent session posts at most one
      request and leaves the session consistent. */
  lemma SubmitFromIdle(s: Session)
    requires Consistent(s) && !s.chat.loading
    ensures Consistent(Submit(s))
    ensures |Submit(s).pending| == 1 <==> SendEnabled(s.chat)
  {
  }

  lemma {:induction false} RunKeepsConsistent(s: Session, evs: seq<Event>)
    requires Consistent(s)
    ensures Consistent(Run(s, evs))
    decreases |evs|
  {
    if evs != [] {
      ApplyKeepsConsistent(s, evs[0]);
      RunKeepsConsistent(Apply(s, evs[0]), evs[1..]);
    }
  }

  /** Pressing send twice in a row, by button or by Enter, while the first
      request is pending posts exactly one request. */
  lemma DoubleSubmitSendsOnce(s: Session)
    requires Consistent(s) && s.chat.isOpen && SendEnabled(s.chat)
    ensures |Apply(Apply(s, PressSend), PressSend).pending| == 1
    ensures |Apply(Apply(s, PressSend), PressEnter).pending| == 1
  {
  }

  /** A reply keeps the alternation: it answers the user message that ends
      the transcript. */
  lemma ResolveKeepsAlternating(s: Session, o: Outcome)
    requires Alternating(s)
    ensures Alternating(Apply(s, Resolve(o)))
  {
  }

  /** A submission from an idle session keeps the alternation: the user's
      message lands on an even position. */
  lemma SubmitKeepsAlternating(s: Session)
    requires Alternating(s) && !s.chat.loading
    ensures Alternating(Submit(s))
  {
  }

  lemma ApplyKeepsAlternating(s: Session, e: Event)
    requires Alternating(s) && !e.PressClear?
    ensures Alternating(Apply(s, e))
  {
    var c := s.chat;
    match e {
      case PressSend =>
        if c.isOpen && SendEnabled(c) { SubmitKeepsAlternating(s); }
      case PressEnter =>
        if c.isOpen && !c.loading { SubmitKeepsAlternating(s); }
      case Resolve(o) => ResolveKeepsAlternating(s, o);
      case TypeQuery(q) =>
      case PressToggle =>
      case PressClose =>
    }
  }

  /** A session without clears keeps its transcript alternating, and only
      ever extends it at the end. */
  lemma {:induction false} RunWithoutClear(s: Session, evs: seq<Event>)
    requires Alternating(s) && NoClear(evs)
    ensures Alternating(Run(s, evs))
    ensures s.chat.messages <= Run(s, evs).chat.messages
    decreases |evs|
  {
    if evs != [] {
      assert !evs[0].PressClear?;
      ApplyKeepsAlternating(s, evs[0]);
      assert NoClear(evs[1..]) by {
        forall i | 0 <= i < |evs| - 1
          ensures !evs[1..][i].PressClear?
        {
          assert evs[1..][i] == evs[i + 1];
        }
      }
      RunWithoutClear(Apply(s, evs[0]), evs[1..]);
    }
  }

  /** Every state reachable from the freshly mounted popup keeps the
      single-request discipline, and without a clear it also keeps the
      transcript alternating. */
  lemma RunFromStart(evs: seq<Event>)
    ensures Consistent(Run(Start(), evs))
    ensures NoClear(evs) ==> Alternating(Run(Start(), evs))
  {
    RunKeepsConsistent(Start(), evs);
    if NoClear(evs) {
      RunWithoutClear(Start(), evs);
    }
  }

  /** A clear between the send and its reply breaks the alternation: the
      transcript is left with the assistant's reply alone. */
  lemma ClearInFlightLeavesLoneReply(s: Session, o: Outcome)
    requires Consistent(s) && s.chat.isOpen && SendEnabled(s.chat)
    ensures var r := Apply(Apply(Apply(s, PressSend), PressClear), Resolve(o));
      && r.chat.messages == [Message(Ai, Reply(o))]
      && r.pending == [] && !r.chat.loading
  {
  }
}
