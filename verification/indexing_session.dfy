/**
 The indexing panel driven by a sequence of user and network events, with the
 buttons' `disabled` guards in force. A press reaches its handler only while
 its button is enabled. A network event completes the request in flight, if
 there is one. Each event is handled atomically, in order.
 */
module IndexingSession {
  import opened Outcomes
  import opened Indexing

  datatype Event =
    | DropFile(dropped: Option<File>)
    | PickFile(chosen: Option<File>)
    | TypeLink(link: string)
    | TypeText(text: string)
    | PressUpload
    | PressAdd
    | Resolve(outcome: Outcome, when: string)

  /** The panel, the request in flight (if any) and every toast raised so far. */
  datatype Session = Session(panel: Panel, pending: Option<Request>, toasts: seq<Toast>)

  function Start(): Session {
    Session(Initial(), None, [])
  }

  function Emit(toasts: seq<Toast>, t: Option<Toast>): (r: seq<Toast>)
    ensures t.None? ==> r == toasts
    ensures t.Some? ==> |r| == |toasts| + 1 && r[..|toasts|] == toasts && r[|toasts|] == t.value
  {
    match t
    case None => toasts
    case Some(x) => toasts + [x]
  }

  /** The busy flag is up exactly while a request is in flight. */
  predicate Consistent(s: Session) {
    s.panel.indexing <==> s.pending.Some?
  }

  /** One event. */
  function Apply(s: Session, e: Event): (r: Session)
    ensures s.toasts <= r.toasts && |r.toasts| <= |s.toasts| + 1
    ensures r.panel.sources == s.panel.sources
         || (e.Resolve? && e.outcome.Ok? && s.pending.Some?
             && |r.panel.sources| == |s.panel.sources| + 1
             && r.panel.sources[1..] == s.panel.sources)
    ensures r.pending.Some? && r.pending != s.pending ==>
      (e.PressUpload? && UploadEnabled(s.panel)) || (e.PressAdd? && AddEnabled(s.panel))
  {
    match e
    case DropFile(f) =>
      var st := Drop(s.panel, f);
      Session(st.panel, s.pending, Emit(s.toasts, st.toast))
    case PickFile(f) => s.(panel := Pick(s.panel, f))
    case TypeLink(l) => s.(panel := EditLink(s.panel, l))
    case TypeText(t) => s.(panel := EditText(s.panel, t))
    case PressUpload =>
      if UploadEnabled(s.panel) then
        var st := BeginUpload(s.panel);
        Session(st.panel, st.request, Emit(s.toasts, st.toast))
      else s
    case PressAdd =>
      if AddEnabled(s.panel) then
        var st := BeginUrlOrText(s.panel);
        Session(st.panel, st.request, Emit(s.toasts, st.toast))
      else s
    case Resolve(o, w) =>
      match s.pending
      case None => s
      case Some(req) =>
        var st := Complete(s.panel, req, o, w);
        Session(st.panel, None, Emit(s.toasts, st.toast))
  }

  /** Events in order. */
  function Run(s: Session, evs: seq<Event>): Session
    decreases |evs|
  {
    if evs == [] then s else Run(Apply(s, evs[0]), evs[1..])
  }

  /** The number of successful network outcomes among `evs`. */
  function Successes(evs: seq<Event>): nat {
    if evs == [] then 0
    else (if evs[0].Resolve? && evs[0].outcome.Ok? then 1 else 0) + Successes(evs[1..])
  }

  /** With the guards in force, a press never starts a second request on top
      of one in flight, and the busy flag keeps tracking the request in flight. */
  lemma ApplyKeepsConsistent(s: Session, e: Event)
    requires Consistent(s)
    ensures Consistent(Apply(s, e))
    ensures s.pending.Some? && !e.Resolve? ==> Apply(s, e).pending == s.pending
  {
  }

  lemma {:induction false} RunKeepsConsistent(s: Session, evs: seq<Event>)
    requires Consistent(s)
    ensures Consistent(Run(s, evs))
    decreases |evs|
  {
    if evs != [] {
      ApplyKeepsConsistent(s, evs[0]);
      RunKeepsConsistent(Apply(s, evs[0]), evs[1..]);
    }
  }

  /** The busy flag tracks the request in flight in every state reachable
      from a freshly mounted panel. */
  lemma RunFromStart(evs: seq<Event>)
    ensures Consistent(Run(Start(), evs))
  {
    RunKeepsConsistent(Start(), evs);
  }

  /** `tail` is the tail of `whole`: `whole` is `tail` with records put in front. */
  predicate IsTailOf(tail: seq<SourceRecord>, whole: seq<SourceRecord>) {
    |tail| <= |whole| && whole[|whole| - |tail|..] == tail
  }

  lemma TailOfTransitive(a: seq<SourceRecord>, b: seq<SourceRecord>, c: seq<SourceRecord>)
    requires IsTailOf(a, b) && IsTailOf(b, c)
    ensures IsTailOf(a, c)
  {
  }

  /** One event keeps the old source list as the tail and adds at most one
      record, and only on a successful outcome. */
  lemma ApplyKeepsTail(s: Session, e: Event)
    ensures var r := Apply(s, e).panel.sources;
      && IsTailOf(s.panel.sources, r)
      && |r| <= |s.panel.sources| + (if e.Resolve? && e.outcome.Ok? then 1 else 0)
  {
  }

  /** The source list only grows at the front: whatever it held before is
      still its tail afterwards, and it gains at most one record per
      successful outcome. */
  lemma {:induction false} SourcesOnlyGrowAtFront(s: Session, evs: seq<Event>)
    ensures var r := Run(s, evs).panel.sources;
      && IsTailOf(s.panel.sources, r)
      && |r| <= |s.panel.sources| + Successes(evs)
    decreases |evs|
  {
    if evs == [] {
      assert s.panel.sources[0..] == s.panel.sources;
    } else {
      var s1 := Apply(s, evs[0]);
      ApplyKeepsTail(s, evs[0]);
      SourcesOnlyGrowAtFront(s1, evs[1..]);
      TailOfTransitive(s.panel.sources, s1.panel.sources, Run(s1, evs[1..]).panel.sources);
    }
  }
}
