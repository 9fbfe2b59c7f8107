/**
 * The dev tool's coordinator: the single held tool state, the `send`
 * transition over (state, event), the document click mapping and the
 * context lookup guard (src/context.tsx).
 */
module Coordinator {
  import opened Values

  /** The declared `State` union: IDLE, WAIT{uuid}, ACTIVE{uuid, props}. */
  datatype State =
    | Idle
    | Wait(uuid: string)
    | Active(uuid: string, props: Props)

  /**
   * The events that reach `send` at run time. The first three are the
   * declared `Event` union; `SetProps` and `AnimationDone` are the messages
   * the animated element actually sends (src/motion.jsx), whose `type`
   * tags are not part of that union.
   */
  datatype Event =
    | Click(uuid: string)
    | UpdateProps(props: Props)
    | Close
    | SetProps(props: Props)
    | AnimationDone

  const DeclaredStateTags: set<string> := {"IDLE", "WAIT", "ACTIVE"}
  const DeclaredEventTypes: set<string> := {"CLICK", "UPDATE_PROPS", "CLOSE"}

  /** The `state` tag of a tool state. */
  function Tag(s: State): (t: string)
    ensures t in DeclaredStateTags
    ensures (t == "IDLE") == s.Idle? && (t == "WAIT") == s.Wait? && (t == "ACTIVE") == s.Active?
  {
    match s
    case Idle => "IDLE"
    case Wait(_) => "WAIT"
    case Active(_, _) => "ACTIVE"
  }

  /** The `type` tag of an event. */
  function EventType(e: Event): (t: string)
    ensures t in DeclaredEventTypes <==> e.Click? || e.UpdateProps? || e.Close?
    ensures e.Click? ==> t == "CLICK"
    ensures e.UpdateProps? ==> t == "UPDATE_PROPS"
    ensures e.Close? ==> t == "CLOSE"
  {
    match e
    case Click(_) => "CLICK"
    case UpdateProps(_) => "UPDATE_PROPS"
    case Close => "CLOSE"
    case SetProps(_) => "SET_PROPS"
    case AnimationDone => "ANIMATION_DONE"
  }

  /** The selected element's uuid, present exactly when the state is not IDLE. */
  function UuidOf(s: State): (u: Option<string>)
    ensures u.Some? <==> !s.Idle?
    ensures !s.Idle? ==> u == Some(s.uuid)
  {
    if s.Idle? then None else Some(s.uuid)
  }

  /**
   * One call of `send`: a nested case split on the state tag, then on the
   * event type; every pair without a case is ignored.
   */
  function Step(s: State, e: Event): (r: State)
    ensures r != s ==> EventType(e) in DeclaredEventTypes
    ensures !s.Idle? && !r.Idle? ==> r.uuid == s.uuid
    ensures r.Active? && r != s ==> e == UpdateProps(r.props)
  {
    match s
    case Idle =>
      (match e
       case Click(u) => Wait(u)
       case _ => s)
    case Wait(u) =>
      (match e
       case UpdateProps(p) => Active(u, p)
       case _ => s)
    case Active(u, _) =>
      (match e
       case Close => Idle
       case UpdateProps(p) => Active(u, p)
       case _ => s)
  }

  /** The state after sending `es` in order, starting from `s`. */
  function Run(s: State, es: seq<Event>): (r: State)
    decreases |es|
  {
    if es == [] then s else Step(Run(s, es[..|es| - 1]), es[|es| - 1])
  }

  lemma RunSnoc(s: State, es: seq<Event>, e: Event)
    ensures Run(s, es + [e]) == Step(Run(s, es), e)
  {
    assert (es + [e])[..|es|] == es;
  }

  // ---------------------------------------------------------------------
  // Single-step properties of `send`.

  lemma IdleClickWaits(u: string)
    ensures Step(Idle, Click(u)) == Wait(u)
  {
  }

  lemma IdleIgnoresOthers(e: Event)
    requires !e.Click?
    ensures Step(Idle, e) == Idle
  {
  }

  lemma WaitUpdateActivates(u: string, p: Props)
    ensures Step(Wait(u), UpdateProps(p)) == Active(u, p)
  {
  }

  /** While waiting for props, the first selection wins and CLOSE is ignored. */
  lemma WaitIgnoresClickAndClose(u: string, e: Event)
    requires e.Click? || e.Close?
    ensures Step(Wait(u), e) == Wait(u)
  {
  }

  /** CLOSE releases an active session, dropping uuid and props. */
  lemma ActiveCloseReleases(u: string, q: Props)
    ensures Step(Active(u, q), Close) == Idle
  {
  }

  /** UPDATE_PROPS replaces the props, keeps the uuid, and is idempotent. */
  lemma ActiveUpdateIdempotent(u: string, q: Props, p: Props)
    ensures Step(Active(u, q), UpdateProps(p)) == Active(u, p)
    ensures Step(Step(Active(u, q), UpdateProps(p)), UpdateProps(p)) == Step(Active(u, q), UpdateProps(p))
  {
  }

  /** No click, from any element, changes a state that holds a selection. */
  lemma SelectionCannotBeStolen(s: State, v: string)
    requires !s.Idle?
    ensures Step(s, Click(v)) == s
  {
  }

  /** Events whose tags are not declared by the coordinator leave every state unchanged. */
  lemma UndeclaredEventsIgnored(s: State, e: Event)
    requires EventType(e) !in DeclaredEventTypes
    ensures Step(s, e) == s
  {
  }

  /** After CLOSE, a new click starts a fresh session with nothing carried over. */
  lemma CloseThenClickIsFresh(u: string, q: Props, v: string)
    ensures Step(Step(Active(u, q), Close), Click(v)) == Wait(v)
  {
  }

  // ---------------------------------------------------------------------
  // The session invariant over any event sequence.

  /**
   * Whenever the tool holds a selection, its uuid is that of the CLICK
   * which last moved it out of IDLE: some click at position `i` was sent in
   * IDLE and the state did not return to IDLE afterwards.
   */
  lemma {:induction false} SessionOwner(es: seq<Event>)
    ensures Run(Idle, es) != Idle ==>
      exists i :: 0 <= i < |es| && Run(Idle, es[..i]) == Idle && es[i] == Click(Run(Idle, es).uuid) &&
        forall j :: i < j <= |es| ==> Run(Idle, es[..j]) != Idle
  {
    if es != [] && Run(Idle, es) != Idle {
      var n := |es|;
      var pre := es[..n - 1];
      var e := es[n - 1];
      assert es == pre + [e];
      var s := Run(Idle, pre);
      var r := Run(Idle, es);
      RunSnoc(Idle, pre, e);
      if s == Idle {
        assert e == Click(r.uuid);
        assert es[..n] == es;
        assert Run(Idle, es[..n - 1]) == Idle;
      } else {
        SessionOwner(pre);
        var i :| 0 <= i < |pre| && Run(Idle, pre[..i]) == Idle && pre[i] == Click(s.uuid) &&
          forall j :: i < j <= |pre| ==> Run(Idle, pre[..j]) != Idle;
        assert r.uuid == s.uuid;
        assert es[..i] == pre[..i];
        forall j | i < j <= n
          ensures Run(Idle, es[..j]) != Idle
        {
          if j == n {
            assert es[..j] == es;
          } else {
            assert es[..j] == pre[..j];
          }
        }
      }
    }
  }

  // ---------------------------------------------------------------------
  // The state as consumers see it, the click mapping and the context guard.

  /**
   * The context value `{...toolState, send}` as a consumer reads it: the
   * `state` tag, and `uuid`/`props` when present. Consumers are duck-typed
   * over this shape, so they may test tags the coordinator never produces.
   */
  datatype ContextView = ContextView(state: string, uuid: Option<string>, props: Option<Props>)

  function View(s: State): (v: ContextView)
    ensures v.state == Tag(s) && v.uuid == UuidOf(s)
    ensures v.props.Some? <==> s.Active?
    ensures s.Active? ==> v.props == Some(s.props)
  {
    match s
    case Idle => ContextView("IDLE", None, None)
    case Wait(u) => ContextView("WAIT", Some(u), None)
    case Active(u, p) => ContextView("ACTIVE", Some(u), Some(p))
  }

  /** The clicked element: `null`, or an element with its `dataset`. */
  datatype Element = Element(dataset: map<string, string>)

  /** The document click listener: CLICK exactly when the target has a non-empty `data-id`. */
  function ClickToEvent(target: Option<Element>): (r: Option<Event>)
    ensures r.Some? <==> target.Some? && "id" in target.value.dataset && target.value.dataset["id"] != ""
    ensures r.Some? ==> r.value == Click(target.value.dataset["id"])
  {
    match target
    case None => None
    case Some(el) =>
      if "id" in el.dataset && el.dataset["id"] != "" then Some(Click(el.dataset["id"])) else None
  }

  /**
   * The listener as registered: the effect has no dependencies, so it keeps
   * the `send` of the first render, which reads that render's state
   * (`captured`) instead of the current one. The result replaces the
   * current state whenever the click carries an id.
   */
  function ListenerStep(captured: State, current: State, target: Option<Element>): (r: State)
    ensures ClickToEvent(target).None? ==> r == current
    ensures ClickToEvent(target).Some? ==> r == Step(captured, ClickToEvent(target).value)
    ensures captured.Idle? && ClickToEvent(target).Some? ==> r == Wait(target.value.dataset["id"])
    ensures !captured.Idle? && ClickToEvent(target).Some? ==> r == captured
  {
    match ClickToEvent(target)
    case None => current
    case Some(e) => Step(captured, e)
  }

  /**
   * As written, every click on an element with an id is computed from the
   * first render's IDLE: while the tool waits for WAIT(u)'s props, a click
   * on another element takes the selection over, although `send` on the
   * current state would ignore it.
   */
  lemma StaleListenerReselectsWhileWaiting(u: string, v: string)
    requires v != "" && v != u
    ensures Step(Wait(u), Click(v)) == Wait(u)
    ensures ListenerStep(Idle, Wait(u), Some(Element(map["id" := v]))) == Wait(v)
    ensures ListenerStep(Idle, Wait(u), Some(Element(map["id" := v]))) != Wait(u)
  {
  }

  /**
   * The same stale listener moves an ACTIVE session to WAIT for the clicked
   * element, dropping the edited props.
   */
  lemma StaleListenerResetsSession(u: string, p: Props, v: string)
    requires v != ""
    ensures ListenerStep(Idle, Active(u, p), Some(Element(map["id" := v]))) == Wait(v)
    ensures ListenerStep(Idle, Active(u, p), Some(Element(map["id" := v]))) != Active(u, p)
  {
  }

  /**
   * A listener that reads the current state keeps the selection: a click
   * while a session is open, on any element, changes nothing.
   */
  lemma LiveListenerKeepsSelection(current: State, target: Option<Element>)
    requires !current.Idle?
    ensures ListenerStep(current, current, target) == current
  {
  }

  const NoProviderMessage: string :=
    "No dev tool context found - Did you wrap your component tree with <MotionDevTool>?"

  /** `useMotionDevToolContext`: the provided context, or an error outside the provider. */
  function UseMotionDevToolContext(provided: Option<ContextView>): (r: Result<ContextView, string>)
    ensures r.Err? <==> provided.None?
    ensures r.Err? ==> r.error == NoProviderMessage
    ensures r.Ok? ==> r.value == provided.value
  {
    match provided
    case None => Err(NoProviderMessage)
    case Some(c) => Ok(c)
  }

  /** `MotionDevTool`: the provider that holds the one tool state cell. */
  class DevTool {
    var state: State

    constructor ()
      ensures state == Idle
    {
      state := Idle;
    }

    /** The value the provider hands to its consumers. */
    function Context(): (v: ContextView)
      reads this
      ensures v.state == Tag(state) && v.uuid == UuidOf(state)
      ensures v.props.Some? <==> state.Active?
      ensures state.Active? ==> v.props == Some(state.props)
    {
      View(state)
    }

    /** `send`: replace the held state according to the transition table. */
    method Send(e: Event)
      modifies this
      ensures state == Step(old(state), e)
    {
      match state {
        case Idle =>
          if e.Click? {
            state := Wait(e.uuid);
          }
        case Wait(u) =>
          if e.UpdateProps? {
            state := Active(u, e.props);
          }
        case Active(u, _) =>
          if e.Close? {
            state := Idle;
          } else if e.UpdateProps? {
            state := Active(u, e.props);
          }
      }
    }

    /**
     * The document click listener followed by `send`, reading the current
     * state (the registered listener reads a stale one: `ListenerStep`).
     */
    method OnDocumentClick(target: Option<Element>)
      modifies this
      ensures state == ListenerStep(old(state), old(state), target)
      ensures ClickToEvent(target).None? ==> state == old(state)
      ensures ClickToEvent(target).Some? ==> state == Step(old(state), ClickToEvent(target).value)
    {
      var e := ClickToEvent(target);
      if e.Some? {
        Send(e.value);
      }
    }
  }
}
