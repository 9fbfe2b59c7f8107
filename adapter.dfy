/**
 * The animated element wrapper `Motion` (src/motion.jsx): a fixed id, a
 * regenerable replay key, the effect that reacts to context changes, and
 * the pure choice of the props it renders with.
 */
module Adapter {
  import opened Values
  import opened Coordinator
  import opened Tokens

  /**
   * The event the effect sends for a context value, if any: nothing unless
   * the context carries this element's uuid; SET_PROPS with the element's
   * own props in WAIT; ANIMATION_DONE in WAIT_REPLAY.
   */
  function Reaction(id: string, ctx: ContextView, props: Props): (r: Option<Event>)
    ensures r.Some? ==> ctx.uuid == Some(id)
    ensures ctx.uuid == Some(id) && ctx.state == "WAIT" ==> r == Some(SetProps(props))
    ensures ctx.uuid == Some(id) && ctx.state == "WAIT_REPLAY" ==> r == Some(AnimationDone)
    ensures ctx.state != "WAIT" && ctx.state != "WAIT_REPLAY" ==> r.None?
  {
    if ctx.uuid == Some(id) then
      if ctx.state == "WAIT" then Some(SetProps(props))
      else if ctx.state == "WAIT_REPLAY" then Some(AnimationDone)
      else None
    else None
  }

  /** The effect takes the branch that replaces the key. */
  predicate RegeneratesKey(id: string, ctx: ContextView)
    ensures RegeneratesKey(id, ctx) ==> ctx.state !in DeclaredStateTags
  {
    ctx.uuid == Some(id) && ctx.state == "WAIT_REPLAY"
  }

  /**
   * The props the element renders with: the context's props whenever the
   * state is ACTIVE, whichever element is selected, otherwise its own.
   * An ACTIVE context must carry props, or destructuring `initial` throws.
   */
  function EffectiveProps(ctx: ContextView, props: Props): (r: Props)
    requires ctx.state == "ACTIVE" ==> ctx.props.Some?
    ensures ctx.state == "ACTIVE" ==> r == ctx.props.value
    ensures ctx.state != "ACTIVE" ==> r == props
  {
    if ctx.state == "ACTIVE" then ctx.props.value else props
  }

  /** The dashed box at the initial position is drawn. */
  predicate ShowsInitialOverlay(ctx: ContextView, props: Props)
    requires ctx.state == "ACTIVE" ==> ctx.props.Some?
    ensures ShowsInitialOverlay(ctx, props) ==>
      ctx.state == "ACTIVE" && "initial" in ctx.props.value && Truthy(ctx.props.value["initial"])
  {
    var shown := EffectiveProps(ctx, props);
    "initial" in shown && Truthy(shown["initial"]) && ctx.state == "ACTIVE"
  }

  // ---------------------------------------------------------------------
  // What the effect does against the coordinator's actual states.

  /** No coordinator state has the WAIT_REPLAY tag, so the key-replacing branch is dead. */
  lemma ReplayBranchUnreachable(id: string, s: State, props: Props)
    ensures !RegeneratesKey(id, View(s))
    ensures Reaction(id, View(s), props) != Some(AnimationDone)
  {
    assert View(s).state in DeclaredStateTags;
  }

  /** Whatever the effect sends is ignored by the coordinator in every state. */
  lemma ReactionIgnoredByCoordinator(id: string, ctx: ContextView, props: Props, t: State)
    requires Reaction(id, ctx, props).Some?
    ensures Step(t, Reaction(id, ctx, props).value) == t
  {
    UndeclaredEventsIgnored(t, Reaction(id, ctx, props).value);
  }

  /**
   * As written, the selection handshake never completes: in WAIT for its
   * own id the element answers SET_PROPS, which leaves the tool in WAIT.
   */
  lemma HandshakeStalls(id: string, props: Props)
    ensures Reaction(id, View(Wait(id)), props) == Some(SetProps(props))
    ensures Step(Wait(id), Reaction(id, View(Wait(id)), props).value) == Wait(id)
  {
  }

  /** The reaction with the event type the coordinator declares for reporting props. */
  function CorrectedReaction(id: string, ctx: ContextView, props: Props): (r: Option<Event>)
    ensures r.Some? ==> ctx.uuid == Some(id)
    ensures ctx.uuid == Some(id) && ctx.state == "WAIT" ==> r == Some(UpdateProps(props))
    ensures ctx.uuid == Some(id) && ctx.state == "WAIT_REPLAY" ==> r == Some(AnimationDone)
    ensures ctx.state != "WAIT" && ctx.state != "WAIT_REPLAY" ==> r.None?
  {
    if ctx.uuid == Some(id) then
      if ctx.state == "WAIT" then Some(UpdateProps(props))
      else if ctx.state == "WAIT_REPLAY" then Some(AnimationDone)
      else None
    else None
  }

  /**
   * With the corrected reaction a click on the element followed by its
   * report activates the session with exactly its props, and what the
   * element renders does not change across that activation.
   */
  lemma CorrectedHandshakeActivates(id: string, props: Props)
    ensures Step(Idle, Click(id)) == Wait(id)
    ensures CorrectedReaction(id, View(Wait(id)), props) == Some(UpdateProps(props))
    ensures Step(Wait(id), CorrectedReaction(id, View(Wait(id)), props).value) == Active(id, props)
    ensures EffectiveProps(View(Active(id, props)), props) == EffectiveProps(View(Wait(id)), props)
  {
  }

  /** Other elements stay silent when a different element is selected. */
  lemma OthersStaySilent(id: string, s: State, props: Props)
    requires UuidOf(s) != Some(id)
    ensures Reaction(id, View(s), props).None?
    ensures CorrectedReaction(id, View(s), props).None?
  {
  }

  /**
   * Every element, selected or not, renders the selected element's props
   * while the tool is ACTIVE: the choice does not compare ids.
   */
  lemma EffectivePropsIgnoreIdentity(s: State, own1: Props, own2: Props)
    requires s.Active?
    ensures EffectiveProps(View(s), own1) == EffectiveProps(View(s), own2) == s.props
  {
  }

  /** The overlay shows exactly when the tool is ACTIVE with a truthy `initial` group. */
  lemma OverlayCondition(s: State, props: Props)
    ensures ShowsInitialOverlay(View(s), props) <==>
      s.Active? && "initial" in s.props && Truthy(s.props["initial"])
  {
  }

  // ---------------------------------------------------------------------
  // The element as an object.

  /** One mounted `Motion`: `id` is drawn once, `key` is redrawn on replay. */
  class Motion {
    const id: string
    var key: string

    constructor (supply: TokenSupply)
      requires supply.Valid()
      modifies supply
      ensures supply.Valid()
      ensures id !in old(supply.issued) && key !in old(supply.issued) && id != key
      ensures supply.issued == old(supply.issued) + {id, key}
    {
      var i := supply.Fresh();
      var k := supply.Fresh();
      id := i;
      key := k;
    }

    /** The effect run on a context change: returns the event it sends, if any. */
    method OnContext(ctx: ContextView, props: Props, supply: TokenSupply) returns (sent: Option<Event>)
      requires supply.Valid() && key in supply.issued
      modifies this, supply
      ensures supply.Valid() && key in supply.issued
      ensures sent == Reaction(id, ctx, props)
      ensures RegeneratesKey(id, ctx) ==>
        key != old(key) && key !in old(supply.issued) && supply.issued == old(supply.issued) + {key}
      ensures !RegeneratesKey(id, ctx) ==> key == old(key) && unchanged(supply)
    {
      sent := None;
      if ctx.uuid == Some(id) {
        if ctx.state == "WAIT" {
          sent := Some(SetProps(props));
        } else if ctx.state == "WAIT_REPLAY" {
          key := supply.Fresh();
          sent := Some(AnimationDone);
        }
      }
    }
  }

  /**
   * One round of the protocol as written: the element's effect sees the
   * provider's current value and sends what it would send. Neither the
   * tool state nor the element's key ever changes.
   */
  method EffectRound(tool: DevTool, el: Motion, props: Props, supply: TokenSupply) returns (sent: Option<Event>)
    requires supply.Valid() && el.key in supply.issued
    modifies tool, el, supply
    ensures supply.Valid() && el.key in supply.issued
    ensures sent == Reaction(el.id, View(old(tool.state)), props)
    ensures tool.state == old(tool.state) && el.key == old(el.key) && unchanged(supply)
  {
    ReplayBranchUnreachable(el.id, tool.state, props);
    sent := el.OnContext(tool.Context(), props, supply);
    if sent.Some? {
      ReactionIgnoredByCoordinator(el.id, View(tool.state), props, tool.state);
      tool.Send(sent.value);
    }
  }
}
