# motion-dev-tools: the selection coordinator and its collaborators

A Dafny model of the core of a development tool for animated UI elements.
A click on an animated element selects it. The element reports its
animation props to a single coordinator. A form lets the user edit those
props, and the element re-renders with them.

The model covers four parts:

- the coordinator's state machine (`IDLE`, `WAIT{uuid}`, `ACTIVE{uuid, props}`) and its `send` transition;
- the per-element adapter `Motion`, with a fixed id and a regenerable replay key;
- the props form's allow-list and its single-leaf structural edit;
- the transition control schema.

Modules:

- `Values`: JavaScript prop values (numbers, strings, booleans, nested objects) and truthiness.
- `Coordinator`: `State`, `Event`, the pure transition `Step`, and the class `DevTool`, whose one mutable field `state` is replaced by `Send`. It also holds the document click mapping and the context guard (src/context.tsx).
- `Tokens`: an abstract supply of fresh tokens, standing in for uuid v4.
- `Adapter`: the class `Motion` with `const id` and `var key`. Its effect `OnContext` returns the event it would send. It also holds the pure choice of effective props and the overlay condition (src/motion.jsx).
- `PropsForm`: `VALID_PROPS` filtering and the `{...props, [group]: {...values, [key]: n}}` edit (src/props-form.tsx).
- `TransitionControls`: defaults, `getSchemaFromType`, `withOnChange` and its dotted paths (src/transition-controls.tsx).

The adapter reads the context as a duck-typed `ContextView`: a state tag string, plus an optional uuid and optional props. It can therefore test a tag (`WAIT_REPLAY`) that the coordinator never produces, exactly as the JavaScript does.

The code has no replay support, and its choice of rendered props does not compare ids:

- The coordinator's types (src/context.tsx:6-31) declare no replay request, no replay-wait state, no dotted-path edit event, and no deselect from replay.
- Edits reach the coordinator as whole new props in `UPDATE_PROPS`.
- `ACTIVE` makes every element render the selected props, not only the selected element (src/motion.jsx:34, `Adapter.EffectivePropsIgnoreIdentity`).
- `CLOSE` is ignored in `WAIT`.

## Model

| member | source | states |
|---|---|---|
| Coordinator.Step | src/context.tsx:42-89 | a state changes only on a declared event type; the uuid never changes while the tool stays out of IDLE; entering ACTIVE by a change takes the props verbatim from UPDATE_PROPS |
| Coordinator.Tag | src/context.tsx:6-18 | every state's tag is one of IDLE, WAIT, ACTIVE, and IDLE, WAIT and ACTIVE states get exactly the tags "IDLE", "WAIT" and "ACTIVE" |
| Coordinator.EventType | src/context.tsx:20-31 | an event's type is a declared one exactly for the three declared variants, which get CLICK, UPDATE_PROPS and CLOSE respectively |
| Coordinator.UuidOf | src/context.tsx:6-18 | a state carries a uuid exactly when it is not IDLE, and that uuid is the state's own |
| Coordinator.IdleClickWaits | src/context.tsx:44-49 | CLICK(u) from IDLE yields WAIT(u) |
| Coordinator.IdleIgnoresOthers | src/context.tsx:50-51 | any non-CLICK event leaves IDLE unchanged |
| Coordinator.WaitUpdateActivates | src/context.tsx:54-62 | UPDATE_PROPS(p) from WAIT(u) yields ACTIVE(u, p) |
| Coordinator.WaitIgnoresClickAndClose | src/context.tsx:63-65 | CLICK and CLOSE leave WAIT(u) unchanged: the first selection wins |
| Coordinator.ActiveCloseReleases | src/context.tsx:70-72 | CLOSE from ACTIVE yields IDLE, dropping uuid and props |
| Coordinator.ActiveUpdateIdempotent | src/context.tsx:74-80 | UPDATE_PROPS(p) from ACTIVE(u, q) yields ACTIVE(u, p); sending it twice equals sending it once |
| Coordinator.SelectionCannotBeStolen | src/context.tsx:63-83 | a CLICK on any element leaves every non-IDLE state unchanged |
| Coordinator.UndeclaredEventsIgnored | src/context.tsx:20-31 | an event whose type is not CLICK, UPDATE_PROPS or CLOSE leaves every state unchanged |
| Coordinator.CloseThenClickIsFresh | src/context.tsx:44-72 | after CLOSE, a click starts WAIT with the new uuid and no old props |
| Coordinator.RunSnoc | src/context.tsx:42-89 | running one more event is one more transition |
| Coordinator.SessionOwner | src/context.tsx:42-89 | over any event sequence from IDLE, a non-IDLE state's uuid is that of the CLICK sent in IDLE after which the state never returned to IDLE |
| Coordinator.View | src/context.tsx:106 | the context value carries the state's tag and uuid, and props exactly in ACTIVE |
| Coordinator.ClickToEvent | src/context.tsx:92-97 | a click maps to an event exactly when the target exists and carries a non-empty data-id, and the event is CLICK with that id |
| Coordinator.ListenerStep | src/context.tsx:91-103 | the registered listener leaves the state unchanged on a click without an id; a click with an id replaces the current state, whatever it is, by the outcome of the captured state: WAIT for the clicked id when the captured state is IDLE, the captured state itself otherwise |
| Coordinator.StaleListenerReselectsWhileWaiting | src/context.tsx:91-103 | as written (captured IDLE), a click on an element with a non-empty id v other than u while the tool is in WAIT(u) yields WAIT(v), although `send` on WAIT(u) ignores that click |
| Coordinator.StaleListenerResetsSession | src/context.tsx:91-103 | as written (captured IDLE), a click on an element with any non-empty id v while ACTIVE(u, p) yields WAIT(v) and drops the session |
| Coordinator.LiveListenerKeepsSelection | src/context.tsx:92-97 | a listener that reads the current state leaves every open session unchanged on any click |
| Coordinator.UseMotionDevToolContext | src/context.tsx:140-148 | fails with the provider-missing message exactly when no provider is present, else returns the provided context |
| Coordinator.DevTool.constructor | src/context.tsx:40 | the tool starts in IDLE |
| Coordinator.DevTool.Context | src/context.tsx:106 | the provider's value shows the held state's tag and uuid, and its props exactly when ACTIVE |
| Coordinator.DevTool.Send | src/context.tsx:42-89 | the held state becomes Step of the old state and the event |
| Coordinator.DevTool.OnDocumentClick | src/context.tsx:92-97 | the listener reading the current state: a click without an id leaves the state unchanged; otherwise the state takes one CLICK step from the current state |
| Tokens.TokenSupply.Fresh | src/motion.jsx:9-10 | a token is never handed out twice |
| Adapter.Reaction | src/motion.jsx:13-32 | sends nothing unless the context's uuid is the element's id; in WAIT for its id, sends SET_PROPS with its own props; in WAIT_REPLAY for its id, sends ANIMATION_DONE; in any other state, sends nothing |
| Adapter.RegeneratesKey | src/motion.jsx:23-24 | the key-replacing branch is taken only for a state tag the coordinator does not declare |
| Adapter.EffectiveProps | src/motion.jsx:34 | the context's props whenever the state is ACTIVE, else the element's own props |
| Adapter.ShowsInitialOverlay | src/motion.jsx:35-40 | the overlay is drawn only in ACTIVE, and only when the context's props have a truthy initial group |
| Adapter.ReplayBranchUnreachable | src/motion.jsx:23-28 | no coordinator state takes the WAIT_REPLAY branch, so ANIMATION_DONE is never sent and the key is never replaced |
| Adapter.ReactionIgnoredByCoordinator | src/motion.jsx:17-27 | whatever the element sends (SET_PROPS or ANIMATION_DONE) leaves every coordinator state unchanged |
| Adapter.HandshakeStalls | src/motion.jsx:16-21 | in WAIT for its id the element sends SET_PROPS, and the coordinator stays in WAIT |
| Adapter.CorrectedReaction | src/motion.jsx:13-32 | the reaction with UPDATE_PROPS: silent unless the uuid matches; in WAIT for its id, reports its own props with UPDATE_PROPS; in WAIT_REPLAY for its id, sends ANIMATION_DONE; in any other state, sends nothing |
| Adapter.CorrectedHandshakeActivates | src/motion.jsx:16-21 | click then corrected report yields ACTIVE(id, props), and the element's rendered props do not change across it |
| Adapter.OthersStaySilent | src/motion.jsx:14 | an element whose id is not the selected uuid sends nothing |
| Adapter.EffectivePropsIgnoreIdentity | src/motion.jsx:34 | in ACTIVE every element, whatever its own props, renders the selected props |
| Adapter.OverlayCondition | src/motion.jsx:34-40 | the initial-position box shows exactly when the tool is ACTIVE and the held props have a truthy initial group |
| Adapter.Motion.constructor | src/motion.jsx:9-10 | id and key are fresh, distinct tokens |
| Adapter.Motion.OnContext | src/motion.jsx:13-32 | returns the Reaction's event; the key is replaced by a fresh token exactly in the WAIT_REPLAY branch, else key and supply are unchanged; id is a constant |
| Adapter.EffectRound | src/motion.jsx:13-32 | one effect against the live coordinator changes neither the tool state, nor the element's key, nor the token supply |
| Values.Truthy | src/motion.jsx:40 | a value is truthy exactly when it is not 0, "" or false |
| Values.FieldsAtWrite | src/props-form.tsx:30-36 | after writing an object into a group, reading that group gives the object's fields; writing another group leaves a group's fields unchanged |
| PropsForm.EditableEntries | src/props-form.tsx:8-13 | keeps exactly the entries whose group is animate or initial |
| PropsForm.EditableEntriesAppend | src/props-form.tsx:11-13 | filtering distributes over concatenation, so kept groups keep their relative order |
| PropsForm.EditableEntriesIdempotent | src/props-form.tsx:11-13 | filtering twice equals filtering once |
| PropsForm.Edit | src/props-form.tsx:29-36 | result[group][key] is the new number; every other group and every sibling field is unchanged; only group and key can be added |
| PropsForm.EditReadOverWrite | src/props-form.tsx:30-36 | for any props, reading any leaf after an edit gives the new value at the edited leaf and the old value everywhere else |
| PropsForm.EditPreservesShape | src/props-form.tsx:30-36 | editing an offered leaf leaves the outer and inner key sets unchanged |
| PropsForm.EditIdempotent | src/props-form.tsx:30-36 | the same edit twice equals the edit once; the later of two edits of one leaf wins |
| PropsForm.EditsCommute | src/props-form.tsx:30-36 | edits of different leaves commute |
| PropsForm.EditThroughCoordinator | src/context.tsx:113-117 | an edit sent as UPDATE_PROPS keeps the session's uuid and holds the edited props; repeating it changes nothing |
| TransitionControls.OrDefault | src/transition-controls.tsx:13 | a destructured field is what the values give for it after merging them over a defaults object holding that field's default |
| TransitionControls.TypeOf | src/transition-controls.tsx:13 | type is the present value, else "spring" |
| TransitionControls.DelayOf | src/transition-controls.tsx:13 | delay is the present value, else 0 |
| TransitionControls.SchemaFromType | src/transition-controls.tsx:39-59 | for "spring" the keys are exactly damping, mass and stiffness; for any other type the schema is empty |
| TransitionControls.SpringFieldValues | src/transition-controls.tsx:41-55 | each spring field shows the present value, else 10, 1 or 100 |
| TransitionControls.Schema | src/transition-controls.tsx:17-31 | the type control offers spring and tween and shows the effective type; the delay control shows the effective delay; the other keys are exactly those of the type schema, each with the type schema's control |
| TransitionControls.WithOnChange | src/transition-controls.tsx:61-69 | same key set and same control attributes; each control reports path "transition." + key with the new value unchanged |
| TransitionControls.Controls | src/transition-controls.tsx:17-34 | the registered controls have the schema's keys, and each carries the schema's control |
| TransitionControls.SpringControlValues | src/transition-controls.tsx:15-41 | for the "spring" type, each registered spring control shows the present value, else 10, 1 or 100 |
| TransitionControls.ControlKeys | src/transition-controls.tsx:17-34 | the control keys are type and delay plus the spring fields exactly when the effective type is "spring"; an absent type gives all five |
| TransitionControls.StripPrefix | src/transition-controls.tsx:67 | a stripped path is the prefix followed by the returned key |
| TransitionControls.StripPrefixInverse | src/transition-controls.tsx:67 | stripping "transition." from "transition." + key gives back key |
| TransitionControls.ControlChangeRoundTrip | src/transition-controls.tsx:65-68 | every change a control reports strips back to that control's key and carries the value unchanged |

## Findings

| source | as written | input that shows it | evidently intended | confidence | as-written member | corrected member |
|---|---|---|---|---|---|---|
| src/motion.jsx:17-20 | the element reports its props with event type SET_PROPS, which the coordinator's `send` does not handle (src/context.tsx:20-31, 54-66) | click an element with id u, so the tool is in WAIT(u); the element sends SET_PROPS(props); the tool stays in WAIT(u) and never becomes ACTIVE | report with UPDATE_PROPS, which moves WAIT(u) to ACTIVE(u, props) | high (not executed) | Adapter.HandshakeStalls | Adapter.CorrectedHandshakeActivates |
| src/context.tsx:91-103 | the click listener is registered once (`[]` dependencies) and keeps the first render's `send`, which reads the first render's IDLE state | the tool is in WAIT(u) after a click on u; the user clicks another element with id v; the state becomes WAIT(v), so the first selection does not win. The ACTIVE(u, p) case, where the edited props are lost, is reachable only once the first finding is fixed, since as written nothing moves WAIT to ACTIVE | a click while a session is open is ignored, as `send` on the current state does (first selection wins) | high (not executed) | Coordinator.StaleListenerReselectsWhileWaiting, Coordinator.StaleListenerResetsSession | Coordinator.LiveListenerKeepsSelection |

The class `Adapter.Motion` and `Adapter.EffectRound` keep the code as written. The corrected reaction is used by the session lemma `Adapter.CorrectedHandshakeActivates`.

`Coordinator.ListenerStep` models the registered listener as written. `Coordinator.DevTool.OnDocumentClick` is the corrected listener: it reads the current state. So "the first selection wins" (`Coordinator.WaitIgnoresClickAndClose`, `Coordinator.SelectionCannotBeStolen`) holds for `send`, and for document clicks only through the corrected listener.

## Left out

- React rendering, JSX output, styling and theme (src/App.tsx, src/stitches.ts, the panel in src/context.tsx:105-138, src/motion.jsx:37-61, src/props-form.tsx:14-51): UI only. The form is modelled by the entries it offers and the edit its sliders make.
- Adding and removing the document listener (src/context.tsx:99-102): DOM plumbing. That the listener keeps the first render's `send` is modelled by `Coordinator.ListenerStep`, with the captured state as a parameter: every click with an id is computed from IDLE (see Findings).
- React scheduling: `setToolState` and `setKey` are asynchronous and batched. `Send` is a synchronous step over the current state, and `OnContext` runs once per context value.
- uuid v4 generation: replaced by `Tokens.TokenSupply`, which only promises never to repeat a token.
- framer-motion, leva's `useControls` and lodash are foreign libraries. `_.mapValues` is a key-preserving map comprehension.
- Numbers are modelled as integers. Floating-point values, NaN and the slider's `valueAsNumber` conversion are out.
- The float `min`/`step` widget metadata and the slider's 0-120 bounds are left out: they are widget hints, not behaviour.
- The JSON debug dump (src/context.tsx:111) is display only.
- `Values.Value` has no null, undefined, array or function variant: `initial={null}` (falsy at src/motion.jsx:40), array-valued props and callback props cannot be represented. An absent key stands for undefined.
- `Values.Fields` treats a non-object group as having no fields: spreading a string into an object (its characters become fields) is not modelled.
- PropsForm.EditableEntries: it works on the entry list `Object.entries(props)` returns. The link between a props map and its insertion-order enumeration is not modelled.
- `TransitionControls` is not rendered by any file of the program, and its path edits are not consumed by the coordinator. The model states what it would report.
- States and events that the coordinator's types do not declare (replay-wait, replay request, dotted-path edit, deselect from replay) are not invented. Only the adapter's test of `WAIT_REPLAY` is modelled, and it is shown to be unreachable.
