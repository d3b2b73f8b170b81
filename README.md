# react-checkbox, modelled in Dafny

A model of the `Checkbox` component of `@snowcoders/react-checkbox`: an accessible checkbox
widget built from a clickable visual element and a hidden native checkbox input. The model
covers what `src/component.tsx` decides:

- the control mode chosen once at construction: uncontrolled, with its own `isChecked` seeded
  from `defaultChecked`, exactly when `checked` is absent and `defaultChecked` present;
  controlled otherwise;
- the input's change handler: the caller's `onChange` first (a `TypeError` if it is truthy but
  not a function), then a `TypeError` if the event is `null`, nothing if its default was prevented, else a flip of `isChecked` when it is defined;
- the visual's click handler, which only forwards a click to the mounted input;
- what render derives from props and state: the root's class attribute (built by the
  classnames utility and read back the way the DOM's `classList` reads it), the attributes of
  the visual and of the hidden input after the JSX spread, and the optional caption.

Modules, one per concern:

| file | module | contents |
|---|---|---|
| `wrappers.dfy` | `Wrappers` | `Option`, standing for an optional prop (`undefined`/`null` or a value) |
| `js_values.dfy` | `JsValues` | JavaScript values, truthiness, the value-returning `\|\|` |
| `class_list.dfy` | `ClassList` | a class attribute split on ASCII whitespace, the space join, their round trip |
| `class_names.dfy` | `ClassNames` | the classnames utility for `{token: condition}` and string arguments |
| `checkbox_props.dfy` | `CheckboxProps` | the props record and the `...otherButtonProps` rest |
| `checkbox_state.dfy` | `CheckboxState` | the mode, the initial state, one change and runs of changes |
| `checkbox_render.dfy` | `CheckboxRender` | root class list, visual and input attributes, caption |
| `checkbox.dfy` | `CheckboxComponent` | the `Checkbox` class: constructor, handlers, ref, prop updates |
| `checkbox_scenarios.dfy` | `CheckboxScenarios` | the component tests' scenarios, stated for all matching props |

The class `CheckboxComponent.Checkbox` holds the props, `isChecked`, the input reference and a
ghost log of each `onChange` call, with the event it was given and the state it observed; a ghost constant records the mode chosen
at construction, and `Valid()` says `isChecked` is defined exactly in uncontrolled mode. Its
methods are proved against the value-level functions of `CheckboxState`, whose properties
(the mode never changes, a controlled instance never gains state, two un-prevented changes
restore the state, prevented changes change nothing) are proved as lemmas about any sequence
of events.

The model follows the code as written; in particular:

- `onButtonClick` does not call `preventDefault` and does not guard an unset input reference;
  `OnButtonClick` returns `NullReference` where the code would throw.
- `onInputChange` calls `onChange` before it reads the event, so a `null` event (as two of the
  component's tests pass) still reaches `onChange` and then throws a `TypeError` at
  `isDefaultPrevented`, leaving the state as it was; `OnInputChange` returns `TypeError` then.
- `onInputChange` tests `onChange` only for truthiness before calling it, so a truthy value that
  is not a function (a number, a string, an object) throws a `TypeError` before the event is read,
  and the state stays as it was (`JsValues.CallFails`, `NonFunctionHandlerClient`).
- `eventElementProps` is never read or spread onto the input (`InputIgnoresOtherProps`); as an
  unnamed prop it travels in the rest bag onto the visual, like any other attribute.
- The checked class is `checked || isChecked`, not "the prop if present, else the state": a
  `checked={false}` handed to an instance that was built uncontrolled (`ReceiveProps`) does not
  hide a `true` state (`CheckedClassOnRule`).
- The component's test file labels its controlled case "Uncontrolled" and the other way round;
  the scenarios here are named by what the code does.

Three behaviours of the code worth knowing, all proved: a caller's `aria-checked` always replaces
the computed one, because the spread comes after it (`VisualAriaChecked`); a caller's
`onClick` replaces the forwarding handler for the same reason (`VisualOnClick`); and a caller's
`children` never reaches the visual, whose body is always `checkboxContent` (`VisualChildren`).

## Model

| member | source | states |
|---|---|---|
| `JsValues.Truthy` | src/component.tsx:106 | definition of JavaScript truthiness (`if (this.props.onChange)`, the classnames conditions); characterised by `JsValues.OfBoolTruthy` and `CheckboxRender.CheckedClassOnRule` |
| `JsValues.CallFails` | src/component.tsx:106-107 | definition: calling a truthy value that is not a function throws; characterised by `CheckboxComponent.Checkbox.OnInputChange` and `CheckboxScenarios.NonFunctionHandlerClient` |
| `JsValues.OfBoolTruthy` | src/component.tsx:61 | an optional boolean prop or state is truthy exactly when it is `true` |
| `JsValues.Or` | src/component.tsx:72-74 | `a \|\| b` yields one of its operands, and is truthy exactly when either operand is |
| `ClassList.TokenLength` | src/component.test.tsx:69-72 | the leading run of non-whitespace characters: within bounds, free of spaces, ended by a space or the end |
| `ClassList.Words` | src/component.test.tsx:69-72 | the class list the DOM reads from a class attribute: every entry a non-empty whitespace-free token |
| `ClassList.TokenLengthIs` | src/component.test.tsx:69-72 | the three properties of `TokenLength` determine it uniquely |
| `ClassList.WordsOfToken` | src/component.tsx:60-61 | a single token reads back as a one-entry class list |
| `ClassList.WordsAroundSpace` | src/component.tsx:59-63 | a space separates the tokens on its left from those on its right, whatever either side contains |
| `ClassList.WordsOfJoin` | src/component.tsx:59-63 | the class list of a space-joined string is the class lists of its parts, in order |
| `ClassList.JoinRoundTrip` | src/component.tsx:59-63 | joining tokens and reading the class list back returns exactly those tokens |
| `ClassList.WordsOfAllTokens` | src/component.tsx:59-63 | a list of tokens is its own class list |
| `ClassNames.ClassString` | src/component.tsx:59-63 | definition of the classnames join (kept pieces, space-separated); characterised by `ClassNames.ClassListOfClassNames` |
| `ClassNames.ArgPieces` | src/component.tsx:59-63 | one classnames argument contributes at most one piece: a truthy flag's key, or a non-empty string argument verbatim |
| `ClassNames.ClassPieces` | src/component.tsx:59-63 | classnames keeps at most one piece per argument |
| `ClassNames.ClassPiecesAppend` | src/component.tsx:59-63 | arguments are processed independently, left to right: pieces of `a + b` are those of `a` then those of `b` |
| `ClassNames.ClassPiecesMember` | src/component.tsx:59-63 | a piece is kept exactly when some argument contributes it |
| `ClassNames.ClassListOfClassNames` | src/component.tsx:59-66 | the root's class list is the class lists of the kept pieces, in argument order |
| `CheckboxProps.OtherButtonProps` | src/component.tsx:45-56 | the rest bag holds exactly the caller's attributes other than the destructured names, with their values |
| `CheckboxState.ModeFor` | src/component.tsx:35 | definition of the mode test at construction; characterised by `CheckboxState.InitialState` and `CheckboxState.InitialStateRule` |
| `CheckboxState.InitialState` | src/component.tsx:35-41 | the seeded state's mode is the mode the props select, and a seeded value is `defaultChecked` |
| `CheckboxState.InitialStateRule` | src/component.tsx:35-41 | state is defined exactly when `checked` is absent and `defaultChecked` present, then equals it; a `checked` prop always leaves it undefined |
| `CheckboxState.NextState` | src/component.tsx:110-118 | one change keeps the mode; a prevented change keeps the state; an un-prevented change flips a defined state |
| `CheckboxState.Run` | src/component.tsx:105-119 | definition: the state after successive change events; characterised by `CheckboxState.RunKeepsMode`, `CheckboxState.RunUncontrolled` and `CheckboxState.RunPrevented` |
| `CheckboxState.Unprevented` | src/component.tsx:110-112 | the count of events that go past the prevention check is zero exactly when every event was prevented |
| `CheckboxState.TwoChangesRestore` | src/component.tsx:114-118 | two un-prevented changes restore the state in either mode |
| `CheckboxState.RunAppend` | src/component.tsx:105-119 | running two event sequences in turn equals running their concatenation |
| `CheckboxState.RunKeepsMode` | src/component.tsx:114-118 | whether `isChecked` is defined is invariant over any sequence of change events |
| `CheckboxState.RunControlled` | src/component.tsx:114 | a controlled instance never acquires internal state, whatever the events |
| `CheckboxState.RunUncontrolled` | src/component.tsx:114-118 | an uncontrolled state after any events is its seed flipped once per un-prevented event |
| `CheckboxState.RunPrevented` | src/component.tsx:110-112 | default-prevented events leave the state unchanged in either mode |
| `CheckboxRender.RootClassArgs` | src/component.tsx:59-63 | definition: the three classnames arguments, in order; characterised by `CheckboxRender.RootClassList` |
| `CheckboxRender.RootClassName` | src/component.tsx:59-63 | definition: the root's class attribute; characterised by `CheckboxRender.RootClassList` |
| `CheckboxRender.CheckedClassOn` | src/component.tsx:61 | definition of the `checked \|\| isChecked` condition; characterised by `CheckboxRender.CheckedClassOnRule` |
| `CheckboxRender.CheckedClassOnRule` | src/component.tsx:61 | the checked condition `checked \|\| isChecked` holds exactly when the prop or the state is `true` |
| `CheckboxRender.RootClassList` | src/component.tsx:59-63 | the root's class list is the base token unless base styles are disabled, then `checked` when the condition holds, then the caller's tokens |
| `CheckboxRender.ClassListOfTwoFlagsAndName` | src/component.tsx:59-63 | the class list of `classNames({t1: c1}, {t2: c2}, name)` for any tokens, conditions and caller string |
| `CheckboxRender.CheckedClassPresent` | src/component.tsx:61 | `checked` is in the root's class list exactly when the prop or state is `true` or the caller's class names it |
| `CheckboxRender.BaseClassPresent` | src/component.tsx:60 | the base token is in the class list exactly when base styles are not disabled or the caller's class names it |
| `CheckboxRender.CallerClassesKept` | src/component.tsx:62 | every caller token appears in the root's class list, and the base token, when enabled, stays first |
| `CheckboxRender.VisualProps` | src/component.tsx:68-81 | the visual's attributes are its own eight (the JSX body as `children` included) plus the caller's rest bag |
| `CheckboxRender.VisualTypeValueUndefined` | src/component.tsx:76-78 | the visual's `type` and `value` are `undefined` whatever the caller passes |
| `CheckboxRender.VisualRole` | src/component.tsx:72 | the visual's role is the caller's non-empty role, otherwise `"checkbox"` |
| `CheckboxRender.VisualAriaChecked` | src/component.tsx:73-76 | a caller's `aria-checked` wins; otherwise it is `checked \|\| isChecked` |
| `CheckboxRender.VisualOnClick` | src/component.tsx:71-76 | the visual's click handler is the forwarding handler unless the caller passes an `onClick` |
| `CheckboxRender.VisualClassAndDisabled` | src/component.tsx:69-70 | the visual keeps the class `visual` and the `disabled` prop, which the spread cannot replace |
| `CheckboxRender.VisualChildren` | src/component.tsx:76-81 | the visual's `children` is `checkboxContent`, even when the caller passes `children` |
| `CheckboxRender.VisualPassesThrough` | src/component.tsx:76-81 | every caller attribute other than `type`, `value` and `children` reaches the visual unchanged |
| `CheckboxRender.InputProps` | src/component.tsx:82-90 | the hidden input carries exactly its seven named attributes |
| `CheckboxRender.InputIgnoresOtherProps` | src/component.tsx:82-90 | no other caller attribute reaches the input; its `checked` is the prop and its type `checkbox` |
| `CheckboxRender.Caption` | src/component.tsx:91 | definition: the caption holds `labelText` when it is non-null, and there is none otherwise; characterised by `CheckboxScenarios.CaptionCases` |
| `CheckboxRender.Render` | src/component.tsx:44-94 | definition: the values render computes, gathered in a `View`; characterised by the lemmas on its parts and `CheckboxScenarios.CaptionCases` |
| `CheckboxComponent.Checkbox.constructor` | src/component.tsx:32-42 | the instance starts valid, in the mode its props select, with `isChecked` seeded by the construction rule |
| `CheckboxComponent.Checkbox.SetInputRef` | src/component.tsx:97-99 | the ref callback stores the element (or its absence) |
| `CheckboxComponent.Checkbox.OnButtonClick` | src/component.tsx:101-103 | a click is dispatched to the stored input exactly when one is set; no state changes |
| `CheckboxComponent.Checkbox.OnInputChange` | src/component.tsx:105-119 | `onChange`, when a function, is called once with the handler's own event (`null` included) and sees the old state; when truthy but not a function, the call ends in a `TypeError`, nothing is logged and the state is unchanged; a `null` event then ends in a `TypeError` with the state unchanged; otherwise the state is `NextState` of the old one; the mode is kept |
| `CheckboxComponent.Checkbox.ReceiveProps` | src/component.tsx:32-42 | new props replace the old without touching the state, so the mode chosen at construction stays |
| `CheckboxScenarios.ControlledTracksProp` | src/component.test.tsx:66-96 | in controlled mode the checked condition follows only the `checked` prop, after any events |
| `CheckboxScenarios.UncontrolledTracksState` | src/component.test.tsx:144-206 | in uncontrolled mode the checked condition is the seed flipped once per un-prevented event |
| `CheckboxScenarios.ControlledChangeKeepsChecked` | src/component.test.tsx:66-96 | with `checked: true` the root stays `checked` after an un-prevented change |
| `CheckboxScenarios.UncontrolledChange` | src/component.test.tsx:144-206 | with `defaultChecked: true` the root starts `checked`, loses it on an un-prevented change and keeps it on a prevented one |
| `CheckboxScenarios.ClassNameCases` | src/component.test.tsx:31-56 | the base token is present by default and beside a caller class `blue`, and absent when base styles are disabled |
| `CheckboxScenarios.CaptionCases` | src/component.test.tsx:124-134 | no caption without `labelText`; a caption holding exactly the text otherwise |
| `CheckboxScenarios.UncontrolledClient` | src/component.test.tsx:144-174 | a client of the class: with `defaultChecked: true` the root is `checked`, loses it on an un-prevented change, and a prevented change or a `null` event leaves the state alone |
| `CheckboxScenarios.ControlledClient` | src/component.test.tsx:66-96 | a client of the class: with `checked: true` no event, `null` included, and no later props give the instance internal state; `onChange` is logged with the event it received |
| `CheckboxScenarios.NonFunctionHandlerClient` | src/component.tsx:105-108 | a client of the class whose `onChange` is truthy but not a function: the change ends in a `TypeError`, no call is logged and the seeded state stays |

## Left out

- The React lifecycle and `setState` batching: `setState` is a direct update of `isChecked`, and
  the framework's handing of new props is the method `ReceiveProps`.
- The JSX tree's shape: render is flattened to the values it computes (`CheckboxRender.View`).
- The browser's handling of the forwarded click (toggling the native input and firing its
  change event): `OnButtonClick` returns the dispatch, and the change arrives as a separate call
  of `OnInputChange`.
- CheckboxComponent.Checkbox.OnInputChange: the caller's `onChange`, when it is a function, is
  assumed to return normally; one that throws would end the handler before `isDefaultPrevented`
  and `setState` run, which the model does not capture.
- What the caller's `onChange` does: its prevention of the default arrives as the
  `defaultPrevented` field of the `ChangeEvent` argument, and any re-render it asks for as `ReceiveProps`.
- `UnstyledButton`'s internals, and the classnames utility's handling of arrays, numbers and
  nested objects, which the component never passes.
- Floating-point numbers: JavaScript numbers are integers here, so `NaN` is not modelled.
- `null` versus `undefined`: an optional prop is `None` for both. The `== null` tests and the
  truthiness tests accept both alike; `isBaseStylesDisabled !== true` is strict but holds for
  both; and where `disabled`, `checked` and `defaultChecked` are passed on as attribute values,
  React renders a `null` attribute the same as an absent or `undefined` one.
- The DOM's `classList` removes duplicate tokens; `ClassList.Words` keeps them, which changes no
  membership fact stated here.
- `checkboxContent` is an opaque value rendered as the visual's body.
- `webpack.config.js`: build configuration.
