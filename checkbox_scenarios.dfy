/** The behaviour the component's tests exercise, stated for all configurations the tests
    stand for: what the root's class list shows after a sequence of change events in each
    mode, and the render facts the tests inspect. */
module CheckboxScenarios {
  import opened Wrappers
  import opened JsValues
  import opened CheckboxProps
  import opened CheckboxState
  import opened CheckboxRender
  import opened CheckboxComponent
  import ClassList

  /** In controlled mode the checked class tracks the `checked` prop alone, after any events. */
  lemma ControlledTracksProp(p: Props, events: seq<bool>)
    requires ModeFor(p) == Controlled
    ensures CheckedClassOn(p, Run(InitialState(p), events)) <==> p.checked == Some(true)
  {
    RunControlled(events);
    CheckedClassOnRule(p, None);
  }

  /** In uncontrolled mode the checked class shows the seed flipped once per un-prevented event. */
  lemma UncontrolledTracksState(p: Props, events: seq<bool>)
    requires ModeFor(p) == Uncontrolled
    ensures CheckedClassOn(p, Run(InitialState(p), events))
        <==> (Unprevented(events) % 2 == 0) == p.defaultChecked.value
  {
    RunUncontrolled(p.defaultChecked.value, events);
    CheckedClassOnRule(p, Run(InitialState(p), events));
  }

  /** With `checked: true`, an un-prevented change leaves the checked token on the root. */
  lemma ControlledChangeKeepsChecked(p: Props)
    requires p.checked == Some(true)
    ensures CheckedClass in ClassList.Words(RootClassName(p, InitialState(p)))
    ensures CheckedClass in ClassList.Words(RootClassName(p, NextState(InitialState(p), false)))
  {
    CheckedClassPresent(p, InitialState(p));
    CheckedClassPresent(p, NextState(InitialState(p), false));
  }

  /** With `defaultChecked: true`, the root starts checked; an un-prevented change removes the
      token and a prevented one keeps it, unless the caller's own class string names it. */
  lemma UncontrolledChange(p: Props)
    requires p.checked == None && p.defaultChecked == Some(true)
    requires CheckedClass !in ClassList.Words(CallerClass(p))
    ensures CheckedClass in ClassList.Words(RootClassName(p, InitialState(p)))
    ensures CheckedClass !in ClassList.Words(RootClassName(p, NextState(InitialState(p), false)))
    ensures CheckedClass in ClassList.Words(RootClassName(p, NextState(InitialState(p), true)))
  {
    CheckedClassPresent(p, InitialState(p));
    CheckedClassPresent(p, NextState(InitialState(p), false));
    CheckedClassPresent(p, NextState(InitialState(p), true));
  }

  /** The class-name tests (there with the caller class `blue`): the base token is there by
      default and beside a caller token, which appears too, and gone when base styles are
      disabled. The tests look for a substring of the class string; here the question is
      whether the token is in the class list. */
  lemma ClassNameCases(isChecked: Option<bool>, caller: string)
    requires ClassList.IsToken(caller) && caller != BaseClass
    ensures BaseClass in ClassList.Words(RootClassName(NoProps, isChecked))
    ensures var p := NoProps.(className := Some(caller));
            BaseClass in ClassList.Words(RootClassName(p, isChecked))
            && caller in ClassList.Words(RootClassName(p, isChecked))
    ensures var p := NoProps.(className := Some(caller), isBaseStylesDisabled := Some(true));
            BaseClass !in ClassList.Words(RootClassName(p, isChecked))
  {
    BaseClassPresent(NoProps, isChecked);
    var styled := NoProps.(className := Some(caller));
    assert ClassList.Words(CallerClass(styled)) == [caller] by {
      ClassList.WordsOfToken(caller);
    }
    BaseClassPresent(styled, isChecked);
    CallerClassesKept(styled, isChecked);
    var plain := styled.(isBaseStylesDisabled := Some(true));
    assert CallerClass(plain) == CallerClass(styled);
    BaseClassPresent(plain, isChecked);
  }

  /** The label tests: no caption without `labelText`, and a caption holding exactly it, in
      either mode and whatever the state. */
  lemma CaptionCases(p: Props, isChecked: Option<bool>, text: string)
    ensures Render(p.(labelText := None), isChecked).caption == None
    ensures Render(p.(labelText := Some(text)), isChecked).caption == Some(text)
  {
  }

  /** A client of the class: the "maintains its own state" sequence, from construction through
      one un-prevented change, seen through the root's class list; then a prevented change
      and a `null` event, neither of which moves the state. */
  method UncontrolledClient(caller: Option<string>)
    requires CheckedClass !in ClassList.Words(caller.GetOr(""))
  {
    var props := NoProps.(defaultChecked := Some(true), className := caller);
    var box := new Checkbox(props);
    assert CheckedClass in ClassList.Words(RootClassName(box.props, box.isChecked)) by {
      UncontrolledChange(props);
    }
    var outcome := box.OnInputChange(Some(ChangeEvent(false)));
    assert box.props == props && box.isChecked == NextState(InitialState(props), false);
    assert CheckedClass !in ClassList.Words(RootClassName(box.props, box.isChecked)) by {
      UncontrolledChange(props);
    }
    outcome := box.OnInputChange(Some(ChangeEvent(true)));
    assert box.isChecked == Some(false);
    outcome := box.OnInputChange(None);
    assert outcome == TypeError && box.isChecked == Some(false);
  }

  /** A client of the class: a controlled instance keeps no state, whatever the events
      (including a `null` one) and whatever props the framework hands it next. */
  method ControlledClient(next: Props)
  {
    var box := new Checkbox(NoProps.(checked := Some(true), onChange := Fn("done")));
    var outcome := box.OnInputChange(Some(ChangeEvent(false)));
    box.ReceiveProps(next);
    outcome := box.OnInputChange(Some(ChangeEvent(false)));
    outcome := box.OnInputChange(None);
    assert box.isChecked == None;
    assert box.changeCalls[0] == ChangeCall(Some(ChangeEvent(false)), None);
  }

  /** A client of the class whose `onChange` is truthy but not a function: the handler throws
      before it reads the event, so nothing is logged and the state is kept. */
  method NonFunctionHandlerClient(handler: JsValue)
    requires Truthy(handler) && !handler.Fn?
  {
    var box := new Checkbox(NoProps.(defaultChecked := Some(true), onChange := handler));
    var outcome := box.OnInputChange(Some(ChangeEvent(false)));
    assert outcome == TypeError && box.isChecked == Some(true) && box.changeCalls == [];
  }
}
