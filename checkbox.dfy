/** The checkbox component instance: the props the framework last handed it, the internal
    `isChecked` state, the reference to the mounted hidden input, and its event handlers. */
module CheckboxComponent {
  import opened Wrappers
  import opened JsValues
  import opened CheckboxProps
  import opened CheckboxState

  /** What clicking the visual does: a click dispatched to the mounted input element, or the
      `TypeError` that reading `click` of an unset reference throws. */
  datatype Dispatch = ClickInput(element: nat) | NullReference

  /** The change event the input's handler receives, reduced to what the handler reads of it:
      whether its default action is prevented once the caller's `onChange` has run. */
  datatype ChangeEvent = ChangeEvent(defaultPrevented: bool)

  /** How a handler call ends: normally, or with a `TypeError`, which calling a truthy
      `onChange` that is not a function, or `isDefaultPrevented` on a `null` event, throws. */
  datatype Outcome = Returned | TypeError

  /** One call of the caller's `onChange`: the event it was given (`null` included) and the
      `isChecked` it observed. */
  datatype ChangeCall = ChangeCall(event: Option<ChangeEvent>, observed: Option<bool>)

  class Checkbox {
    var props: Props
    /** `this.state.isChecked`. */
    var isChecked: Option<bool>
    /** `this.inputRef`: the identity of the mounted input element, if any. */
    var inputRef: Option<nat>
    /** Every call of the caller's `onChange`, in order. */
    ghost var changeCalls: seq<ChangeCall>
    /** The control mode chosen at construction. */
    ghost const mode: Mode

    /** `isChecked` is defined exactly in the mode chosen at construction. */
    ghost predicate Valid()
      reads this
    {
      ModeOf(isChecked) == mode
    }

    constructor (p: Props)
      ensures Valid()
      ensures mode == ModeFor(p)
      ensures props == p && isChecked == InitialState(p)
      ensures inputRef == None && changeCalls == []
    {
      props := p;
      isChecked := InitialState(p);
      inputRef := None;
      changeCalls := [];
      mode := ModeFor(p);
    }

    /** The ref callback: the framework passes the input on mount and `null` on unmount. */
    method SetInputRef(element: Option<nat>)
      requires Valid()
      modifies this`inputRef
      ensures Valid() && inputRef == element
    {
      inputRef := element;
    }

    /** The visual's click handler only forwards a click to the input; it changes no state and
      does not guard against an unset reference. */
    method OnButtonClick() returns (d: Dispatch)
      ensures inputRef.Some? <==> d.ClickInput?
      ensures d.ClickInput? ==> d.element == inputRef.value
    {
      match inputRef
      case Some(element) => d := ClickInput(element);
      case None => d := NullReference;
    }

    /** The input's change handler: the caller's `onChange` first, when it is truthy, given the
        handler's own event whatever happens next, and a `TypeError` if it is not a function;
        then a `TypeError` if there is no event, nothing if the event's default is prevented,
        and otherwise a flip of `isChecked` when it is defined. */
    method OnInputChange(event: Option<ChangeEvent>) returns (outcome: Outcome)
      requires Valid()
      modifies this`isChecked, this`changeCalls
      ensures Valid()
      ensures changeCalls
           == old(changeCalls) + if props.onChange.Fn? then [ChangeCall(event, old(isChecked))] else []
      ensures outcome == if CallFails(props.onChange) || event.None? then TypeError else Returned
      ensures isChecked == if CallFails(props.onChange) then old(isChecked) else match event
                           case None => old(isChecked)
                           case Some(e) => NextState(old(isChecked), e.defaultPrevented)
    {
      if Truthy(props.onChange) {
        if !props.onChange.Fn? {
          return TypeError;
        }
        changeCalls := changeCalls + [ChangeCall(event, isChecked)];
      }
      if event == None {
        return TypeError;
      }
      outcome := Returned;
      if event.value.defaultPrevented {
        return;
      }
      if isChecked != None {
        isChecked := Some(!isChecked.value);
      }
    }

    /** The framework re-rendering the instance with new props: state is untouched, so the mode
        chosen at construction stays, whatever the new props say. */
    method ReceiveProps(next: Props)
      requires Valid()
      modifies this`props
      ensures Valid() && props == next
    {
      props := next;
    }
  }
}
