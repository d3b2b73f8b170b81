/** The checkbox's control mode and its one piece of internal state, `isChecked`, as values:
    how the constructor seeds it and how the input's change handler moves it. */
module CheckboxState {
  import opened Wrappers
  import opened CheckboxProps

  /** Controlled: the caller owns checked-ness through the `checked` prop. Uncontrolled: the
      instance owns it in `isChecked`. */
  datatype Mode = Controlled | Uncontrolled

  /** The mode a configuration selects at construction. */
  function ModeFor(p: Props): Mode {
    if p.checked == None && p.defaultChecked != None then Uncontrolled else Controlled
  }

  /** The mode a state value stands for: `isChecked` is defined exactly in uncontrolled mode. */
  function ModeOf(isChecked: Option<bool>): Mode {
    if isChecked.Some? then Uncontrolled else Controlled
  }

  /** `this.state.isChecked` as the constructor leaves it. */
  function InitialState(p: Props): (s: Option<bool>)
    ensures ModeOf(s) == ModeFor(p)
    ensures s.Some? ==> s == p.defaultChecked
  {
    if p.checked == None && p.defaultChecked != None then Some(p.defaultChecked.value) else None
  }

  /** `isChecked` after one call of the input's change handler whose event reports
      `defaultPrevented` once the caller's `onChange` has run. */
  function NextState(isChecked: Option<bool>, defaultPrevented: bool): (s: Option<bool>)
    ensures ModeOf(s) == ModeOf(isChecked)
    ensures defaultPrevented ==> s == isChecked
    ensures !defaultPrevented && isChecked.Some? ==> s.Some? && s.value != isChecked.value
  {
    if defaultPrevented then isChecked
    else if isChecked != None then Some(!isChecked.value)
    else isChecked
  }

  /** `isChecked` after a sequence of change events, given by their `defaultPrevented` flags. */
  function Run(isChecked: Option<bool>, events: seq<bool>): Option<bool>
    decreases |events|
  {
    if events == [] then isChecked else Run(NextState(isChecked, events[0]), events[1..])
  }

  /** The number of events whose default action was not prevented. */
  function Unprevented(events: seq<bool>): (n: nat)
    ensures n == 0 <==> forall i :: 0 <= i < |events| ==> events[i]
  {
    if events == [] then 0 else (if events[0] then 0 else 1) + Unprevented(events[1..])
  }

  /** The construction rule: state is seeded from `defaultChecked` exactly when `checked` is
      absent and `defaultChecked` present, and left undefined otherwise. */
  lemma InitialStateRule(p: Props)
    ensures InitialState(p).Some? <==> p.checked.None? && p.defaultChecked.Some?
    ensures InitialState(p).Some? ==> InitialState(p).value == p.defaultChecked.value
    ensures p.checked.Some? ==> InitialState(p) == None
  {
  }

  /** Two un-prevented changes restore the state, in either mode. */
  lemma TwoChangesRestore(isChecked: Option<bool>)
    ensures NextState(NextState(isChecked, false), false) == isChecked
  {
  }

  /** A run of events is its parts run one after the other. */
  lemma {:induction false} RunAppend(s: Option<bool>, a: seq<bool>, b: seq<bool>)
    ensures Run(s, a + b) == Run(Run(s, a), b)
    decreases |a|
  {
    if a == [] {
      assert a + b == b;
    } else {
      assert (a + b)[0] == a[0];
      assert (a + b)[1..] == a[1..] + b;
      RunAppend(NextState(s, a[0]), a[1..], b);
    }
  }

  /** Whether `isChecked` is defined never changes, whatever events arrive. */
  lemma {:induction false} RunKeepsMode(s: Option<bool>, events: seq<bool>)
    ensures ModeOf(Run(s, events)) == ModeOf(s)
    decreases |events|
  {
    if events != [] {
      RunKeepsMode(NextState(s, events[0]), events[1..]);
    }
  }

  /** A controlled instance never acquires internal state. */
  lemma RunControlled(events: seq<bool>)
    ensures Run(None, events) == None
  {
    RunKeepsMode(None, events);
  }

  /** An uncontrolled instance's state is its seed flipped once per un-prevented event. */
  lemma {:induction false} RunUncontrolled(b: bool, events: seq<bool>)
    ensures Run(Some(b), events) == Some(if Unprevented(events) % 2 == 0 then b else !b)
    decreases |events|
  {
    if events != [] {
      RunUncontrolled(NextState(Some(b), events[0]).value, events[1..]);
    }
  }

  /** Events that are all default-prevented leave the state as it was, in either mode. */
  lemma {:induction false} RunPrevented(s: Option<bool>, events: seq<bool>)
    requires forall i :: 0 <= i < |events| ==> events[i]
    ensures Run(s, events) == s
    decreases |events|
  {
    if events != [] {
      RunPrevented(s, events[1..]);
    }
  }
}
