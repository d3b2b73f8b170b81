/** What render derives from the props and `isChecked`: the root's class attribute, the
    attributes of the visual button and of the hidden input, and the optional caption. */
module CheckboxRender {
  import opened Wrappers
  import opened JsValues
  import opened CheckboxProps
  import ClassList
  import opened ClassNames

  const BaseClass: string := "sci-react-checkbox"
  const CheckedClass: string := "checked"

  /** The arguments render passes to the classnames utility, in order. */
  function RootClassArgs(p: Props, isChecked: Option<bool>): seq<ClassArg> {
    [ Flag(BaseClass, Bool(p.isBaseStylesDisabled != Some(true))),
      Flag(CheckedClass, Or(OfBool(p.checked), OfBool(isChecked))),
      Name(p.className) ]
  }

  /** The root element's class attribute. */
  function RootClassName(p: Props, isChecked: Option<bool>): string {
    ClassString(RootClassArgs(p, isChecked))
  }

  /** The caller's class string as the root receives it (`undefined` contributes nothing). */
  function CallerClass(p: Props): string {
    p.className.GetOr("")
  }

  /** The `checked || isChecked` condition of the checked class. */
  predicate CheckedClassOn(p: Props, isChecked: Option<bool>) {
    Truthy(Or(OfBool(p.checked), OfBool(isChecked)))
  }

  /** The condition holds when either the prop or the state is `true`: a `false` prop does not
      override a `true` state. */
  lemma CheckedClassOnRule(p: Props, isChecked: Option<bool>)
    ensures CheckedClassOn(p, isChecked) <==> p.checked == Some(true) || isChecked == Some(true)
  {
    OfBoolTruthy(p.checked);
    OfBoolTruthy(isChecked);
  }

  /** The root's class list: the base token unless base styles are disabled, then the checked
      token when `checked || isChecked` holds, then the caller's own tokens, in that order. */
  lemma RootClassList(p: Props, isChecked: Option<bool>)
    ensures ClassList.Words(RootClassName(p, isChecked))
         == (if p.isBaseStylesDisabled != Some(true) then [BaseClass] else [])
          + (if CheckedClassOn(p, isChecked) then [CheckedClass] else [])
          + ClassList.Words(CallerClass(p))
  {
    TokensAreTokens();
    ClassListOfTwoFlagsAndName(BaseClass, Bool(p.isBaseStylesDisabled != Some(true)),
                               CheckedClass, Or(OfBool(p.checked), OfBool(isChecked)), p.className);
  }

  lemma TokensAreTokens()
    ensures ClassList.IsToken(BaseClass) && ClassList.IsToken(CheckedClass)
  {
  }

  /** The class list of `classNames({t1: on1}, {t2: on2}, name)`. */
  lemma ClassListOfTwoFlagsAndName(t1: string, on1: JsValue, t2: string, on2: JsValue, name: Option<string>)
    requires ClassList.IsToken(t1) && ClassList.IsToken(t2)
    ensures ClassList.Words(ClassString([Flag(t1, on1), Flag(t2, on2), Name(name)]))
         == (if Truthy(on1) then [t1] else []) + (if Truthy(on2) then [t2] else [])
          + ClassList.Words(name.GetOr(""))
  {
    var args := [Flag(t1, on1), Flag(t2, on2), Name(name)];
    ClassListOfClassNames(args);
    ClassPiecesOfThree(args[0], args[1], args[2]);
    WordsOfAllThree(ArgPieces(args[0]), ArgPieces(args[1]), ArgPieces(args[2]));
    FlagWords(t1, on1);
    FlagWords(t2, on2);
    NameWords(name);
  }

  lemma WordsOfAllThree(a: seq<string>, b: seq<string>, c: seq<string>)
    ensures ClassList.WordsOfAll(a + b + c)
         == ClassList.WordsOfAll(a) + ClassList.WordsOfAll(b) + ClassList.WordsOfAll(c)
  {
    WordsOfAllAppend(a + b, c);
    WordsOfAllAppend(a, b);
  }

  lemma FlagWords(t: string, on: JsValue)
    requires ClassList.IsToken(t)
    ensures ClassList.WordsOfAll(ArgPieces(Flag(t, on))) == if Truthy(on) then [t] else []
  {
    ClassList.WordsOfToken(t);
    assert ClassList.WordsOfAll([t]) == ClassList.Words(t) + ClassList.WordsOfAll([]);
  }

  lemma NameWords(name: Option<string>)
    ensures ClassList.WordsOfAll(ArgPieces(Name(name))) == ClassList.Words(name.GetOr(""))
  {
    assert ClassList.Words("") == [];
    if name.Some? && name.value != "" {
      assert ClassList.WordsOfAll([name.value]) == ClassList.Words(name.value) + ClassList.WordsOfAll([]);
    }
  }

  lemma ClassPiecesOfThree(a: ClassArg, b: ClassArg, c: ClassArg)
    ensures ClassPieces([a, b, c]) == ArgPieces(a) + ArgPieces(b) + ArgPieces(c)
  {
    assert [a, b, c][1..] == [b, c];
    assert [b, c][1..] == [c];
    assert [c][1..] == [];
    assert ClassPieces([c]) == ArgPieces(c);
    assert ClassPieces([b, c]) == ArgPieces(b) + ArgPieces(c);
  }

  lemma {:induction false} WordsOfAllAppend(a: seq<string>, b: seq<string>)
    ensures ClassList.WordsOfAll(a + b) == ClassList.WordsOfAll(a) + ClassList.WordsOfAll(b)
  {
    if a == [] {
      assert a + b == b;
    } else {
      assert (a + b)[0] == a[0];
      assert (a + b)[1..] == a[1..] + b;
      WordsOfAllAppend(a[1..], b);
    }
  }

  /** The root carries the checked token exactly when `checked || isChecked` holds or the
      caller's class string itself names it. */
  lemma CheckedClassPresent(p: Props, isChecked: Option<bool>)
    ensures CheckedClass in ClassList.Words(RootClassName(p, isChecked))
        <==> p.checked == Some(true) || isChecked == Some(true)
             || CheckedClass in ClassList.Words(CallerClass(p))
  {
    RootClassList(p, isChecked);
    CheckedClassOnRule(p, isChecked);
  }

  /** The root carries the base token exactly when base styles are not disabled or the caller's
      class string itself names it. */
  lemma BaseClassPresent(p: Props, isChecked: Option<bool>)
    ensures BaseClass in ClassList.Words(RootClassName(p, isChecked))
        <==> p.isBaseStylesDisabled != Some(true) || BaseClass in ClassList.Words(CallerClass(p))
  {
    RootClassList(p, isChecked);
  }

  /** The caller's tokens never displace the component's own, and all of them appear. */
  lemma CallerClassesKept(p: Props, isChecked: Option<bool>)
    ensures forall w :: w in ClassList.Words(CallerClass(p))
                        ==> w in ClassList.Words(RootClassName(p, isChecked))
    ensures p.isBaseStylesDisabled != Some(true)
            ==> ClassList.Words(RootClassName(p, isChecked))[0] == BaseClass
  {
    RootClassList(p, isChecked);
  }

  /** The attributes the visual sets itself, before or after the spread of the other button
      props; `children` is the JSX body, which the element factory sets last. */
  const VisualOwnKeys: set<string> :=
    {"className", "disabled", "onClick", "role", "aria-checked", "type", "value", "children"}

  /** The attributes of the visual `UnstyledButton`: its own, overridden by the caller's other
      button props, overridden in turn by `type` and `value` set to `undefined` and by the
      `children` the JSX body `{checkboxContent}` supplies. */
  function VisualProps(p: Props, isChecked: Option<bool>): (v: map<string, JsValue>)
    ensures v.Keys == VisualOwnKeys + OtherButtonProps(p).Keys
  {
    var own := map[
      "className" := Str("visual"),
      "disabled" := OfBool(p.disabled),
      "onClick" := Fn("onButtonClick"),
      "role" := Or(OfString(p.role), Str("checkbox")),
      "aria-checked" := Or(Or(Lookup(p.others, "aria-checked"), OfBool(p.checked)), OfBool(isChecked))];
    own + OtherButtonProps(p)
      + map["type" := Undefined, "value" := Undefined, "children" := p.checkboxContent]
  }

  /** Whatever the caller passes, the visual's `type` and `value` are `undefined`. */
  lemma VisualTypeValueUndefined(p: Props, isChecked: Option<bool>)
    ensures VisualProps(p, isChecked)["type"] == Undefined
    ensures VisualProps(p, isChecked)["value"] == Undefined
  {
  }

  /** The visual's role is the caller's non-empty role, or `"checkbox"`. */
  lemma VisualRole(p: Props, isChecked: Option<bool>)
    ensures VisualProps(p, isChecked)["role"]
         == if p.role.Some? && p.role.value != "" then Str(p.role.value) else Str("checkbox")
  {
    assert "role" !in OtherButtonProps(p);
  }
  /** The `aria-checked` computed from `checked || isChecked` is only a default: a caller's
      `aria-checked`, which the spread carries, always replaces it. */
  lemma VisualAriaChecked(p: Props, isChecked: Option<bool>)
    ensures VisualProps(p, isChecked)["aria-checked"]
         == if "aria-checked" in p.others then p.others["aria-checked"]
            else Or(OfBool(p.checked), OfBool(isChecked))
  {
    assert "aria-checked" !in DestructuredKeys;
  }

  /** The visual's click handler forwards to the input unless the caller passes an `onClick`
      of its own, which the spread lets through. */
  lemma VisualOnClick(p: Props, isChecked: Option<bool>)
    ensures VisualProps(p, isChecked)["onClick"]
         == if "onClick" in p.others then p.others["onClick"] else Fn("onButtonClick")
  {
    assert "onClick" !in DestructuredKeys;
  }

  /** The visual keeps its own class and the `disabled` prop: both are destructured, so the
      spread cannot replace them. */
  lemma VisualClassAndDisabled(p: Props, isChecked: Option<bool>)
    ensures VisualProps(p, isChecked)["className"] == Str("visual")
    ensures VisualProps(p, isChecked)["disabled"] == OfBool(p.disabled)
  {
    var late := map["type" := Undefined, "value" := Undefined, "children" := p.checkboxContent];
    assert "className" !in late && "disabled" !in late;
    assert "className" !in OtherButtonProps(p) && "disabled" !in OtherButtonProps(p);
  }

  /** The visual's body is `checkboxContent`, whatever `children` the caller passes. */
  lemma VisualChildren(p: Props, isChecked: Option<bool>)
    ensures VisualProps(p, isChecked)["children"] == p.checkboxContent
  {
  }

  /** Every other attribute of the caller's reaches the visual unchanged, except `type`,
      `value` and `children`. */
  lemma VisualPassesThrough(p: Props, isChecked: Option<bool>, k: string)
    requires k in OtherButtonProps(p) && k != "type" && k != "value" && k != "children"
    ensures VisualProps(p, isChecked)[k] == p.others[k]
  {
  }

  /** The attributes of the hidden native input. */
  function InputProps(p: Props): (m: map<string, JsValue>)
    ensures m.Keys == {"checked", "className", "disabled", "defaultChecked", "onChange", "ref", "type"}
  {
    map[
      "checked" := OfBool(p.checked),
      "className" := Str("data"),
      "disabled" := OfBool(p.disabled),
      "defaultChecked" := OfBool(p.defaultChecked),
      "onChange" := Fn("onInputChange"),
      "ref" := Fn("setInputRef"),
      "type" := Str("checkbox")]
  }

  /** No attribute of the caller's besides the named props reaches the input: in particular an
      `eventElementProps` bag is not spread onto it. */
  lemma InputIgnoresOtherProps(p: Props, extra: map<string, JsValue>)
    ensures InputProps(p.(others := extra)) == InputProps(p)
    ensures InputProps(p)["checked"] == OfBool(p.checked)
    ensures InputProps(p)["type"] == Str("checkbox")
  {
  }

  /** The caption's text, if a caption is rendered. */
  function Caption(p: Props): Option<string> {
    p.labelText
  }

  /** The rendered tree, flattened to the values render computes. */
  datatype View = View(
    rootClassName: string,
    visual: map<string, JsValue>,
    input: map<string, JsValue>,
    caption: Option<string>)

  function Render(p: Props, isChecked: Option<bool>): View {
    View(RootClassName(p, isChecked), VisualProps(p, isChecked), InputProps(p), Caption(p))
  }
}
