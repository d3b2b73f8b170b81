/** The checkbox's configuration (its props), supplied by the embedding caller. */
module CheckboxProps {
  import opened Wrappers
  import opened JsValues

  /** The named props the component reads, each optional, and `others`: every other attribute
      the caller passes (a `ButtonHTMLAttributes` bag such as `aria-checked`, `type`, `value`,
      `onClick` or `data-*`). */
  datatype Props = Props(
    checked: Option<bool>,
    defaultChecked: Option<bool>,
    disabled: Option<bool>,
    isBaseStylesDisabled: Option<bool>,
    className: Option<string>,
    labelText: Option<string>,
    role: Option<string>,
    checkboxContent: JsValue,
    onChange: JsValue,
    others: map<string, JsValue>)

  /** The keys that render's destructuring takes out of the props object by name. */
  const DestructuredKeys: set<string> :=
    {"checkboxContent", "checked", "className", "defaultChecked", "disabled",
     "isBaseStylesDisabled", "labelText", "onChange", "role"}

  /** `...otherButtonProps`: the props object without the destructured keys. */
  function OtherButtonProps(p: Props): (rest: map<string, JsValue>)
    ensures rest.Keys == p.others.Keys - DestructuredKeys
    ensures forall k :: k in rest ==> rest[k] == p.others[k]
  {
    p.others - DestructuredKeys
  }

  /** Props with nothing set. */
  const NoProps: Props := Props(None, None, None, None, None, None, None, Undefined, Undefined, map[])
}
