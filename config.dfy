/** `get_attribute`: how the renderer reads its configuration off the view. */
module Config {
  import opened Values

  /**
   * A view as `get_attribute` sees it: the attributes it defines, and the
   * zero-argument getter methods it defines, each with what calling it returns.
   */
  datatype View = View(attributes: map<string, Value>, getters: map<string, Value>)

  /** `getattr(view, name, None)`. */
  function Attribute(view: View, name: string): Value
  {
    if name in view.attributes then view.attributes[name] else NoneValue
  }

  /** `"get_{}".format(name)`. */
  function GetterName(name: string): string
  {
    "get_" + name
  }

  /**
   * `get_attribute(view, name, default)`: a truthy attribute wins; otherwise a
   * getter, when there is one, supplies the value; a `None` that remains
   * becomes `default`; a falsy attribute that is not `None` and has no getter
   * is returned as it is.
   */
  function GetAttribute(view: View, name: string, default: Value): (r: Value)
    ensures Truthy(Attribute(view, name)) ==> r == Attribute(view, name)
    ensures !Truthy(Attribute(view, name)) && GetterName(name) in view.getters ==>
              r == if view.getters[GetterName(name)] == NoneValue then default else view.getters[GetterName(name)]
    ensures !Truthy(Attribute(view, name)) && GetterName(name) !in view.getters ==>
              r == if Attribute(view, name) == NoneValue then default else Attribute(view, name)
    ensures r == NoneValue ==> default == NoneValue
  {
    var prop := Attribute(view, name);
    var prop := if !Truthy(prop) && GetterName(name) in view.getters then view.getters[GetterName(name)] else prop;
    if prop == NoneValue then default else prop
  }
}
