/**
 * `get_style_from_dict`: a declarative option map becomes a named style.
 * The openpyxl objects (`Font`, `PatternFill`, `Alignment`, `Side`) are kept
 * abstract: each is represented by the keyword options it is built from.
 */
module Styles {
  import opened Options
  import opened Dicts
  import opened Values

  /** `Border(left=side, right=side, top=side, bottom=side)`, each side given by its `Side` options. */
  datatype Border = Border(left: Value, right: Value, top: Value, bottom: Value)

  /** A `NamedStyle`: its name, and the options of each attribute set on it (`None`: left at the default). */
  datatype Style = Style(name: string, font: Option<Value>, fill: Option<Value>, alignment: Option<Value>, border: Option<Border>)

  /** `NamedStyle(name=name)`. */
  function DefaultStyle(name: string): Style
  {
    Style(name, None, None, None, None)
  }

  /** The options given under `key` in a style map (the last ones, as for any dict); none for a falsy non-map. */
  function OptionOf(styleDict: Value, key: string): Option<Value>
  {
    if styleDict.Map? then LastValue(styleDict.entries, key) else None
  }

  /**
   * The style a style map describes: each of `font`, `fill` and `alignment` is
   * built from the options under that key, all four borders from the one
   * `border_side`, and every other key is ignored.
   */
  function StyleOf(styleDict: Value, name: string): Style
    requires !Truthy(styleDict) || styleDict.Map?
  {
    Style(name, OptionOf(styleDict, "font"), OptionOf(styleDict, "fill"), OptionOf(styleDict, "alignment"),
          match OptionOf(styleDict, "border_side")
          case Some(side) => Some(Border(side, side, side, side))
          case None => None)
  }

  /** `get_style_from_dict(style_dict, style_name)`, setting the style's attributes key by key. */
  method StyleFromDict(styleDict: Value, styleName: string) returns (style: Style)
    requires !Truthy(styleDict) || styleDict.Map?
    ensures style == StyleOf(styleDict, styleName)
  {
    style := DefaultStyle(styleName);
    if !Truthy(styleDict) {
      return;
    }
    var options := styleDict.entries;
    var i := 0;
    while i < |options|
      invariant i <= |options|
      invariant style == StyleOf(Map(styleDict.kind, options[..i]), styleName)
    {
      var (key, value) := options[i];
      if key == "font" {
        style := style.(font := Some(value));
      } else if key == "fill" {
        style := style.(fill := Some(value));
      } else if key == "alignment" {
        style := style.(alignment := Some(value));
      } else if key == "border_side" {
        var side := value;
        style := style.(border := Some(Border(side, side, side, side)));
      }
      assert options[..i + 1][..i] == options[..i];
      i := i + 1;
    }
    assert options[..i] == options;
  }

  /** An empty or absent style map gives the default style of that name. */
  lemma EmptyStyleIsDefault(styleDict: Value, name: string)
    requires !Truthy(styleDict)
    ensures StyleOf(styleDict, name) == DefaultStyle(name)
  {
  }

  /** `border_side` sets all four sides to the same side. */
  lemma BorderSidesAgree(styleDict: Value, name: string)
    requires styleDict.Map?
    ensures StyleOf(styleDict, name).border.Some? <==> HasKey(styleDict, "border_side")
    ensures var b := StyleOf(styleDict, name).border;
            b.Some? ==> b.value.left == b.value.right == b.value.top == b.value.bottom == Get(styleDict, "border_side", NoneValue)
  {
    LastValueDistinct(styleDict.entries, "border_side");
  }

  /** An option under a key the builder does not know, wherever it stands, changes nothing. */
  lemma UnknownKeyIgnored(kind: MapKind, before: seq<(string, Value)>, after: seq<(string, Value)>,
                          key: string, value: Value, name: string)
    requires key != "font" && key != "fill" && key != "alignment" && key != "border_side"
    ensures StyleOf(Map(kind, before + [(key, value)] + after), name) == StyleOf(Map(kind, before + after), name)
  {
    forall k | k == "font" || k == "fill" || k == "alignment" || k == "border_side"
      ensures LastValue(before + [(key, value)] + after, k) == LastValue(before + after, k)
    {
      LastValueAppend(before + [(key, value)], after, k);
      LastValueAppend(before, [(key, value)], k);
      LastValueAppend(before, after, k);
    }
  }
}
