/**
 * `XLSXRenderer`: the sheet it writes, row by row. The workbook is reduced to
 * its one write-only sheet (title, images, rows); saving it is left abstract:
 * the `Document` value is what the saved bytes hold.
 */
module Renderer {
  import opened Options
  import opened Dicts
  import opened Values
  import opened Flattening
  import opened Config
  import opened Styles

  /** The reserved field that colours a row and is never shown as a column. */
  const RowColorKey: string := "row_color"
  const DefaultTitle: Value := Str("Report")
  const ImageAnchor: string := "A1"

  /** `PatternFill(fill_type="solid", start_color=color)`. */
  datatype Fill = Solid(color: Value)

  /** A `WriteOnlyCell`: its value, its named style and, when set, a fill that overrides the style's. */
  datatype Cell = Cell(value: Value, style: Style, fill: Option<Fill>)

  /** What the saved workbook holds: the title of its one sheet, the images placed on it, its rows. */
  datatype Document = Document(title: Value, images: seq<(Value, string)>, rows: seq<seq<Cell>>)

  /** What `render` returns: JSON text for an error payload, otherwise the workbook. */
  datatype Output = JsonText(text: string) | Workbook(doc: Document)

  /** The sheet of a write-only workbook: rows are appended and never revisited. */
  class Sheet {
    var title: Value
    var images: seq<(Value, string)>
    var rows: seq<seq<Cell>>

    /** `wb.create_sheet()`. */
    constructor ()
      ensures title == Str("Sheet") && images == [] && rows == []
    {
      title := Str("Sheet");
      images := [];
      rows := [];
    }

    /** `ws.append(row)`. */
    method Append(row: seq<Cell>)
      modifies this
      ensures rows == old(rows) + [row]
      ensures title == old(title) && images == old(images)
    {
      rows := rows + [row];
    }

    /** `ws.add_image(img, anchor)`. */
    method AddImage(img: Value, anchor: string)
      modifies this
      ensures images == old(images) + [(img, anchor)]
      ensures title == old(title) && rows == old(rows)
    {
      images := images + [(img, anchor)];
    }

    /** `ws.title = t`. */
    method SetTitle(t: Value)
      modifies this
      ensures title == t
      ensures images == old(images) && rows == old(rows)
    {
      title := t;
    }
  }

  // ---------------------------------------------------------------------------
  // Reading the payload

  /** `"detail" in data`: a key of a mapping, an element of a list. */
  predicate HasDetail(data: Value)
    requires data.Map? || data.List?
  {
    if data.Map? then HasKey(data, "detail") else Str("detail") in data.items
  }

  /** `_check_validatation_data`: false for an error payload, one that carries `detail`. */
  predicate CheckValidationData(data: Value)
    requires data.Map? || data.List?
  {
    !HasDetail(data)
  }

  /** `data["results"] if "results" in data else data`. */
  function ResultsOf(data: Value): Value
    requires data.Map? || data.List?
    requires data.List? ==> Str("results") !in data.items
  {
    if data.Map? && HasKey(data, "results") then Get(data, "results", NoneValue) else data
  }

  /** The results `render` can lay out: a mapping, or a list of mappings. */
  predicate ResultsShaped(results: Value)
  {
    results.Map? || (results.List? && forall i :: 0 <= i < |results.items| ==> results.items[i].Map?)
  }

  // ---------------------------------------------------------------------------
  // Reading the configuration

  /** The options that `render` reads off the view, and the styles built from them. */
  datatype Settings = Settings(header: Value, columnHeader: Value, body: Value,
                               headerStyle: Style, columnHeaderStyle: Style, bodyStyle: Style,
                               titles: seq<Value>)

  predicate StyleOptionsShaped(section: Value)
    requires section.Map?
  {
    var options := Get(section, "style", NoneValue);
    !Truthy(options) || options.Map?
  }

  /** The three sections are dicts and their `style` options are dicts when given. */
  predicate ConfigShaped(view: View)
  {
    var header := GetAttribute(view, "xlsx_header", EmptyDict);
    var columnHeader := GetAttribute(view, "xlsx_column_header", EmptyDict);
    var body := GetAttribute(view, "xlsx_body", EmptyDict);
    && header.Map? && columnHeader.Map? && body.Map?
    && StyleOptionsShaped(header) && StyleOptionsShaped(columnHeader) && StyleOptionsShaped(body)
  }

  /** `column_header.get("titles", [])`. */
  function TitlesOption(view: View): Value
    requires ConfigShaped(view)
  {
    Get(GetAttribute(view, "xlsx_column_header", EmptyDict), "titles", List([]))
  }

  /**
   * The `titles` values the column-header loop can use without raising: a
   * list, a string, or an empty dict (its length 0 means no title is ever
   * looked up).
   */
  predicate TitlesIndexable(titles: Value)
  {
    titles.List? || titles.Str? || (titles.Map? && titles.entries == [])
  }

  /**
   * The titles as the column-header loop indexes them: the elements of a list,
   * or the one-character strings of a string. Any other value is only read
   * when there are results, and then the model requires it to be indexable.
   */
  function TitlesOf(titles: Value): seq<Value>
  {
    match titles
    case List(xs) => xs
    case Str(t) => seq(|t|, i requires 0 <= i < |t| => Str([t[i]]))
    case _ => []
  }

  function SettingsOf(view: View): Settings
    requires ConfigShaped(view)
  {
    var header := GetAttribute(view, "xlsx_header", EmptyDict);
    var columnHeader := GetAttribute(view, "xlsx_column_header", EmptyDict);
    var body := GetAttribute(view, "xlsx_body", EmptyDict);
    Settings(header, columnHeader, body,
             StyleOf(Get(header, "style", NoneValue), "header_style"),
             StyleOf(Get(columnHeader, "style", NoneValue), "column_header_style"),
             StyleOf(Get(body, "style", NoneValue), "body_style"),
             TitlesOf(TitlesOption(view)))
  }

  /** What `render` needs of its input: a container payload, well-shaped results and configuration unless it is an error payload. */
  predicate Renderable(data: Value, view: View)
  {
    && (data.Map? || data.List?)
    && (CheckValidationData(data) ==>
          && (data.List? ==> Str("results") !in data.items)
          && ResultsShaped(ResultsOf(data))
          && ConfigShaped(view)
          && (Len(ResultsOf(data)) > 0 ==> TitlesIndexable(TitlesOption(view))))
  }

  // ---------------------------------------------------------------------------
  // Column headers

  /** The keys that get a column: all but `row_color`, in order. */
  function Shown(keys: seq<string>): (shown: seq<string>)
    ensures forall k :: k in shown <==> k in keys && k != RowColorKey
    ensures |shown| <= |keys|
  {
    if keys == [] then []
    else
      var last := keys[|keys| - 1];
      Shown(keys[..|keys| - 1]) + (if last == RowColorKey then [] else [last])
  }

  /**
   * The column-header row: one cell per shown key; counting the shown keys from
   * 1, the i-th is displayed as `titles[i-1]` when there is such a title and
   * as the key itself otherwise.
   */
  function ColumnHeader(keys: seq<string>, titles: seq<Value>, style: Style): seq<Cell>
  {
    var shown := Shown(keys);
    seq(|shown|, i requires 0 <= i < |shown| => Cell(if i < |titles| then titles[i] else Str(shown[i]), style, None))
  }

  /**
   * The keys the columns come from: for a mapping the results' own top-level
   * keys, unflattened; for a list the flattened keys of its first record.
   */
  function ColumnKeys(results: Value, enc: Encoders): seq<string>
    requires ResultsShaped(results) && Len(results) > 0
  {
    if results.Map? then Keys(results.entries) else Keys(Flatten(results.items[0], "", enc))
  }

  /**
   * The part of `render` that builds the column-header row: pick the keys,
   * then count the shown columns one by one.
   */
  method MakeColumnHeader(results: Value, titles: seq<Value>, style: Style, enc: Encoders) returns (row: seq<Cell>)
    requires ResultsShaped(results) && Len(results) > 0
    ensures row == ColumnHeader(ColumnKeys(results, enc), titles, style)
  {
    var keys: seq<string>;
    if results.Map? {
      keys := Keys(results.entries);
    } else {
      var firstRow := FlattenRecord(results.items[0], "", enc);
      keys := Keys(firstRow);
    }
    row := [];
    var columnCount := 0;
    var i := 0;
    while i < |keys|
      invariant i <= |keys|
      invariant columnCount == |Shown(keys[..i])|
      invariant row == ColumnHeader(keys[..i], titles, style)
    {
      var columnName := keys[i];
      assert keys[..i + 1][..i] == keys[..i];
      if columnName != RowColorKey {
        columnCount := columnCount + 1;
        var display := if columnCount > |titles| then Str(columnName) else titles[columnCount - 1];
        row := row + [Cell(display, style, None)];
      }
      i := i + 1;
    }
    assert keys[..i] == keys;
  }

  // ---------------------------------------------------------------------------
  // Body rows

  /** The flattened entries that get a cell: all but `row_color`, in order. */
  function ShownItems(flat: seq<(string, Value)>): (shown: seq<(string, Value)>)
    ensures Keys(shown) == Shown(Keys(flat))
    ensures forall i :: 0 <= i < |shown| ==> shown[i] in flat
  {
    if flat == [] then []
    else
      var last := flat[|flat| - 1];
      KeysPrefix(flat, |flat| - 1);
      KeysAppend(ShownItems(flat[..|flat| - 1]), if last.0 == RowColorKey then [] else [last]);
      ShownItems(flat[..|flat| - 1]) + (if last.0 == RowColorKey then [] else [last])
  }

  /** Taking one more entry of a flattened row shows it unless it is `row_color`. */
  lemma ShownItemsStep(flat: seq<(string, Value)>, i: nat)
    requires i < |flat|
    ensures ShownItems(flat[..i + 1]) == ShownItems(flat[..i]) + (if flat[i].0 == RowColorKey then [] else [flat[i]])
  {
    assert flat[..i + 1][..i] == flat[..i];
  }

  /** The fill of every cell of a row: solid in the record's `row_color` when it has one at top level. */
  function RowFill(row: Value): Option<Fill>
    requires row.Map?
  {
    if HasKey(row, RowColorKey) then Some(Solid(Get(row, RowColorKey, NoneValue))) else None
  }

  function CellsOf(items: seq<(string, Value)>, style: Style, fill: Option<Fill>): seq<Cell>
  {
    seq(|items|, i requires 0 <= i < |items| => Cell(items[i].1, style, fill))
  }

  /** The body row of one record: a cell per flattened entry of that record, `row_color` left out. */
  function BodyRow(row: Value, style: Style, enc: Encoders): seq<Cell>
    requires row.Map?
  {
    CellsOf(ShownItems(Flatten(row, "", enc)), style, RowFill(row))
  }

  /**
   * The loop of `_make_body` over a flattened row: a cell per entry other than
   * `row_color`, each with the body style and the row's fill.
   */
  method MakeCells(flattenRow: seq<(string, Value)>, style: Style, fill: Option<Fill>) returns (dataRow: seq<Cell>)
    ensures dataRow == CellsOf(ShownItems(flattenRow), style, fill)
  {
    dataRow := [];
    var i := 0;
    while i < |flattenRow|
      invariant i <= |flattenRow|
      invariant dataRow == CellsOf(ShownItems(flattenRow[..i]), style, fill)
    {
      var (columnName, value) := flattenRow[i];
      ShownItemsStep(flattenRow, i);
      if columnName != RowColorKey {
        dataRow := dataRow + [Cell(value, style, fill)];
      }
      i := i + 1;
    }
    assert flattenRow[..i] == flattenRow;
  }

  /** How many body rows the results give: one per list element, one for a `ReturnDict`, none for a plain dict. */
  function BodyCount(results: Value): nat
    requires ResultsShaped(results)
  {
    if results.List? then |results.items| else if results.kind == ReturnDict then 1 else 0
  }

  /** The record behind the i-th body row. */
  function RecordAt(results: Value, i: nat): (r: Value)
    requires ResultsShaped(results) && i < BodyCount(results)
    ensures r.Map?
  {
    if results.List? then results.items[i] else results
  }

  function BodyRows(results: Value, style: Style, enc: Encoders): seq<seq<Cell>>
    requires ResultsShaped(results)
  {
    seq(BodyCount(results), i requires 0 <= i < BodyCount(results) => BodyRow(RecordAt(results, i), style, enc))
  }

  // ---------------------------------------------------------------------------
  // The whole sheet

  /** The banner row, present when the header section is a non-empty dict. */
  function BannerRows(header: Value, headerStyle: Style): seq<seq<Cell>>
    requires header.Map?
  {
    if Truthy(header) then [[Cell(Get(header, "header_title", DefaultTitle), headerStyle, None)]] else []
  }

  /** The column-header row, present when there are results. */
  function ColumnHeaderRows(results: Value, s: Settings, enc: Encoders): seq<seq<Cell>>
    requires ResultsShaped(results)
  {
    if Len(results) > 0 then [ColumnHeader(ColumnKeys(results, enc), s.titles, s.columnHeaderStyle)] else []
  }

  /** The workbook `render` saves for the given results and settings. */
  function SheetDocument(results: Value, s: Settings, enc: Encoders): Document
    requires ResultsShaped(results) && s.header.Map?
  {
    Document(Get(s.header, "tab_title", DefaultTitle), HeaderImages(s.header),
             BannerRows(s.header, s.headerStyle) + ColumnHeaderRows(results, s, enc) + BodyRows(results, s.bodyStyle, enc))
  }

  /** The image the header section names under `img`, anchored at A1, when that option is truthy. */
  function HeaderImages(header: Value): seq<(Value, string)>
    requires header.Map?
  {
    var img := Get(header, "img", NoneValue);
    if Truthy(img) then [(img, ImageAnchor)] else []
  }

  /** `render(data)` for the view's configuration. */
  function RenderSpec(data: Value, view: View, enc: Encoders): Output
    requires Renderable(data, view)
  {
    if !CheckValidationData(data) then JsonText(enc.json(data))
    else Workbook(SheetDocument(ResultsOf(data), SettingsOf(view), enc))
  }

  /** `XLSXRenderer`, with the state `render` leaves on it. */
  class XlsxRenderer {
    var ws: Sheet?
    var body: Value
    var bodyStyle: Style

    constructor ()
      ensures ws == null
    {
      ws := null;
      body := EmptyDict;
      bodyStyle := DefaultStyle("body_style");
    }

    /** `_make_body(row)`: flatten the record and append its row of cells. */
    method MakeBody(row: Value, enc: Encoders)
      requires ws != null && row.Map?
      modifies ws
      ensures ws.rows == old(ws.rows) + [BodyRow(row, bodyStyle, enc)]
      ensures ws.title == old(ws.title) && ws.images == old(ws.images)
    {
      var flattenRow := FlattenRecord(row, "", enc);
      var dataRow := MakeCells(flattenRow, bodyStyle, RowFill(row));
      ws.Append(dataRow);
    }

    /** The end of `render`: a body row per record of the results. */
    method MakeBodyRows(results: Value, enc: Encoders)
      requires ws != null && ResultsShaped(results)
      modifies ws
      ensures ws.rows == old(ws.rows) + BodyRows(results, bodyStyle, enc)
      ensures ws.title == old(ws.title) && ws.images == old(ws.images)
    {
      if results.Map? && results.kind == ReturnDict {
        MakeBody(results, enc);
        assert BodyRows(results, bodyStyle, enc) == [BodyRow(results, bodyStyle, enc)];
      } else if results.List? {
        var i := 0;
        while i < |results.items|
          invariant i <= |results.items|
          invariant ws.rows == old(ws.rows) + BodyRows(Values.List(results.items[..i]), bodyStyle, enc)
          invariant ws.title == old(ws.title) && ws.images == old(ws.images)
        {
          MakeBody(results.items[i], enc);
          assert results.items[..i + 1][..i] == results.items[..i];
          i := i + 1;
        }
        assert results.items[..i] == results.items;
      } else {
        assert BodyRows(results, bodyStyle, enc) == [];
      }
    }

    /**
     * The start of `render`: read the three configuration sections off the view
     * and build their styles; the body's are kept on the renderer.
     */
    method ReadSettings(view: View) returns (header: Value, headerStyle: Style, columnHeaderStyle: Style, columnTitles: seq<Value>)
      requires ConfigShaped(view)
      modifies this`body, this`bodyStyle
      ensures var s := SettingsOf(view);
              && header == s.header && columnTitles == s.titles && body == s.body
              && headerStyle == s.headerStyle && columnHeaderStyle == s.columnHeaderStyle && bodyStyle == s.bodyStyle
    {
      header := GetAttribute(view, "xlsx_header", EmptyDict);
      var columnHeader := GetAttribute(view, "xlsx_column_header", EmptyDict);
      body := GetAttribute(view, "xlsx_body", EmptyDict);

      headerStyle := StyleFromDict(Get(header, "style", NoneValue), "header_style");
      columnHeaderStyle := StyleFromDict(Get(columnHeader, "style", NoneValue), "column_header_style");
      bodyStyle := StyleFromDict(Get(body, "style", NoneValue), "body_style");
      columnTitles := TitlesOf(Get(columnHeader, "titles", List([])));
    }

    /**
     * The part of `render` that dresses the new sheet from the header section:
     * its image, its tab title and its banner row.
     */
    method MakeHeader(header: Value, headerStyle: Style)
      requires ws != null && header.Map?
      modifies ws
      ensures ws.title == Get(header, "tab_title", DefaultTitle)
      ensures ws.images == old(ws.images) + HeaderImages(header)
      ensures ws.rows == old(ws.rows) + BannerRows(header, headerStyle)
    {
      var imgAddr := Get(header, "img", NoneValue);
      if Truthy(imgAddr) {
        ws.AddImage(imgAddr, ImageAnchor);
      }
      ws.SetTitle(Get(header, "tab_title", DefaultTitle));
      var headerTitle := Get(header, "header_title", DefaultTitle);

      if Truthy(header) {
        ws.Append([Cell(headerTitle, headerStyle, None)]);
      }
    }

    /** `render(data, renderer_context={"view": view})`. */
    method Render(data: Value, view: View, enc: Encoders) returns (out: Output)
      requires Renderable(data, view)
      modifies this
      ensures out == RenderSpec(data, view, enc)
      ensures out.Workbook? ==> ws != null && fresh(ws) && ws.rows == out.doc.rows
      ensures out.Workbook? ==> ws != null && ws.title == out.doc.title && ws.images == out.doc.images
      ensures out.Workbook? ==> body == SettingsOf(view).body && bodyStyle == SettingsOf(view).bodyStyle
      ensures out.JsonText? ==> unchanged(this)
    {
      if !CheckValidationData(data) {
        return JsonText(enc.json(data));
      }
      var sheet := new Sheet();
      ws := sheet;
      var results := if data.Map? && HasKey(data, "results") then Get(data, "results", NoneValue) else data;
      assert results == ResultsOf(data);
      var header, headerStyle, columnHeaderStyle, columnTitles := ReadSettings(view);
      ghost var s := SettingsOf(view);

      MakeHeader(header, headerStyle);
      assert sheet.rows == BannerRows(s.header, s.headerStyle);

      if Len(results) > 0 {
        var columnHeaderRow := MakeColumnHeader(results, columnTitles, columnHeaderStyle, enc);
        sheet.Append(columnHeaderRow);
      }
      assert sheet.rows == BannerRows(s.header, s.headerStyle) + ColumnHeaderRows(results, s, enc);

      MakeBodyRows(results, enc);
      out := Workbook(Document(sheet.title, sheet.images, sheet.rows));
      assert out.doc == SheetDocument(results, s, enc);
    }
  }

  // ---------------------------------------------------------------------------
  // Properties of the sheet

  /** An error payload, one with `detail`, comes back as its JSON text; any other payload as a workbook. */
  lemma DetailGivesJson(data: Value, view: View, enc: Encoders)
    requires Renderable(data, view)
    ensures RenderSpec(data, view, enc).JsonText? <==> HasDetail(data)
    ensures HasDetail(data) ==> RenderSpec(data, view, enc) == JsonText(enc.json(data))
  {
  }

  /**
   * The rows of the sheet, in order: the banner row when the header section is
   * a non-empty dict, holding `header_title` (default "Report"); then the
   * column-header row when there are results; then one body row per record:
   * one per list element, one for a `ReturnDict`, none for a plain dict.
   */
  lemma SheetLayout(results: Value, s: Settings, enc: Encoders)
    requires ResultsShaped(results) && s.header.Map?
    ensures var rows := SheetDocument(results, s, enc).rows;
            var banner := if Truthy(s.header) then 1 else 0;
            var columns := if Len(results) > 0 then 1 else 0;
            && |rows| == banner + columns + BodyCount(results)
            && (banner == 1 ==> rows[0] == [Cell(Get(s.header, "header_title", DefaultTitle), s.headerStyle, None)])
            && (columns == 1 ==> rows[banner] == ColumnHeader(ColumnKeys(results, enc), s.titles, s.columnHeaderStyle))
            && (forall i :: 0 <= i < BodyCount(results) ==>
                  rows[banner + columns + i] == BodyRow(RecordAt(results, i), s.bodyStyle, enc))
  {
    var top := BannerRows(s.header, s.headerStyle) + ColumnHeaderRows(results, s, enc);
    var body := BodyRows(results, s.bodyStyle, enc);
    var rows := SheetDocument(results, s, enc).rows;
    assert rows == top + body;
    assert |top| == (if Truthy(s.header) then 1 else 0) + (if Len(results) > 0 then 1 else 0);
    forall i | 0 <= i < BodyCount(results)
      ensures rows[|top| + i] == BodyRow(RecordAt(results, i), s.bodyStyle, enc)
    {
      assert rows[|top| + i] == body[i];
    }
  }

  /**
   * With no results there is no column-header row; a plain dict or list then
   * gives no body row either, while an empty `ReturnDict` still appends one
   * row with no cells.
   */
  lemma EmptyResultsRows(results: Value, s: Settings, enc: Encoders)
    requires ResultsShaped(results) && s.header.Map?
    requires Len(results) == 0
    ensures SheetDocument(results, s, enc).rows ==
            BannerRows(s.header, s.headerStyle) + (if results.Map? && results.kind == ReturnDict then [[]] else [])
  {
    if results.Map? && results.kind == ReturnDict {
      assert FlatItems(results, 0, "", enc) == [];
      assert Flatten(results, "", enc) == [];
      assert BodyRow(results, s.bodyStyle, enc) == [];
      assert BodyRows(results, s.bodyStyle, enc) == [[]];
    } else {
      assert BodyRows(results, s.bodyStyle, enc) == [];
    }
  }

  /**
   * A body row has one cell per flattened key of its record other than
   * `row_color`, in flattening order, holding that key's value; every cell has
   * the body style, and a solid fill in the record's `row_color` exactly when
   * the record has that key at top level.
   */
  lemma BodyRowSpec(row: Value, style: Style, enc: Encoders)
    requires row.Map?
    ensures var flat := Flatten(row, "", enc);
            var keys := Shown(Keys(flat));
            var cells := BodyRow(row, style, enc);
            && |cells| == |keys|
            && RowColorKey !in keys
            && (forall i :: 0 <= i < |cells| ==> Some(cells[i].value) == LastValue(flat, keys[i]) && IsCell(cells[i].value))
            && (forall i :: 0 <= i < |cells| ==> cells[i].style == style)
            && (forall i :: 0 <= i < |cells| ==>
                  cells[i].fill == if HasKey(row, RowColorKey) then Some(Solid(Get(row, RowColorKey, NoneValue))) else None)
  {
    var flat := Flatten(row, "", enc);
    var shown := ShownItems(flat);
    FlattenSpec(row, "", enc);
    forall i | 0 <= i < |shown|
      ensures Some(shown[i].1) == LastValue(flat, Shown(Keys(flat))[i]) && IsCell(shown[i].1)
    {
      assert Keys(shown)[i] == shown[i].0;
      var j :| 0 <= j < |flat| && flat[j] == shown[i];
      LastValueDistinct(flat, shown[i].0);
    }
  }

  /**
   * For a list of records, the column headers come from the same keys, in the
   * same order, as the cells of the first body row.
   */
  lemma ListHeaderMatchesFirstRow(results: Value, enc: Encoders)
    requires ResultsShaped(results) && results.List? && |results.items| > 0
    ensures Shown(ColumnKeys(results, enc)) == Keys(ShownItems(Flatten(results.items[0], "", enc)))
  {
  }

  /**
   * For a single record, the column headers are its raw top-level keys while
   * its body row has a cell per flattened key: `{"a": {"b": 1}}` gets the
   * header "a" above the value of "a.b".
   */
  lemma SingleRecordHeaderUsesRawKeys(enc: Encoders)
    ensures var results := Map(ReturnDict, [("a", Map(PlainDict, [("b", Scalar(Int(1)))]))]);
            && ColumnKeys(results, enc) == ["a"]
            && Flatten(results, "", enc) == [("a.b", Scalar(Int(1)))]
  {
    var inner := Map(PlainDict, [("b", Scalar(Int(1)))]);
    var results := Map(ReturnDict, [("a", inner)]);
    OneMapField(ReturnDict, "a", inner, "", enc);
    OneField(PlainDict, "b", Scalar(Int(1)), "a", enc);
    assert ChildKey("", "a") == "a";
    assert ChildKey("a", "b") == "a.b";
    assert Keys(results.entries) == ["a"];
  }

  /**
   * A string of titles is indexed character by character: titles "AB" over the
   * keys x, y, z display "A", "B" and then the key "z".
   */
  lemma StringTitlesExample(style: Style)
    ensures var row := ColumnHeader(["x", "y", "z"], TitlesOf(Str("AB")), style);
            |row| == 3 && row[0].value == Str("A") && row[1].value == Str("B") && row[2].value == Str("z")
  {
    assert Shown(["x", "y", "z"]) == ["x", "y", "z"] by {
      assert ["x", "y", "z"][..2] == ["x", "y"];
      assert ["x", "y"][..1] == ["x"];
      assert ["x"][..0] == [];
    }
  }

  /** With no titles, an empty dict among them, every column displays its key. */
  lemma NoTitlesShowKeys(keys: seq<string>, titles: Value, style: Style)
    requires TitlesIndexable(titles) && !Truthy(titles)
    ensures var row := ColumnHeader(keys, TitlesOf(titles), style);
            |row| == |Shown(keys)| && forall i :: 0 <= i < |row| ==> row[i].value == Str(Shown(keys)[i])
  {
    assert TitlesOf(titles) == [];
  }

  /**
   * For a single record, header and body cell counts can differ:
   * `{"a": {}}` gets a header "a" above a body row with no cell.
   */
  lemma SingleRecordHeaderOverEmptyRow(style: Style, enc: Encoders)
    ensures var results := Map(ReturnDict, [("a", Map(PlainDict, []))]);
            && Shown(ColumnKeys(results, enc)) == ["a"]
            && BodyRow(results, style, enc) == []
  {
    var inner := Map(PlainDict, []);
    var results := Map(ReturnDict, [("a", inner)]);
    OneMapField(ReturnDict, "a", inner, "", enc);
    assert FlatItems(inner, 0, "a", enc) == [];
    assert Flatten(inner, "a", enc) == [];
    assert Keys(results.entries) == ["a"];
    assert Shown(["a"]) == Shown([]) + ["a"];
  }

  /**
   * The column-header row has one cell per column key other than `row_color`,
   * whatever the titles: surplus titles are ignored and missing ones are
   * filled in with the key itself.
   */
  lemma RowColorNeverAColumn(results: Value, titles: seq<Value>, style: Style, enc: Encoders)
    requires ResultsShaped(results) && Len(results) > 0
    ensures var keys := ColumnKeys(results, enc);
            var row := ColumnHeader(keys, titles, style);
            && |row| == |Shown(keys)|
            && (forall i :: 0 <= i < |row| ==> row[i].style == style && row[i].fill == None)
            && |row| == |keys| - Count(keys, RowColorKey)
  {
    ShownCount(ColumnKeys(results, enc));
  }

  /** How often `x` occurs in `s`. */
  function Count(s: seq<string>, x: string): nat
  {
    if s == [] then 0 else Count(s[..|s| - 1], x) + (if s[|s| - 1] == x then 1 else 0)
  }

  lemma {:induction false} ShownCount(keys: seq<string>)
    ensures |Shown(keys)| == |keys| - Count(keys, RowColorKey)
  {
    if keys != [] {
      ShownCount(keys[..|keys| - 1]);
    }
  }
}
