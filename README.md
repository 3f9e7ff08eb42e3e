# drf-renderer-xlsx in Dafny

A model of the XLSX renderer of `drf-renderer-xlsx`. The renderer is a
Django REST Framework renderer. It turns a response payload into a one-sheet
Excel workbook. The model covers:

- The payload: `Values.Value` is a Python value as the renderer inspects it.
  It can be a scalar, a string, a mapping (a plain `dict` or DRF's
  `ReturnDict`) or a list. A mapping is an association list in insertion
  order. `Dicts` gives Python's `dict(items)` as `Dicts.DictOf`: a key seen
  again keeps its first position and takes its last value.
- `_flatten` (`Flattening`): a nested record becomes an ordered dict from
  dotted keys to cells. It is written twice:
  - `Flattening.FlattenRecord` is the loop the source runs.
  - `Flattening.Flatten` is its specification.
  - A separate path-based reference definition (`Flattening.Leaves`) lists
    every leaf of the record with its key path. The flattened dict is proved
    to be `dict(Leaves)`.
- `get_attribute` (`Config`): reads an option off the view. The view is its
  attributes plus the results of its `get_<name>` getters.
- `get_style_from_dict` (`Styles`): turns a style dict into a named style.
  The openpyxl objects stay abstract: each is the options it is built from.
- `render`, `_check_validatation_data` and `_make_body` (`Renderer`):
  - The worksheet is a `Renderer.Sheet` object, with rows, images and a
    title, that the renderer appends to.
  - `Renderer.XlsxRenderer.Render` is proved to produce `Renderer.RenderSpec`:
    either the payload's JSON text, or a `Renderer.Document` with the sheet's
    title, images and rows.
  - The row layout is stated as lemmas: banner row, column-header row, then
    one body row per record.

`str(v)`, `json.dumps(v)` and `json.dumps(v, cls=DjangoJSONEncoder)` are
functions the model leaves uninterpreted. They are passed in as the fields of
`Values.Encoders`.

Two behaviours of the code are easy to miss; the model follows the code:

- When the results are a single mapping, the column headers are that
  mapping's raw top-level keys (`renderers.py:126-127`), but its body row is
  flattened. The header row has one cell per top-level key other than
  `row_color`. The body row has one cell per distinct flattened key other
  than `row_color`. So a nested field is headed by its top-level key ("a"
  above the value of "a.b", `Renderer.SingleRecordHeaderUsesRawKeys`), and
  the two rows need not have the same number of cells: `{"a": {}}` gets a
  header "a" above a row with no cell
  (`Renderer.SingleRecordHeaderOverEmptyRow`).
- A plain `dict` of results gets no body row. It gets a column-header row
  when it is non-empty. A `ReturnDict` gets exactly one body row, even when
  it is empty (`renderers.py:150-154`).

## Model

| member | source | states |
|---|---|---|
| Dicts.PutSpec | drf_renderer_xlsx/renderers.py:182 | Storing a key into a dict with distinct keys: keys stay distinct; the key order is the old keys plus the new key if it was absent; the stored key now reads the new value and every other key reads as before |
| Dicts.DictOfSpec | drf_renderer_xlsx/renderers.py:182 | `dict(items)` has distinct keys, in order of first occurrence among the items, and each key reads the value of its last occurrence |
| Values.Get | drf_renderer_xlsx/renderers.py:97-110 | `m.get(key, default)`: a present key yields the value last stored under that key in `m`, the only one when keys are distinct; an absent key yields the default |
| Flattening.FlattenRecord | drf_renderer_xlsx/renderers.py:166-182 | The field-by-field loop of `_flatten` returns exactly the specified flattening of the record |
| Flattening.FlattenIsDictOfLeaves | drf_renderer_xlsx/renderers.py:166-182 | Flattening a record equals `dict` of all its leaves, each under its dotted path key, independently of how the recursion accumulates items |
| Flattening.FlatItemsAreLeaves | drf_renderer_xlsx/renderers.py:168-181 | The items gathered from the first n fields, once put into a dict, are the dict of those fields' labelled leaves |
| Flattening.FieldItemsAreLeaves | drf_renderer_xlsx/renderers.py:169-181 | What one field contributes, once put into a dict, is the dict of that field's labelled leaves |
| Flattening.LeavesAreCells | drf_renderer_xlsx/renderers.py:172-181 | Every leaf value is a scalar or a string: mappings are descended into and lists become text |
| Flattening.FlattenSpec | drf_renderer_xlsx/renderers.py:166-182 | The flattened record has distinct keys, the dotted leaf keys in first-seen depth-first order; a repeated key reads its last leaf's value; every value is a scalar or a string |
| Flattening.OneField | drf_renderer_xlsx/renderers.py:169-181 | A one-field record whose value is not a mapping flattens to one entry under `parent.k`, or under `k` at top level |
| Flattening.ScalarFieldVerbatim | drf_renderer_xlsx/renderers.py:180-181 | Scalars and strings are stored unchanged (a string is not treated as a list) |
| Flattening.ListFieldJoined | drf_renderer_xlsx/renderers.py:176-179 | An empty list, or one whose first element is not iterable, becomes the ", "-join of `str` of its elements; the empty list becomes "" |
| Flattening.ListFieldAsJson | drf_renderer_xlsx/renderers.py:173-175 | A non-empty list whose first element is iterable becomes its DjangoJSONEncoder JSON text |
| Flattening.OneMapField | drf_renderer_xlsx/renderers.py:170-171 | A nested mapping is flattened under the field's dotted key |
| Flattening.NestedPathExample | drf_renderer_xlsx/renderers.py:169-171 | `{"a": {"b": {"c": 1}}}` flattens to `{"a.b.c": 1}` |
| Flattening.NumberListExample | drf_renderer_xlsx/renderers.py:179 | `{"tags": [1, 2, 3]}` flattens to `{"tags": "1, 2, 3"}` when `str` prints numbers as digits |
| Flattening.StringListExample | drf_renderer_xlsx/renderers.py:172-175 | A list of strings is written as JSON, not comma-joined, because a string is iterable |
| Flattening.CollisionExample | drf_renderer_xlsx/renderers.py:182 | `{"a.b": 1, "a": {"b": 2}}` flattens to `{"a.b": 2}`: the later leaf overwrites the earlier one in place |
| Config.GetAttribute | drf_renderer_xlsx/renderers.py:52-67 | A truthy attribute wins. Otherwise an existing getter's result is used. A `None` that remains becomes the default, and a falsy non-`None` attribute with no getter is returned as it is. The result is `None` only if the default is |
| Styles.StyleFromDict | drf_renderer_xlsx/renderers.py:35-49 | The key-by-key loop builds exactly the style the dict describes (the last option under each key wins) |
| Styles.EmptyStyleIsDefault | drf_renderer_xlsx/renderers.py:35-37 | A falsy style dict gives the plain named style |
| Styles.BorderSidesAgree | drf_renderer_xlsx/renderers.py:45-47 | The style has a border exactly when `border_side` is given; then all four sides are that side |
| Styles.UnknownKeyIgnored | drf_renderer_xlsx/renderers.py:38-47 | An option under a key other than font, fill, alignment or border_side, wherever it stands, does not change the style |
| Renderer.StringTitlesExample | drf_renderer_xlsx/renderers.py:136-139 | A string of titles is indexed by character: titles "AB" over the keys x, y, z display "A", "B" and then "z" |
| Renderer.NoTitlesShowKeys | drf_renderer_xlsx/renderers.py:136-137 | With no titles (an empty list, an empty string or an empty dict) every column displays its own key |
| Renderer.Shown | drf_renderer_xlsx/renderers.py:133-134 | The keys that get a column are exactly the keys other than `row_color`, and there are no more of them than keys |
| Renderer.ShownItems | drf_renderer_xlsx/renderers.py:199-201 | The entries that get a cell are entries of the flattened row whose keys are exactly the shown keys, in order |
| Renderer.MakeColumnHeader | drf_renderer_xlsx/renderers.py:125-146 | The counting loop builds one header cell per shown key. The i-th such cell displays the i-th title when there is one and the key itself otherwise |
| Renderer.MakeCells | drf_renderer_xlsx/renderers.py:198-207 | The loop of `_make_body` builds one cell per shown entry of the flattened row, in order, each holding that entry's value with the given style and fill |
| Renderer.XlsxRenderer.MakeBody | drf_renderer_xlsx/renderers.py:189-209 | `_make_body` appends exactly the record's body row to the sheet and changes nothing else on it |
| Renderer.XlsxRenderer.MakeBodyRows | drf_renderer_xlsx/renderers.py:150-154 | The sheet gains one body row per list element, one for a `ReturnDict` and none for a plain dict, in order |
| Renderer.XlsxRenderer.ReadSettings | drf_renderer_xlsx/renderers.py:94-102 | The three sections are read through `get_attribute` with `{}` as default, and their styles are built from their `style` options. The body section and its style are kept on the renderer. It also reads the column titles from `titles` (default `[]`, line 122) |
| Renderer.XlsxRenderer.MakeHeader | drf_renderer_xlsx/renderers.py:104-118 | The sheet gets the header's `img` anchored at A1 when that option is truthy, the tab title `tab_title` (default "Report"), and the banner row when the header section is non-empty |
| Renderer.XlsxRenderer.Render | drf_renderer_xlsx/renderers.py:78-156 | `render` returns the specified output: the JSON text of an error payload, leaving the renderer unchanged, or a workbook whose title, image and rows are as specified. In the second case the renderer's new sheet has exactly that title, those images and those rows, and the renderer keeps the view's body section and body style |
| Renderer.DetailGivesJson | drf_renderer_xlsx/renderers.py:82-83 | The output is JSON text exactly when the payload has `detail`, and it is then `json.dumps(data)` |
| Renderer.SheetLayout | drf_renderer_xlsx/renderers.py:112-154 | The rows are: a banner row with `header_title` (default "Report") when the header section is non-empty; a column-header row when there are results; then the body row of each record, in order |
| Renderer.EmptyResultsRows | drf_renderer_xlsx/renderers.py:125-154 | With empty results there is no column-header row; a list or plain dict adds no body row, while an empty `ReturnDict` adds one empty row |
| Renderer.BodyRowSpec | drf_renderer_xlsx/renderers.py:189-209 | A body row has one cell per flattened key other than `row_color`, holding that key's value, a scalar or a string. Every cell has the body style. Every cell has a solid fill in the record's `row_color` exactly when the record has that key at top level |
| Renderer.ListHeaderMatchesFirstRow | drf_renderer_xlsx/renderers.py:128-129 | For list results the column keys are the shown flattened keys of the first record, the same keys, in the same order, as its body row's cells |
| Renderer.SingleRecordHeaderUsesRawKeys | drf_renderer_xlsx/renderers.py:126-127 | For a single mapping the column keys are its raw top-level keys: `{"a": {"b": 1}}` heads its column "a" while its cell is flattened under "a.b" |
| Renderer.SingleRecordHeaderOverEmptyRow | drf_renderer_xlsx/renderers.py:125-151 | A single `ReturnDict` `{"a": {}}` gets the header "a" above a body row with no cell |
| Renderer.RowColorNeverAColumn | drf_renderer_xlsx/renderers.py:131-146 | Whatever the titles, the column-header row has one cell per column key minus the occurrences of `row_color`; every cell has the column-header style and no fill |

## Left out

- Workbook internals: openpyxl's write-only workbook, its cells and
  `save_virtual_workbook` are not modelled. The workbook is the value
  `Renderer.Document`: a title, the images with their anchors, and the rows
  of cells.
- Images: an image is its address and its anchor "A1". Loading the file is
  I/O and is not modelled.
- `str`, `json.dumps` and the DjangoJSONEncoder are uninterpreted functions,
  passed in through `Values.Encoders`. The exact text they produce is not
  modelled.
- `Font`, `PatternFill`, `Alignment` and `Side` are the keyword options they
  are built from. openpyxl's checking of those options, and the errors it
  raises on bad ones, are not modelled.
- The `data is None` branch (`renderers.py:85-86`) is unreachable: the
  `"detail" in data` test on line 161 raises on `None` first. The model
  requires the payload to be a mapping or a list. String and other payloads
  are not modelled.
- The following inputs are excluded by the requirements of `Render`, not
  modelled (all but the empty string make the source raise):
  - results are neither a mapping nor a list: `None` or a number raises a
    `TypeError` at line 125 and a non-empty string a `NameError` at line 132.
    An empty string renders without error, with no column-header or body
    row;
  - list results hold non-mappings (`_flatten` raises on them);
  - a configuration section is not a dict;
  - a `style` option is truthy but not a dict.
- Column titles: the model takes `titles` as a list, a string (indexed
  character by character) or an empty dict (no title). It requires one of
  these only when there are results. It does not model another kind of
  `titles` value (`None`, a number, a non-empty dict) with non-empty results
  whose header shows no column. The source never reads `titles` then.
- Config.GetAttribute: a getter is represented by the value calling it
  returns. A truthy `get_<name>` attribute that is not callable, and a getter
  with side effects, are not modelled.
- Truthiness of floats, `Decimal`s and other objects: they are
  `Values.Atom.Other` and always count as true, which is correct for every
  value except zero-valued numbers of those types.
- Mapping keys are strings. Non-string keys are not modelled: `_flatten`
  keeps a top-level key as it is, and the header of a single mapping shows
  it raw, while a nested key is formatted into its dotted key
  (`renderers.py:169`).
- Flattening.Flatten: the `key_sep` and `list_sep` parameters of `_flatten`
  are fixed to their defaults "." and ", ", as every call in the renderer
  uses them.
- The DRF plumbing (the media type, `format`, `accepted_media_type`, and
  every part of `renderer_context` other than the view) is not modelled.
