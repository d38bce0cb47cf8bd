# PLM plugin for FreeCAD — verified model of its client logic

The plugin lets a FreeCAD user search a remote part catalog over HTTP and browse the results as a tree. Clicking an item's Load button fetches that part and opens its geometry file. Between the Qt forms and the blocking HTTP calls there are three pieces of deterministic logic, and this project models them in Dafny:

- **URL building and reply classification** (`ApiClient`). `_build_url` substitutes `{key}` placeholders one after another, or appends an unescaped `key=value&…` query string. A request's outcome is reduced to the response text or an in-band `{"error": …}` value: a status, reason and body, or an exception message.
- **Defensive record parsing** (`Models`). `BasicObject.__init__` turns a decoded JSON dict into a record, using per-field defaults and explicit null handling. `from_response` unwraps the four response shapes into a list, a single record or None.
- **Hierarchy rendering** (`TreeView`, `Widgets`, `Dialog`). The tree is cleared, then grown in place. In search mode every object is a root; in browse mode only the parentless ones are. Each item's children are resolved through an id lookup, and unresolved ids are skipped. `TreeView` specifies the drawn forest as pure functions and draws it with a class whose methods append rows. `Widgets` feeds it parsed records. `Dialog` feeds it raw dicts and adds the Search, Find All and Load handlers.

JSON values are a datatype (`Json.Json`): numbers are opaque, and objects are ordered lists of key/value pairs. Python's `dict.get`, `in`, truthiness, iteration and hashability are written out over it. The HTTP transport is a function parameter `Request -> Outcome` and `json.loads` is a parameter `string -> Result<Json, string>`. A message box is a `Notice` value, and opening a file in FreeCAD is a value the load handler returns.

Python's recursion in `_add_object_to_tree` has no visited set. The drawing methods therefore take a ghost rank on the ids the lookup holds. A root must only be expandable: its children are hashable and the resolved ones are ranked (`TreeView.Expandable`). Below a root, the rank strictly decreases along every resolved child edge (`TreeView.Ranked`). This is the acyclicity the code needs to terminate; without it, Python raises RecursionError. A root needs no rank of its own, so a root that a later object with the same id shadows in the lookup is still drawn (`TreeView.ShadowedRootIsDrawn`).

Two behaviours of the code worth noting:
- A record can carry both a file path and a BREP string. Nothing enforces "at most one geometry".
- In search mode an object that is also another result's child is drawn twice: once at top level and once nested (`TreeView.SearchDrawsChildrenTwice`).

## Model

| member | source | states |
|---|---|---|
| Json.GetOn | PLMplugin/my_dialog.py:151 | `x.get(k, d)` raises AttributeError exactly when `x` is not a dict, and the error names that receiver |
| Json.Iterate | PLMplugin/widgets.py:52 | a `for` loop over a value fails exactly on None, booleans and numbers; over a list it visits the items; it visits nothing exactly when the value is falsy |
| ApiClient.ReplaceReplacesEveryOccurrence | PLMplugin/api_client.py:83 | `str.replace` cuts the string at every occurrence of the pattern: the pieces hold no occurrence, rejoined with the pattern they give back the input, and the result is their join with the replacement |
| ApiClient.ReplaceWithoutOccurrence | PLMplugin/api_client.py:83 | a string without the pattern comes back unchanged |
| ApiClient.ReplaceAll | PLMplugin/api_client.py:83 | a string shorter than the pattern, or a replacement equal to the pattern, leaves the string unchanged |
| ApiClient.BuildUrl | PLMplugin/api_client.py:79-88 | the URL the substitution loop leaves is the path substitution when path params are given, otherwise template + "?" + query string when query params are given, otherwise the template |
| ApiClient.UrlFor | PLMplugin/api_client.py:79-88 | with path params the URL is their substitution into the template; otherwise, with query params, it is the template, then `?`, then the query string; with neither it is the template |
| ApiClient.SubstitutionInOrder | PLMplugin/api_client.py:81-83 | the substitutions apply to the running URL in insertion order: the first items, then the rest |
| ApiClient.SubstitutionSeesEarlierValues | PLMplugin/api_client.py:81-83 | a value holding a later key's placeholder is substituted again; the same items in the other order leave it in the URL |
| ApiClient.UnmatchedPlaceholdersStay | PLMplugin/api_client.py:81-83 | if no key's placeholder occurs in the URL, substitution leaves it unchanged |
| ApiClient.UnmatchedPlaceholderSurvives | PLMplugin/api_client.py:81-83 | a `{z}` placeholder whose key is not among the (brace-free) path parameters is still in the URL after all the others are substituted |
| ApiClient.UnmatchedPlaceholderExample | PLMplugin/api_client.py:81-83 | `/a/{x}/{z}` with only `x = 1` becomes `/a/1/{z}` |
| ApiClient.TemplateWithoutBracesUnchanged | PLMplugin/api_client.py:81-83 | a template without `{` is unchanged by any path parameters |
| ApiClient.QueryStringSplitsIntoPairs | PLMplugin/api_client.py:84-85 | splitting the query string on `&` gives back the `key=value` pairs in insertion order when no key or value holds `&` |
| ApiClient.QueryValuesAreNotEscaped | PLMplugin/api_client.py:84-85 | values are not percent-encoded: `{"a": "1&b=2"}` and `{"a": "1", "b": "2"}` give the same URL |
| ApiClient.HttpErrorNamesStatus | PLMplugin/api_client.py:70 | the "HTTP <status>: <reason>" message carries the status's three digits, which read back as the status |
| ApiClient.Classify | PLMplugin/api_client.py:32-41 | the reply is the body text exactly when the status is accepted and the body decodes; a rejected status gives "HTTP <status>: <reason>"; an exception or a decode error gives its message |
| ApiClient.GetIsStricterThanWithBody | PLMplugin/api_client.py:63-70 | GET and the body-carrying requests classify every outcome alike except a 201 response, which GET turns into an HTTP error |
| ApiClient.SendGetRequest | PLMplugin/api_client.py:52-77 | the reply is the GET classification of the transport's outcome for exactly one GET of the built URL, with no payload |
| ApiClient.SendRequestWithBody | PLMplugin/api_client.py:9-44 | the reply is the response's own text exactly when the status is 200 or 201 and the body decodes; any other status gives "HTTP <status>: <reason>", an exception or a decode error its message |
| ApiClient.PostAndPatchDifferOnlyInVerb | PLMplugin/api_client.py:46-50 | POST and PATCH send the url and payload unchanged under their own verb; given the same answer, they return the same reply |
| Models.ParseCoordinates | PLMplugin/models.py:9-20 | the placement parses exactly when `coordinates` and its `axis` are dicts |
| Models.PlacementKeysCopiedOrZero | PLMplugin/models.py:9-20 | each of x, y, z, angle and axis.x/y/z is the input's value when its key is present, null included, and 0.0 when absent |
| Models.FromDict | PLMplugin/models.py:2-33 | a record is built only from a dict |
| Models.AbsentKeysDefault | PLMplugin/models.py:3-33 | absent keys default: id None, name 'N/A', children and parents [], every coordinate 0.0, no geometry |
| Models.PresentKeysCopied | PLMplugin/models.py:3-6 | a present id, name, children or parents is copied unchanged, null included |
| Models.ParseFailsOnlyOnNonDicts | PLMplugin/models.py:2-33 | parsing raises exactly when `.get` meets a non-dict: the input, `coordinates`, `axis`, a non-null `bounding_contour`, or a non-null `brep_files` |
| Models.GeometryFields | PLMplugin/models.py:21-33 | a null `bounding_contour` or `brep_files` clears both geometry fields; otherwise path and brep string are read independently |
| Models.CoordinatesRoundTrip | PLMplugin/models.py:9-20 | parsing the full representation of a placement gives it back |
| Models.GeometryRoundTrip | PLMplugin/models.py:27-33 | parsing `{"brep_files": {"path": p, "brep_string": b}}` gives (p, b), both set at once |
| Models.ParseAfterRepresentIsIdentity | PLMplugin/models.py:2-33 | parsing a record's full representation gives the record back |
| Models.FromEach | PLMplugin/models.py:38 | the comprehension succeeds exactly when every item is a record, giving them in order; otherwise it fails with the first failing item's error |
| Models.ListResponseIsElementwise | PLMplugin/models.py:37-38 | a list response gives a list of the same length, element by element in order |
| Models.WrapperKeyPrecedence | PLMplugin/models.py:39-43 | 'basic_object' is checked first and yields one record, never a list; otherwise 'basic_objects' yields the list of its items |
| Models.BareResponses | PLMplugin/models.py:44-46 | a dict with neither key is one record; anything neither list nor dict gives None |
| Models.ShapesCarrySameRecord | PLMplugin/models.py:36-46 | a one-element list, `{"basic_objects": [d]}`, `{"basic_object": d}` and `d` carry the same record; the first two as a list, the last two as a single object |
| Models.FromResponse | PLMplugin/models.py:35-46 | None exactly when the response is neither list nor dict; a list gives the list of its items' records; a dict with 'basic_object' gives that one record; a dict with only 'basic_objects' gives a list; a dict with neither is one record |
| TreeView.Index | PLMplugin/widgets.py:26 | the id lookup files each object under its own id |
| TreeView.IndexKeepsLast | PLMplugin/widgets.py:26 | with duplicate ids the lookup holds the last object with that id |
| TreeView.IndexValuesAreEntries | PLMplugin/widgets.py:26 | every object the lookup holds is one of the inputs |
| TreeView.Resolved | PLMplugin/widgets.py:52-55 | the resolved children are exactly the listed child ids that the lookup holds |
| TreeView.SubtreesFollowResolved | PLMplugin/widgets.py:52-55 | an item's children are the subtrees of its resolved child ids, in the listed order; other ids are skipped |
| TreeView.RootsAreParentless | PLMplugin/widgets.py:28-34 | the top-level objects are all objects in search mode, and exactly those with falsy parents otherwise |
| TreeView.Forest | PLMplugin/widgets.py:28-34 | one subtree per root, in root order |
| TreeView.TopLevelRowsAreRoots | PLMplugin/widgets.py:44-47 | the items added at top level are the forest's root items, in order |
| TreeView.NestedRowsHaveParents | PLMplugin/widgets.py:44-47 | every nested item is added under a parent item |
| TreeView.RowsParentsPrecede | PLMplugin/widgets.py:44-47 | every item's parent was added before it |
| TreeView.TopLevelItemsAreRoots | PLMplugin/widgets.py:28-34 | the widget's top-level items are the roots' items in input order |
| TreeView.RenderedRowsCarryLabels | PLMplugin/widgets.py:36-55 | every drawn item is the item of one of the input objects |
| TreeView.SearchDrawsChildrenTwice | PLMplugin/widgets.py:28-55 | with no visited set, a search result that is another's child is drawn twice: at top level and nested; browse mode draws it once |
| TreeView.ShadowedRootIsDrawn | PLMplugin/widgets.py:26-55 | `[{"id":"1","children":["1"]}, {"id":"1","children":[]}]` in search mode is drawable and draws the first object with the second nested under it, then the second at top level |
| TreeView.TreeWidget.Clear | PLMplugin/widgets.py:25 | all previous items are discarded |
| TreeView.TreeWidget.AddTopLevelItem | PLMplugin/widgets.py:44-45 | appends one top-level item and returns its index; every item's parent still precedes it |
| TreeView.TreeWidget.AddChild | PLMplugin/widgets.py:46-47 | appends one item under an existing item; every item's parent still precedes it |
| TreeView.TreeWidget.AddObjectToTree | PLMplugin/widgets.py:36-55 | the recursion appends exactly the object's subtree, flattened in the order Qt receives the items |
| TreeView.TreeWidget.DisplayHierarchy | PLMplugin/widgets.py:24-34 | after drawing, the widget holds exactly the flattened forest of the roots, and every parent precedes its children |
| Widgets.BrowseRootsAreParentlessRecords | PLMplugin/widgets.py:31-34 | in browse mode the roots are the entries of exactly the records with falsy `parents`, in input order |
| Widgets.EntryOf | PLMplugin/widgets.py:33-55 | a record is filed under its id, its item shows its name and id, its button loads its id exactly when a callback is given, it is a root exactly when `parents` is falsy, and its children are the items of a list and not iterable exactly on None, booleans and numbers |
| Widgets.TopLevelRecords | PLMplugin/widgets.py:28-34 | the top-level items are every record's item in search mode, and the parentless records' items otherwise, in input order |
| Widgets.LoadButtonsCarryOwnId | PLMplugin/widgets.py:49-66 | every drawn item's Load button loads that item's own id when a callback is given, and is unconnected otherwise |
| Widgets.NonIterableChildrenBlockDrawing | PLMplugin/widgets.py:52 | a drawn record whose `children` is not iterable cannot be drawn |
| Widgets.ObjectTreeWidget.constructor | PLMplugin/widgets.py:4-6 | a new widget has no items |
| Widgets.ObjectTreeWidget.DisplayHierarchicalResults | PLMplugin/widgets.py:24-34 | the widget shows the forest drawn from the records' entries, replacing its old contents |
| Dialog.SendGetRequest | PLMplugin/my_dialog.py:6-38 | the dialog's GET helper gives the GET classification of one request to the URL the three-way rule builds |
| Dialog.RawEntry | PLMplugin/my_dialog.py:91-131 | a dict is filed under `obj['id']`; its item shows name, or 'N/A' when missing, and the id; its button carries the id; it is a root exactly when `parents` is missing or falsy; it has no children when `children` is missing |
| Dialog.SingleObjectIsOneTopLevelItem | PLMplugin/my_dialog.py:86-88 | a value that is not a list is drawn as one top-level item, whatever mode was asked for |
| Dialog.TopLevelDicts | PLMplugin/my_dialog.py:93-101 | the top-level items are every dict in search mode, and the dicts with missing or falsy parents otherwise, in order |
| Dialog.LoadButtonsCarryOwnId | PLMplugin/my_dialog.py:121-125 | every Load button in the dialog's tree carries the id its item shows |
| Dialog.DialogReadsDictsAsWidgetReadsRecords | PLMplugin/my_dialog.py:103-135 | the dialog reads a dict exactly as the tree widget reads the record parsed from it |
| Dialog.SearchPart | PLMplugin/my_dialog.py:165-203 | an empty text sends no request and warns; otherwise one GET `/api/basic_object?name=<text>` is sent and: an undecodable reply shows "An error occurred: …" and clears the tree; a dict with 'error' shows that value and keeps the tree; otherwise a truthy unwrapped result ('basic_object' before 'basic_objects') is drawn in search mode, and a falsy one shows "No objects found with this name!" and clears the tree |
| Dialog.FindAllParts | PLMplugin/my_dialog.py:205-236 | one GET `/api/basic_objects` is sent and: an undecodable reply shows "An error occurred: …" and clears the tree; a dict with 'error' shows that value and keeps the tree; otherwise a truthy unwrapped result ('basic_objects' before 'basic_object') is drawn in browse mode, and a falsy one shows "No objects found!" and clears the tree |
| Dialog.UnwrapSearch | PLMplugin/my_dialog.py:182-191 | a list is kept, a dict gives its 'basic_object' value if present, else its 'basic_objects' value, else a one-element list of itself; anything else gives a falsy value |
| Dialog.UnwrapFindAll | PLMplugin/my_dialog.py:214-223 | the same unwrapping with 'basic_objects' checked first; it differs from the search unwrapping only on a dict holding both keys |
| Dialog.UnwrapPrecedenceDiffers | PLMplugin/my_dialog.py:182-191 | for a dict with both keys, Search draws 'basic_object' and Find All draws 'basic_objects' (lines 214-223) |
| Dialog.BareDictIsOneResult | PLMplugin/my_dialog.py:182-193 | a dict with neither key is one result for both handlers; a value neither list nor dict is no result |
| Dialog.ErrorReplyDecodes | PLMplugin/my_dialog.py:31-35 | an error reply decodes to a dict whose 'error' is the message |
| Dialog.SearchReportsHttpError | PLMplugin/my_dialog.py:173-180 | a non-200 answer to a search shows "HTTP <status>: <reason>" and leaves the tree as it was |
| Dialog.FindAllReportsException | PLMplugin/my_dialog.py:207-212 | an exception during Find All shows its message and leaves the tree as it was |
| Dialog.EmptyResultClears | PLMplugin/my_dialog.py:193-198 | a 200 reply whose unwrapped result is falsy (empty list, a wrapper holding an empty list, null, a string, None) shows "No objects found with this name!" in Search and "No objects found!" in Find All (lines 225-231), and clears the tree |
| Dialog.EmptyWrappersClear | PLMplugin/my_dialog.py:182-198 | `{"basic_objects": []}` and `[]` unwrap to a falsy result in both handlers; with a non-empty 'basic_object' beside it, Search draws that object while Find All finds nothing (lines 214-231) |
| Dialog.FilePath | PLMplugin/my_dialog.py:151 | the chained `.get` gives `brep_files.path` (None when absent) when the value, its `bounding_contour` and its `brep_files` are dicts ({} when absent), and otherwise fails on the first non-dict |
| Dialog.LoadObject | PLMplugin/my_dialog.py:144-163 | the request is a GET of "/api/basic_object/" + id; a file is opened exactly when the reply decodes and the path read via bounding_contour.brep_files.path is truthy, that path is reported as found; a decode error or a non-dict step shows "An error occurred while loading the object: …", a falsy path "Object found, but no file path available!" |
| Dialog.FilePathAgreesWithRecord | PLMplugin/my_dialog.py:151 | where bounding_contour and brep_files are dicts, the handler reads the same path as the record parser (PLMplugin/models.py:32); a null bounding_contour, which the parser accepts, makes the handler fail |
| Dialog.LoadOpensRecordPath | PLMplugin/my_dialog.py:144-157 | a 200 reply carrying a record's representation opens that record's file path when it is set |
| Dialog.ObjectUrl | PLMplugin/my_dialog.py:10-13 | substituting the id into "/api/basic_object/{id}" gives "/api/basic_object/" + id, unescaped |
| Dialog.LoadRequestsObjectPath | PLMplugin/my_dialog.py:146-147 | the Load request is a GET of "/api/basic_object/" + id |
| Dialog.HandleLoadButton | PLMplugin/my_dialog.py:137-142 | an empty `part_id` loads nothing; any other one is exactly `load_object` of that id, which requests `/api/basic_object/<id>` |
| Dialog.LoadClickReportsErrorAsMissingPath | PLMplugin/my_dialog.py:137-163 | a Load click whose request fails shows "Object found, but no file path available!" and opens nothing |
| Dialog.HandleLoadButtonChecked | PLMplugin/my_dialog.py:137-163 | the Load click wired to the corrected handler: an empty id loads nothing, and an exception is reported with its own message with nothing opened |
| Dialog.LoadReportsErrorAsMissingPath | PLMplugin/my_dialog.py:148-161 | for every error reply (an exception, a non-200 status, an undecodable body) the load handler reports "Object found, but no file path available!" and opens nothing |
| Dialog.LoadObjectCheckingError | PLMplugin/my_dialog.py:144-163 | the corrected handler opens a file exactly when it reports one |
| Dialog.CheckedLoadReportsErrors | PLMplugin/my_dialog.py:144-163 | with the 'error' check, an exception or HTTP error is reported with its own message and nothing is opened; a response without 'error' is handled as before |
| Dialog.MyDialog.DisplayHierarchicalResults | PLMplugin/my_dialog.py:82-101 | the results tree shows exactly the forest drawn from the dicts, a non-list value as a one-object search result |
| Dialog.MyDialog.Apply | PLMplugin/my_dialog.py:193-203 | a handler's tree action leaves the tree unchanged, cleared, or showing the drawn result |
| Dialog.MyDialog.SearchPartClicked | PLMplugin/my_dialog.py:165-203 | the Search button shows the handler's notice and leaves the tree as its action says |
| Dialog.MyDialog.FindAllPartsClicked | PLMplugin/my_dialog.py:205-236 | the Find All button shows the handler's notice and leaves the tree as its action says |

## Left out

- The HTTP transport (`HTTPConnection`, host and port, `request`, `getresponse`, `close`) is the function parameter `transport`. Logging with `print` is not modelled.
- `json.loads` is the parameter `parse`, whose Failure is the exception's message. `json.dumps` of `{"error": m}` is taken to load back as that dict. JSON text is not modelled.
- `str()` of names and ids: items keep the JSON values themselves. Python's text for floats, lists and dicts is not modelled.
- Python key equality: the id lookup compares JSON values structurally. `1`, `1.0` and `True` are one dict key in Python but three here.
- A JSON object with a repeated key: `json.loads` keeps the last value. The model reads the first binding, so such input is modelled with the key listed once.
- Dialog.MyDialog.SearchPartClicked: requires a drawable result. The source catches the exception of an undrawable one (a dict without 'id', an unhashable id, non-iterable children, a cycle), reports it and clears the tree. Partly drawn items and that path are not modelled.
- Dialog.MyDialog.FindAllPartsClicked: requires a drawable result, for the same reason.
- TreeView.TreeWidget.DisplayHierarchy: requires a drawable input: hashable ids and no cycle of resolved child edges reachable from a root. Python's own recursion limit, which can stop even an acyclic but very deep tree, is not modelled.
- Qt: layouts, headers, column widths, `show()`, the `sender()` type check and signal wiring. Message boxes are `Notice` values, and `part_id` is the string the button's property holds.
- FreeCAD: `FreeCAD.open` and its failure message. The load handler returns the path it would open.
- PLMplugin/main_window.py, PLMplugin/cad_utils.py, the InitGui files, newPlugin/ and macros/ are not part of this model.
- Coordinate numbers are opaque values with no arithmetic. Python truthiness of a number is decided on its text ("0", "0.0", "-0.0" are false).
- Network I/O, concurrency and floating point are absent from the modelled code paths.

## Findings

| source | as written | input that shows it | evidently intended | confidence | as-written member | corrected member |
|---|---|---|---|---|---|---|
| PLMplugin/my_dialog.py:148-161 | `load_object` reads the file path from whatever the helper returned, without the 'error' check that `search_part` and `find_all_parts` make | a Load click while the server is unreachable, so the transport raises; the same holds for a 404 reply | report the error value, as the sibling handlers do, instead of "Object found, but no file path available!" | medium; not executed | Dialog.LoadReportsErrorAsMissingPath | Dialog.LoadObjectCheckingError |

`Dialog.HandleLoadButton` keeps the code as written; `Dialog.HandleLoadButtonChecked` wires the Load click to the corrected handler. `Dialog.CheckedLoadReportsErrors` proves that it reports exceptions and HTTP errors with their own message, and otherwise behaves as `load_object`.
