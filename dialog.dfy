/** The dialog the workbench opens: its own GET helper, a tree drawn straight
    from decoded JSON dicts, and the Search, Find All and Load handlers. A
    handler's effect is a value — the request it sent, the message box it
    showed, what it did to the tree — computed from the typed text, the
    transport and the JSON decoder; `MyDialog` applies the tree part. */
module Dialog {
  import opened Wrappers
  import opened Json
  import opened ApiClient
  import opened TreeView
  import opened Models
  import Widgets

  // ---------------------------------------------------------------------
  // send_get_request (module level)
  // ---------------------------------------------------------------------

  /** The text the dialog's GET helper returns for a request built from a
      template and parameters: the body on 200, an error value otherwise. */
  function GetReply(transport: Request -> Outcome, template: string, pathParams: Params, queryParams: Params): Reply
  {
    ClassifyGet(transport(Request("GET", UrlFor(template, pathParams, queryParams), None)))
  }

  /** `send_get_request`, with the URL built by its own loop over the path
      parameters, and the host fixed by the transport. */
  method SendGetRequest(transport: Request -> Outcome, template: string, pathParams: Params, queryParams: Params)
    returns (reply: Reply)
    ensures reply == GetReply(transport, template, pathParams, queryParams)
  {
    var fullUrl: string;
    if pathParams != [] {
      fullUrl := template;
      var i := 0;
      while i < |pathParams|
        invariant 0 <= i <= |pathParams|
        invariant SubstituteAll(fullUrl, pathParams[i..]) == SubstituteAll(template, pathParams)
      {
        var (key, value) := pathParams[i];
        assert pathParams[i..][1..] == pathParams[i + 1..];
        fullUrl := ReplaceAll(fullUrl, Placeholder(key), value);
        i := i + 1;
      }
    } else if queryParams != [] {
      fullUrl := template + "?" + QueryString(queryParams);
    } else {
      fullUrl := template;
    }
    var outcome := transport(Request("GET", fullUrl, None));
    reply := ClassifyGet(outcome);
  }

  /** `json.loads` of the helper's reply. An error reply is the dump of
      `{"error": message}`, which loads back as that dict; a body is handed
      to the decoder, whose Failure is `str()` of the exception it raises. */
  function Decoded(reply: Reply, parse: string -> Result<Json, string>): Result<Json, string>
  {
    match reply
    case ErrorReply(m) => Success(Obj([("error", Str(m))]))
    case BodyText(t) => parse(t)
  }

  // ---------------------------------------------------------------------
  // display_hierarchical_results over raw dicts
  // ---------------------------------------------------------------------

  /** `obj['id']` succeeds: the value is a dict holding an 'id' key. */
  predicate IsRecord(o: Json)
  {
    o.Obj? && Has(o.fields, "id")
  }

  predicate Records(objects: seq<Json>)
  {
    forall i :: 0 <= i < |objects| ==> IsRecord(objects[i])
  }

  /** A value that is not a list is drawn as a one-element list. */
  function Listed(objects: Json): seq<Json>
  {
    if objects.Arr? then objects.items else [objects]
  }

  /** A value that is not a list is always drawn as a search result. */
  function SearchMode(objects: Json, isSearchResult: bool): bool
  {
    if objects.Arr? then isSearchResult else true
  }

  /** What the dialog's renderer reads of a dict: it is filed under
      `obj['id']`; its item shows `name` and `id` with 'N/A' for a missing
      one; its Load button carries `obj.get('id')`; its children are what
      iterating `obj.get('children', [])` visits; it is a root when `parents`
      is missing or falsy. */
  function RawEntry(o: Json): (e: Entry)
    requires IsRecord(o)
    ensures e.key == At(o.fields, "id") && e.item.id == e.key && e.item.button == LoadsId(e.key)
    ensures Has(o.fields, "name") ==> e.item.name == At(o.fields, "name")
    ensures !Has(o.fields, "name") ==> e.item.name == Str("N/A")
    ensures e.isRoot <==> !Has(o.fields, "parents") || !Truthy(At(o.fields, "parents"))
    ensures Has(o.fields, "children") ==> e.children == Iterate(At(o.fields, "children"))
    ensures !Has(o.fields, "children") ==> e.children == Some([])
  {
    var f := o.fields;
    Entry(At(f, "id"),
          Label(Get(f, "name", Str("N/A")), Get(f, "id", Str("N/A")), LoadsId(Get(f, "id", Null))),
          Iterate(Get(f, "children", Arr([]))),
          !Truthy(Get(f, "parents", Arr([]))))
  }

  function RawEntries(objects: seq<Json>): (es: seq<Entry>)
    requires Records(objects)
    ensures |es| == |objects|
    ensures forall i :: 0 <= i < |objects| ==> es[i] == RawEntry(objects[i])
  {
    seq(|objects|, i requires 0 <= i < |objects| => RawEntry(objects[i]))
  }

  /** `display_hierarchical_results(objects)` draws without raising: every
      object is a dict with an id, and the entries can be drawn. */
  ghost predicate Drawable(objects: Json, isSearchResult: bool, rank: map<Json, nat>)
  {
    Records(Listed(objects)) && Renderable(RawEntries(Listed(objects)), SearchMode(objects, isSearchResult), rank)
  }

  /** The rows the dialog's tree shows after drawing `objects`. */
  ghost function Drawn(objects: Json, isSearchResult: bool, rank: map<Json, nat>): seq<Row>
    requires Drawable(objects, isSearchResult, rank)
  {
    FlattenForest(Render(RawEntries(Listed(objects)), SearchMode(objects, isSearchResult), rank), None, 0)
  }

  /** A single object, not wrapped in a list, is drawn as exactly one
      top-level item, whatever mode the caller asked for. */
  lemma SingleObjectIsOneTopLevelItem(o: Json, isSearchResult: bool, rank: map<Json, nat>)
    requires !o.Arr? && Drawable(o, isSearchResult, rank)
    ensures TopLevel(Drawn(o, isSearchResult, rank)) == [RawEntry(o).item]
  {
    TopLevelItemsAreRoots(RawEntries([o]), true, rank);
  }

  /** In browse mode the top-level items are the dicts whose `parents` is
      missing or falsy; in search mode every dict is one, in input order. */
  lemma TopLevelDicts(objects: seq<Json>, isSearchResult: bool, rank: map<Json, nat>)
    requires Drawable(Arr(objects), isSearchResult, rank)
    ensures var top := TopLevel(Drawn(Arr(objects), isSearchResult, rank));
      && (isSearchResult ==> top == ItemsOf(RawEntries(objects)))
      && (!isSearchResult ==> top == ItemsOf(Parentless(RawEntries(objects))))
  {
    TopLevelItemsAreRoots(RawEntries(objects), isSearchResult, rank);
  }

  /** Every Load button in the dialog's tree carries the id its item shows. */
  lemma LoadButtonsCarryOwnId(objects: Json, isSearchResult: bool, rank: map<Json, nat>)
    requires Drawable(objects, isSearchResult, rank)
    ensures forall r :: r in Drawn(objects, isSearchResult, rank) ==> r.item.button == LoadsId(r.item.id)
  {
    var P := (l: Label) => l.button == LoadsId(l.id);
    RenderedRowsCarryLabels(RawEntries(Listed(objects)), SearchMode(objects, isSearchResult), rank, P);
  }

  /** The dialog reads a dict as the plugin's tree widget reads the record
      parsed from it, with a load callback: both renderers draw the same
      items, children and roots. */
  lemma DialogReadsDictsAsWidgetReadsRecords(d: Json)
    requires IsRecord(d) && FromDict(d).Success?
    ensures RawEntry(d) == Widgets.EntryOf(FromDict(d).value, true)
  {
  }

  // ---------------------------------------------------------------------
  // The handlers
  // ---------------------------------------------------------------------

  /** A message box: its kind and the text it shows (`CriticalValue` shows
      `str(value)`, `PartFound` shows 'Part found: ' and the path). */
  datatype Notice =
    | Warning(text: string)
    | Critical(text: string)
    | CriticalValue(value: Json)
    | Information(text: string)
    | PartFound(path: Json)

  /** What a handler does to the tree. */
  datatype TreeAction = Keep | ClearTree | Display(objects: Json, isSearchResult: bool)

  /** A Search or Find All click: the request sent (if any), the message box
      shown (if any) and the tree action. */
  datatype Handled = Handled(request: Option<Request>, notice: Option<Notice>, tree: TreeAction)

  /** `search_part`'s unwrapping: a list as is; of a dict, 'basic_object'
      before 'basic_objects', else the dict in a list; None otherwise. */
  function UnwrapSearch(data: Json): (objects: Json)
    ensures data.Arr? ==> objects == data
    ensures data.Obj? && !Has(data.fields, "basic_object") && !Has(data.fields, "basic_objects") ==> objects == Arr([data])
    ensures Truthy(objects) ==> data.Arr? || data.Obj?
    ensures data.Obj? && Has(data.fields, "basic_object") ==> objects == At(data.fields, "basic_object")
    ensures data.Obj? && !Has(data.fields, "basic_object") && Has(data.fields, "basic_objects") ==>
      objects == At(data.fields, "basic_objects")
  {
    if data.Arr? then data
    else if data.Obj? then
      if Has(data.fields, "basic_object") then At(data.fields, "basic_object")
      else if Has(data.fields, "basic_objects") then At(data.fields, "basic_objects")
      else Arr([data])
    else Null
  }

  /** `find_all_parts`'s unwrapping: as `search_part`'s, but 'basic_objects'
      is checked before 'basic_object'. */
  function UnwrapFindAll(data: Json): (objects: Json)
    ensures !(data.Obj? && Has(data.fields, "basic_object") && Has(data.fields, "basic_objects")) ==>
      objects == UnwrapSearch(data)
    ensures data.Obj? && Has(data.fields, "basic_objects") ==> objects == At(data.fields, "basic_objects")
  {
    if data.Arr? then data
    else if data.Obj? then
      if Has(data.fields, "basic_objects") then At(data.fields, "basic_objects")
      else if Has(data.fields, "basic_object") then At(data.fields, "basic_object")
      else Arr([data])
    else Null
  }

  /** `isinstance(data, dict) and 'error' in data`. */
  predicate IsErrorValue(data: Json)
  {
    data.Obj? && Has(data.fields, "error")
  }

  /** The part both handlers share once a request is sent: a decoding error
      is reported and clears the tree; an 'error' key is reported and leaves
      the tree alone; an empty result is reported and clears the tree; any
      other result is drawn. */
  function Respond(request: Request, decoded: Result<Json, string>, unwrapped: Json, isSearchResult: bool, empty: string): Handled
  {
    match decoded
    case Failure(e) => Handled(Some(request), Some(Critical("An error occurred: " + e)), ClearTree)
    case Success(data) =>
      if IsErrorValue(data) then
        Handled(Some(request), Some(CriticalValue(At(data.fields, "error"))), Keep)
      else if Truthy(unwrapped) then Handled(Some(request), None, Display(unwrapped, isSearchResult))
      else Handled(Some(request), Some(Information(empty)), ClearTree)
  }

  /** `search_part` with the typed text: an empty text is refused before any
      request; otherwise the name is sent as a query and a non-empty result
      is drawn as a search result. */
  function SearchPart(text: string, transport: Request -> Outcome, parse: string -> Result<Json, string>): (h: Handled)
    ensures h.request.None? <==> text == ""
    ensures text == "" ==> h.notice == Some(Warning("Please enter a part name!")) && h.tree == Keep
    ensures h.request.Some? ==> h.request.value == Request("GET", "/api/basic_object?name=" + text, None)
    ensures text != "" ==>
      var d := Decoded(ClassifyGet(transport(h.request.value)), parse);
      && (d.Failure? ==> h.notice == Some(Critical("An error occurred: " + d.error)) && h.tree == ClearTree)
      && (d.Success? && IsErrorValue(d.value) ==>
            h.notice == Some(CriticalValue(At(d.value.fields, "error"))) && h.tree == Keep)
      && (d.Success? && !IsErrorValue(d.value) && Truthy(UnwrapSearch(d.value)) ==>
            h.notice.None? && h.tree == Display(UnwrapSearch(d.value), true))
      && (d.Success? && !IsErrorValue(d.value) && !Truthy(UnwrapSearch(d.value)) ==>
            h.notice == Some(Information("No objects found with this name!")) && h.tree == ClearTree)
  {
    if text == "" then Handled(None, Some(Warning("Please enter a part name!")), Keep)
    else
      var request := Request("GET", UrlFor("/api/basic_object", [], [("name", text)]), None);
      var decoded := Decoded(ClassifyGet(transport(request)), parse);
      var data := if decoded.Success? then decoded.value else Null;
      Respond(request, decoded, UnwrapSearch(data), true, "No objects found with this name!")
  }

  /** `find_all_parts`: lists every object and draws a non-empty result as a
      hierarchy (browse mode). */
  function FindAllParts(transport: Request -> Outcome, parse: string -> Result<Json, string>): (h: Handled)
    ensures h.request == Some(Request("GET", "/api/basic_objects", None))
    ensures var d := Decoded(ClassifyGet(transport(h.request.value)), parse);
      && (d.Failure? ==> h.notice == Some(Critical("An error occurred: " + d.error)) && h.tree == ClearTree)
      && (d.Success? && IsErrorValue(d.value) ==>
            h.notice == Some(CriticalValue(At(d.value.fields, "error"))) && h.tree == Keep)
      && (d.Success? && !IsErrorValue(d.value) && Truthy(UnwrapFindAll(d.value)) ==>
            h.notice.None? && h.tree == Display(UnwrapFindAll(d.value), false))
      && (d.Success? && !IsErrorValue(d.value) && !Truthy(UnwrapFindAll(d.value)) ==>
            h.notice == Some(Information("No objects found!")) && h.tree == ClearTree)
  {
    var request := Request("GET", UrlFor("/api/basic_objects", [], []), None);
    var decoded := Decoded(ClassifyGet(transport(request)), parse);
    var data := if decoded.Success? then decoded.value else Null;
    Respond(request, decoded, UnwrapFindAll(data), false, "No objects found!")
  }

  /** The two handlers disagree on a dict holding both wrapper keys: Search
      draws 'basic_object', Find All draws 'basic_objects'. */
  lemma UnwrapPrecedenceDiffers(fields: seq<(string, Json)>)
    requires Has(fields, "basic_object") && Has(fields, "basic_objects")
    ensures UnwrapSearch(Obj(fields)) == At(fields, "basic_object")
    ensures UnwrapFindAll(Obj(fields)) == At(fields, "basic_objects")
    ensures At(fields, "basic_object") != At(fields, "basic_objects") ==> UnwrapSearch(Obj(fields)) != UnwrapFindAll(Obj(fields))
  {
  }

  /** A dict with neither wrapper key is drawn as a one-element list by both
      handlers; a value that is neither list nor dict counts as no result. */
  lemma BareDictIsOneResult(data: Json)
    requires !data.Arr?
    ensures data.Obj? && !Has(data.fields, "basic_object") && !Has(data.fields, "basic_objects") ==>
      UnwrapSearch(data) == Arr([data]) && UnwrapFindAll(data) == Arr([data])
    ensures !data.Obj? ==> !Truthy(UnwrapSearch(data)) && !Truthy(UnwrapFindAll(data))
  {
  }

  /** An error reply is decoded as `{"error": message}`. */
  lemma ErrorReplyDecodes(m: string, parse: string -> Result<Json, string>)
    ensures var d := Decoded(ErrorReply(m), parse);
      d.Success? && d.value.Obj? && Has(d.value.fields, "error") && At(d.value.fields, "error") == Str(m)
  {
    LookupFirstBinding([("error", Str(m))], "error", 0, Null);
  }

  /** A search answered by anything but 200 reports "HTTP <status>: <reason>"
      and leaves the tree as it was: the 'error' check comes before any
      unwrapping. */
  lemma SearchReportsHttpError(text: string, transport: Request -> Outcome, parse: string -> Result<Json, string>)
    requires text != ""
    requires var o := transport(Request("GET", "/api/basic_object?name=" + text, None));
      o.Response? && o.status != 200
    ensures var o := transport(Request("GET", "/api/basic_object?name=" + text, None));
      var h := SearchPart(text, transport, parse);
      h.notice == Some(CriticalValue(Str(HttpError(o.status, o.reason)))) && h.tree == Keep
  {
    var o := transport(Request("GET", "/api/basic_object?name=" + text, None));
    ErrorReplyDecodes(HttpError(o.status, o.reason), parse);
  }

  /** Find All answered by an exception (no server, say) reports `str(e)`
      and leaves the tree as it was. */
  lemma FindAllReportsException(transport: Request -> Outcome, parse: string -> Result<Json, string>)
    requires transport(Request("GET", "/api/basic_objects", None)).Raised?
    ensures var h := FindAllParts(transport, parse);
      && h.notice == Some(CriticalValue(Str(transport(Request("GET", "/api/basic_objects", None)).error)))
      && h.tree == Keep
  {
    ErrorReplyDecodes(transport(Request("GET", "/api/basic_objects", None)).error, parse);
  }

  /** A 200 reply whose unwrapped result is falsy — an empty list, a wrapper
      holding an empty list or null, a string, None — is reported and clears
      the tree, in both handlers. */
  lemma EmptyResultClears(text: string, transport: Request -> Outcome, parse: string -> Result<Json, string>)
    ensures var o := transport(Request("GET", "/api/basic_object?name=" + text, None));
      o.Response? && o.status == 200 && o.body.Text? && parse(o.body.text).Success? && text != "" ==>
        var data := parse(o.body.text).value;
        !IsErrorValue(data) && !Truthy(UnwrapSearch(data)) ==>
          var h := SearchPart(text, transport, parse);
          h.notice == Some(Information("No objects found with this name!")) && h.tree == ClearTree
    ensures var o := transport(Request("GET", "/api/basic_objects", None));
      o.Response? && o.status == 200 && o.body.Text? && parse(o.body.text).Success? ==>
        var data := parse(o.body.text).value;
        !IsErrorValue(data) && !Truthy(UnwrapFindAll(data)) ==>
          var h := FindAllParts(transport, parse);
          h.notice == Some(Information("No objects found!")) && h.tree == ClearTree
  {
  }

  /** Concretely: `{"basic_objects": []}` and a bare `[]` clear the tree in
      both handlers, while `{"basic_objects": [], "basic_object": d}` with a
      non-empty dict `d` is drawn by Search and clears it in Find All. */
  lemma EmptyWrappersClear(d: Json)
    requires d.Obj? && d.fields != []
    ensures !Truthy(UnwrapSearch(Obj([("basic_objects", Arr([]))])))
    ensures !Truthy(UnwrapFindAll(Obj([("basic_objects", Arr([]))])))
    ensures !Truthy(UnwrapSearch(Arr([]))) && !Truthy(UnwrapFindAll(Arr([])))
    ensures var both := Obj([("basic_objects", Arr([])), ("basic_object", d)]);
      && !IsErrorValue(both)
      && UnwrapSearch(both) == d && Truthy(UnwrapSearch(both))
      && !Truthy(UnwrapFindAll(both))
  {
    LookupFirstBinding([("basic_objects", Arr([]))], "basic_objects", 0, Null);
    assert !Has([("basic_objects", Arr([]))], "basic_object");
    var fields := [("basic_objects", Arr([])), ("basic_object", d)];
    LookupFirstBinding(fields, "basic_objects", 0, Null);
    LookupFirstBinding(fields, "basic_object", 1, Null);
    assert !Has(fields, "error");
  }

  // ---------------------------------------------------------------------
  // Load button
  // ---------------------------------------------------------------------

  /** What a Load click did: the request sent, the message box shown, and
      the file handed to the CAD host to open, if any. */
  datatype Loaded = Loaded(request: Request, notice: Notice, opens: Option<Json>)

  /** `data.get('bounding_contour', {}).get('brep_files', {}).get('path')`:
      fails when a step meets a value that is not a dict. */
  function FilePath(data: Json): (r: Result<Json, GetError>)
    ensures !data.Obj? ==> r == Failure(NoGetMethod(data))
    ensures data.Obj? ==>
      var bc := Get(data.fields, "bounding_contour", EmptyDict);
      && (!bc.Obj? ==> r == Failure(NoGetMethod(bc)))
      && (bc.Obj? ==>
            var bf := Get(bc.fields, "brep_files", EmptyDict);
            && (!bf.Obj? ==> r == Failure(NoGetMethod(bf)))
            && (bf.Obj? ==> r == Success(Get(bf.fields, "path", Null))))
  {
    match GetOn(data, "bounding_contour", EmptyDict)
    case Failure(e) => Failure(e)
    case Success(contour) =>
      match GetOn(contour, "brep_files", EmptyDict)
      case Failure(e) => Failure(e)
      case Success(files) => GetOn(files, "path", Null)
  }

  /** `load_object`: fetches the object and opens its file when the path is
      set; every failure is reported in one message box. */
  function LoadObject(partId: string, transport: Request -> Outcome, parse: string -> Result<Json, string>): (l: Loaded)
    ensures l.request == Request("GET", "/api/basic_object/" + partId, None)
    ensures l.opens.Some? <==> l.notice.PartFound?
    ensures var d := Decoded(ClassifyGet(transport(l.request)), parse);
      && (l.opens.Some? <==> d.Success? && FilePath(d.value).Success? && Truthy(FilePath(d.value).value))
      && (l.opens.Some? ==> l.opens.value == FilePath(d.value).value && l.notice == PartFound(l.opens.value))
      && (d.Failure? ==> l.notice == Critical("An error occurred while loading the object: " + d.error))
      && (d.Success? && FilePath(d.value).Failure? ==>
            l.notice == Critical("An error occurred while loading the object: " + Message(FilePath(d.value).error)))
      && (d.Success? && FilePath(d.value).Success? && !Truthy(FilePath(d.value).value) ==>
            l.notice == Critical("Object found, but no file path available!"))
  {
    ObjectUrl(partId);
    var request := Request("GET", UrlFor("/api/basic_object/{id}", [("id", partId)], []), None);
    var failed := "An error occurred while loading the object: ";
    match Decoded(ClassifyGet(transport(request)), parse)
    case Failure(e) => Loaded(request, Critical(failed + e), None)
    case Success(data) =>
      match FilePath(data)
      case Failure(e) => Loaded(request, Critical(failed + Message(e)), None)
      case Success(path) =>
        if Truthy(path) then Loaded(request, PartFound(path), Some(path))
        else Loaded(request, Critical("Object found, but no file path available!"), None)
  }

  /** Where the record parser and the load handler both find dicts, the
      handler opens exactly the file path the parsed record carries; a null
      `bounding_contour`, which the parser accepts, makes the handler fail. */
  lemma FilePathAgreesWithRecord(data: Json)
    requires FromDict(data).Success?
    ensures var bc := Get(data.fields, "bounding_contour", EmptyDict);
      && (bc.Obj? && Get(bc.fields, "brep_files", EmptyDict).Obj? ==>
            FilePath(data) == Success(FromDict(data).value.filePath))
      && (bc.Null? ==> FilePath(data).Failure?)
  {
  }

  /** A 200 reply carrying a record's representation opens that record's
      file path when it is set. */
  lemma LoadOpensRecordPath(partId: string, transport: Request -> Outcome, parse: string -> Result<Json, string>, o: BasicObject)
    requires var out := transport(Request("GET", "/api/basic_object/" + partId, None));
      out.Response? && out.status == 200 && out.body.Text? && parse(out.body.text) == Success(ToResponse(o))
    requires Truthy(o.filePath)
    ensures LoadObject(partId, transport, parse).opens == Some(o.filePath)
    ensures LoadObject(partId, transport, parse).notice == PartFound(o.filePath)
  {
    ParseAfterRepresentIsIdentity(o);
    RecordLookups(o);
    GeometryRoundTrip(o.filePath, o.brepString);
    var files := Obj([("path", o.filePath), ("brep_string", o.brepString)]);
    LookupFirstBinding([("brep_files", files)], "brep_files", 0, EmptyDict);
    FilePathAgreesWithRecord(ToResponse(o));
  }

  /** A template ending in the one placeholder `{id}`, after a prefix with
      no brace, becomes the prefix followed by the id. */
  lemma TrailingPlaceholder(prefix: string, partId: string)
    requires '{' !in prefix
    ensures UrlFor(prefix + "{id}", [("id", partId)], []) == prefix + partId
  {
    var pat := Placeholder("id");
    assert pat == "{id}";
    ReplaceSkipsFreePrefix(prefix, pat, pat, partId);
    ReplaceWhole(pat, partId);
    var params := [("id", partId)];
    assert params[1..] == [];
    assert SubstituteAll(prefix + pat, params) == SubstituteAll(ReplaceAll(prefix + pat, pat, partId), []);
  }

  /** The object's resource: the id is pasted after "/api/basic_object/"
      unescaped. */
  lemma ObjectUrl(partId: string)
    ensures UrlFor("/api/basic_object/{id}", [("id", partId)], []) == "/api/basic_object/" + partId
  {
    assert "/api/basic_object/{id}" == "/api/basic_object/" + "{id}";
    TrailingPlaceholder("/api/basic_object/", partId);
  }

  /** The Load request asks for the object's own resource. */
  lemma LoadRequestsObjectPath(partId: string, transport: Request -> Outcome, parse: string -> Result<Json, string>)
    ensures LoadObject(partId, transport, parse).request == Request("GET", "/api/basic_object/" + partId, None)
  {
    ObjectUrl(partId);
  }

  /** An error reply — a 404 for an unknown id, a refused connection — has
      no 'bounding_contour', so the handler reports that the object was
      found without a file path. */
  lemma LoadReportsErrorAsMissingPath(partId: string, transport: Request -> Outcome, parse: string -> Result<Json, string>)
    requires ClassifyGet(transport(Request("GET", "/api/basic_object/" + partId, None))).ErrorReply?
    ensures LoadObject(partId, transport, parse).notice == Critical("Object found, but no file path available!")
    ensures LoadObject(partId, transport, parse).opens.None?
  {
    LoadRequestsObjectPath(partId, transport, parse);
    var m := ClassifyGet(transport(Request("GET", "/api/basic_object/" + partId, None))).message;
    var fields := [("error", Str(m))];
    assert !Has(fields, "bounding_contour");
    assert !Has([], "brep_files") && !Has([], "path");
  }

  /** `load_object` with the 'error' check its sibling handlers make: an
      error value is reported as such; every other response is handled as
      before. */
  function LoadObjectCheckingError(partId: string, transport: Request -> Outcome, parse: string -> Result<Json, string>): (l: Loaded)
    ensures l.opens.Some? <==> l.notice.PartFound?
  {
    var loaded := LoadObject(partId, transport, parse);
    match Decoded(ClassifyGet(transport(loaded.request)), parse)
    case Success(data) =>
      if IsErrorValue(data) then Loaded(loaded.request, CriticalValue(At(data.fields, "error")), None)
      else loaded
    case Failure(_) => loaded
  }

  /** With the check, a failed request is reported with its own message and
      nothing is opened; a response without an 'error' key is handled
      exactly as `load_object` handles it. */
  lemma CheckedLoadReportsErrors(partId: string, transport: Request -> Outcome, parse: string -> Result<Json, string>)
    ensures var url := "/api/basic_object/" + partId;
      var o := transport(Request("GET", url, None));
      var l := LoadObjectCheckingError(partId, transport, parse);
      && (o.Raised? ==> l.notice == CriticalValue(Str(o.error)) && l.opens.None?)
      && (o.Response? && o.status != 200 ==> l.notice == CriticalValue(Str(HttpError(o.status, o.reason))) && l.opens.None?)
    ensures var d := Decoded(ClassifyGet(transport(Request("GET", "/api/basic_object/" + partId, None))), parse);
      !(d.Success? && IsErrorValue(d.value)) ==>
        LoadObjectCheckingError(partId, transport, parse) == LoadObject(partId, transport, parse)
  {
    LoadRequestsObjectPath(partId, transport, parse);
    var o := transport(Request("GET", "/api/basic_object/" + partId, None));
    if o.Raised? {
      ErrorReplyDecodes(o.error, parse);
    } else if o.status != 200 {
      ErrorReplyDecodes(HttpError(o.status, o.reason), parse);
    }
  }

  /** `handle_load_button`: the button's `part_id` property, `str()` of the
      item's id; an empty one loads nothing, any other one is handed to
      `load_object` as it is written. */
  function HandleLoadButton(partId: string, transport: Request -> Outcome, parse: string -> Result<Json, string>): (l: Option<Loaded>)
    ensures l.None? <==> partId == ""
    ensures l.Some? ==> l.value.request.url == "/api/basic_object/" + partId
    ensures l.Some? ==> l.value == LoadObject(partId, transport, parse)
  {
    if partId == "" then None else Some(LoadObject(partId, transport, parse))
  }

  /** A Load click whose request fails shows "Object found, but no file path
      available!" and opens nothing. */
  lemma LoadClickReportsErrorAsMissingPath(partId: string, transport: Request -> Outcome, parse: string -> Result<Json, string>)
    requires partId != ""
    requires ClassifyGet(transport(Request("GET", "/api/basic_object/" + partId, None))).ErrorReply?
    ensures var l := HandleLoadButton(partId, transport, parse);
      l.Some? && l.value.notice == Critical("Object found, but no file path available!") && l.value.opens.None?
  {
    LoadReportsErrorAsMissingPath(partId, transport, parse);
  }

  /** The Load click wired to the corrected handler: a failed request is
      reported with its own message. */
  function HandleLoadButtonChecked(partId: string, transport: Request -> Outcome, parse: string -> Result<Json, string>): (l: Option<Loaded>)
    ensures l.None? <==> partId == ""
    ensures l.Some? ==> l.value == LoadObjectCheckingError(partId, transport, parse)
    ensures l.Some? ==> var o := transport(Request("GET", "/api/basic_object/" + partId, None));
      o.Raised? ==> l.value.notice == CriticalValue(Str(o.error)) && l.value.opens.None?
  {
    if partId == "" then None
    else
      CheckedLoadReportsErrors(partId, transport, parse);
      Some(LoadObjectCheckingError(partId, transport, parse))
  }

  // ---------------------------------------------------------------------
  // The dialog's tree
  // ---------------------------------------------------------------------

  /** The rows a tree action leaves: the old ones, none, or the drawing. */
  ghost function After(before: seq<Row>, action: TreeAction, rank: map<Json, nat>): seq<Row>
    requires action.Display? ==> Drawable(action.objects, action.isSearchResult, rank)
  {
    match action
    case Keep => before
    case ClearTree => []
    case Display(objects, isSearchResult) => Drawn(objects, isSearchResult, rank)
  }

  class MyDialog {
    /** `resultsTree`, the dialog's plain tree widget. */
    const resultsTree: TreeWidget

    constructor()
      ensures fresh(resultsTree) && resultsTree.Valid() && resultsTree.rows == []
    {
      resultsTree := new TreeWidget();
    }

    /** `display_hierarchical_results`: clears the tree and draws the dicts,
        a single non-list value as a one-object search result. */
    method DisplayHierarchicalResults(objects: Json, isSearchResult: bool, ghost rank: map<Json, nat>)
      requires Drawable(objects, isSearchResult, rank)
      modifies resultsTree
      ensures resultsTree.Valid()
      ensures resultsTree.rows == Drawn(objects, isSearchResult, rank)
    {
      var listed := Listed(objects);
      var isSearch := SearchMode(objects, isSearchResult);
      resultsTree.DisplayHierarchy(RawEntries(listed), isSearch, rank);
    }

    /** Carries out a handler's tree action. */
    method Apply(action: TreeAction, ghost rank: map<Json, nat>)
      requires resultsTree.Valid()
      requires action.Display? ==> Drawable(action.objects, action.isSearchResult, rank)
      modifies resultsTree
      ensures resultsTree.Valid()
      ensures resultsTree.rows == After(old(resultsTree.rows), action, rank)
    {
      match action
      case Keep =>
      case ClearTree => resultsTree.Clear();
      case Display(objects, isSearchResult) => DisplayHierarchicalResults(objects, isSearchResult, rank);
    }

    /** The Search button. */
    method SearchPartClicked(text: string, transport: Request -> Outcome, parse: string -> Result<Json, string>, ghost rank: map<Json, nat>)
      returns (notice: Option<Notice>)
      requires resultsTree.Valid()
      requires var a := SearchPart(text, transport, parse).tree;
        a.Display? ==> Drawable(a.objects, a.isSearchResult, rank)
      modifies resultsTree
      ensures notice == SearchPart(text, transport, parse).notice
      ensures resultsTree.Valid()
      ensures resultsTree.rows == After(old(resultsTree.rows), SearchPart(text, transport, parse).tree, rank)
    {
      var h := SearchPart(text, transport, parse);
      Apply(h.tree, rank);
      notice := h.notice;
    }

    /** The Find All button. */
    method FindAllPartsClicked(transport: Request -> Outcome, parse: string -> Result<Json, string>, ghost rank: map<Json, nat>)
      returns (notice: Option<Notice>)
      requires resultsTree.Valid()
      requires var a := FindAllParts(transport, parse).tree;
        a.Display? ==> Drawable(a.objects, a.isSearchResult, rank)
      modifies resultsTree
      ensures notice == FindAllParts(transport, parse).notice
      ensures resultsTree.Valid()
      ensures resultsTree.rows == After(old(resultsTree.rows), FindAllParts(transport, parse).tree, rank)
    {
      var h := FindAllParts(transport, parse);
      Apply(h.tree, rank);
      notice := h.notice;
    }
  }
}
