/** The catalog record ("basic object") parsed defensively from a decoded
    JSON dict, and the unwrapping of the response shapes the service sends. */
module Models {
  import opened Wrappers
  import opened Json

  datatype Axis = Axis(x: Json, y: Json, z: Json)

  datatype Coordinates = Coordinates(x: Json, y: Json, z: Json, angle: Json, axis: Axis)

  /** The attributes `BasicObject.__init__` sets. Python's None is `Null`;
      every field holds whatever value the input held, unchecked. */
  datatype BasicObject = BasicObject(
    id: Json,
    name: Json,
    children: Json,
    parents: Json,
    coordinates: Coordinates,
    filePath: Json,
    brepString: Json)

  const EmptyDict: Json := Obj([])

  /** The placement part: `coordinates` and its `axis` default to {} and must
      be dicts, since `.get` is called on them. */
  function ParseCoordinates(coordinates: Json): (r: Result<Coordinates, GetError>)
    ensures r.Success? <==> coordinates.Obj? && Get(coordinates.fields, "axis", EmptyDict).Obj?
  {
    if !coordinates.Obj? then Failure(NoGetMethod(coordinates))
    else
      var c := coordinates.fields;
      var axis := Get(c, "axis", EmptyDict);
      if !axis.Obj? then Failure(NoGetMethod(axis))
      else
        Success(Coordinates(
          Get(c, "x", Zero), Get(c, "y", Zero), Get(c, "z", Zero), Get(c, "angle", Zero),
          Axis(Get(axis.fields, "x", Zero), Get(axis.fields, "y", Zero), Get(axis.fields, "z", Zero))))
  }

  /** The geometry part: (file_path, brep_string). A null `bounding_contour`
      or a null `brep_files` clears both; otherwise both are looked up. */
  function ParseGeometry(boundingContour: Json): (r: Result<(Json, Json), GetError>)
  {
    if boundingContour.Null? then Success((Null, Null))
    else if !boundingContour.Obj? then Failure(NoGetMethod(boundingContour))
    else
      var brepFiles := Get(boundingContour.fields, "brep_files", EmptyDict);
      if brepFiles.Null? then Success((Null, Null))
      else if !brepFiles.Obj? then Failure(NoGetMethod(brepFiles))
      else Success((Get(brepFiles.fields, "path", Null), Get(brepFiles.fields, "brep_string", Null)))
  }

  /** `BasicObject(data)`; Failure is the AttributeError it raises. */
  function FromDict(data: Json): (r: Result<BasicObject, GetError>)
    ensures r.Success? ==> data.Obj?
  {
    if !data.Obj? then Failure(NoGetMethod(data))
    else
      var d := data.fields;
      match ParseCoordinates(Get(d, "coordinates", EmptyDict))
      case Failure(e) => Failure(e)
      case Success(coordinates) =>
        match ParseGeometry(Get(d, "bounding_contour", EmptyDict))
        case Failure(e) => Failure(e)
        case Success(geometry) =>
          Success(BasicObject(
            Get(d, "id", Null), Get(d, "name", Str("N/A")),
            Get(d, "children", Arr([])), Get(d, "parents", Arr([])),
            coordinates, geometry.0, geometry.1))
  }

  /** Absent keys take their defaults: id None, name 'N/A', children and
      parents empty lists, every coordinate 0.0, no geometry. */
  lemma AbsentKeysDefault(fields: seq<(string, Json)>)
    requires FromDict(Obj(fields)).Success?
    ensures var o := FromDict(Obj(fields)).value;
      && (!Has(fields, "id") ==> o.id == Null)
      && (!Has(fields, "name") ==> o.name == Str("N/A"))
      && (!Has(fields, "children") ==> o.children == Arr([]))
      && (!Has(fields, "parents") ==> o.parents == Arr([]))
      && (!Has(fields, "coordinates") ==>
            o.coordinates == Coordinates(Zero, Zero, Zero, Zero, Axis(Zero, Zero, Zero)))
      && (!Has(fields, "bounding_contour") ==> o.filePath == Null && o.brepString == Null)
  {
    assert !Has([], "axis") && !Has([], "x") && !Has([], "brep_files") && !Has([], "path");
  }

  /** Present keys are copied unchanged, a present null included: the
      default applies only when the key is absent. */
  lemma PresentKeysCopied(fields: seq<(string, Json)>)
    requires FromDict(Obj(fields)).Success?
    ensures var o := FromDict(Obj(fields)).value;
      && (Has(fields, "id") ==> o.id == At(fields, "id"))
      && (Has(fields, "name") ==> o.name == At(fields, "name"))
      && (Has(fields, "children") ==> o.children == At(fields, "children"))
      && (Has(fields, "parents") ==> o.parents == At(fields, "parents"))
  {
  }

  /** Parsing raises exactly when `.get` meets a non-dict: the input itself,
      `coordinates`, `coordinates.axis`, a non-null `bounding_contour`, or a
      non-null `brep_files` inside it. */
  lemma ParseFailsOnlyOnNonDicts(data: Json)
    ensures FromDict(data).Success? <==>
      && data.Obj?
      && var coordinates := Get(data.fields, "coordinates", EmptyDict);
      && coordinates.Obj?
      && Get(coordinates.fields, "axis", EmptyDict).Obj?
      && var bc := Get(data.fields, "bounding_contour", EmptyDict);
      && (bc.Null? || (bc.Obj? && var bf := Get(bc.fields, "brep_files", EmptyDict); bf.Null? || bf.Obj?))
  {
  }

  /** Each placement key is taken from the input when present, null
      included, and is 0.0 when absent; the axis keys likewise from
      `coordinates.axis`, which is {} when absent. */
  lemma PlacementKeysCopiedOrZero(coordinates: Json)
    requires ParseCoordinates(coordinates).Success?
    ensures var c, p := coordinates.fields, ParseCoordinates(coordinates).value;
      && (Has(c, "x") ==> p.x == At(c, "x")) && (!Has(c, "x") ==> p.x == Zero)
      && (Has(c, "y") ==> p.y == At(c, "y")) && (!Has(c, "y") ==> p.y == Zero)
      && (Has(c, "z") ==> p.z == At(c, "z")) && (!Has(c, "z") ==> p.z == Zero)
      && (Has(c, "angle") ==> p.angle == At(c, "angle")) && (!Has(c, "angle") ==> p.angle == Zero)
      && (!Has(c, "axis") ==> p.axis == Axis(Zero, Zero, Zero))
      && (Has(c, "axis") ==>
            var a := At(c, "axis").fields;
            && (Has(a, "x") ==> p.axis.x == At(a, "x")) && (!Has(a, "x") ==> p.axis.x == Zero)
            && (Has(a, "y") ==> p.axis.y == At(a, "y")) && (!Has(a, "y") ==> p.axis.y == Zero)
            && (Has(a, "z") ==> p.axis.z == At(a, "z")) && (!Has(a, "z") ==> p.axis.z == Zero))
  {
    assert !Has([], "x") && !Has([], "y") && !Has([], "z");
  }

  /** A null `bounding_contour` or `brep_files` sets both geometry fields to
      None; otherwise path and brep string are read independently, so both
      can be set at once. */
  lemma GeometryFields(data: Json)
    requires FromDict(data).Success?
    ensures var o := FromDict(data).value;
      var bc := Get(data.fields, "bounding_contour", EmptyDict);
      && (bc.Null? ==> o.filePath == Null && o.brepString == Null)
      && (bc.Obj? && Get(bc.fields, "brep_files", EmptyDict).Null? ==> o.filePath == Null && o.brepString == Null)
      && (bc.Obj? && Get(bc.fields, "brep_files", EmptyDict).Obj? ==>
            var bf := Get(bc.fields, "brep_files", EmptyDict).fields;
            o.filePath == Get(bf, "path", Null) && o.brepString == Get(bf, "brep_string", Null))
  {
  }

  /** The service's object representation of a record, every field written
      out: the form the parser reads back. */
  function ToResponse(o: BasicObject): Json
  {
    Obj([
      ("id", o.id),
      ("name", o.name),
      ("children", o.children),
      ("parents", o.parents),
      ("coordinates", CoordinatesToJson(o.coordinates)),
      ("bounding_contour", Obj([("brep_files", Obj([("path", o.filePath), ("brep_string", o.brepString)]))]))])
  }

  function CoordinatesToJson(c: Coordinates): Json
  {
    Obj([("x", c.x), ("y", c.y), ("z", c.z), ("angle", c.angle),
         ("axis", Obj([("x", c.axis.x), ("y", c.axis.y), ("z", c.axis.z)]))])
  }

  /** Each key of the axis representation reads back its own value. */
  lemma AxisLookups(a: Axis)
    ensures var f := [("x", a.x), ("y", a.y), ("z", a.z)];
      Get(f, "x", Zero) == a.x && Get(f, "y", Zero) == a.y && Get(f, "z", Zero) == a.z
  {
    var f := [("x", a.x), ("y", a.y), ("z", a.z)];
    LookupFirstBinding(f, "x", 0, Zero);
    LookupFirstBinding(f, "y", 1, Zero);
    LookupFirstBinding(f, "z", 2, Zero);
  }

  /** Each key of the coordinates representation reads back its own value. */
  lemma CoordinateLookups(c: Coordinates)
    ensures var f := CoordinatesToJson(c).fields;
      && Get(f, "x", Zero) == c.x && Get(f, "y", Zero) == c.y && Get(f, "z", Zero) == c.z
      && Get(f, "angle", Zero) == c.angle
      && Get(f, "axis", EmptyDict) == Obj([("x", c.axis.x), ("y", c.axis.y), ("z", c.axis.z)])
  {
    var f := CoordinatesToJson(c).fields;
    LookupFirstBinding(f, "x", 0, Zero);
    LookupFirstBinding(f, "y", 1, Zero);
    LookupFirstBinding(f, "z", 2, Zero);
    LookupFirstBinding(f, "angle", 3, Zero);
    LookupFirstBinding(f, "axis", 4, EmptyDict);
  }

  lemma CoordinatesRoundTrip(c: Coordinates)
    ensures ParseCoordinates(CoordinatesToJson(c)) == Success(c)
  {
    CoordinateLookups(c);
    AxisLookups(c.axis);
  }

  lemma GeometryRoundTrip(path: Json, brep: Json)
    ensures ParseGeometry(Obj([("brep_files", Obj([("path", path), ("brep_string", brep)]))])) == Success((path, brep))
  {
    var files := Obj([("path", path), ("brep_string", brep)]);
    LookupFirstBinding([("brep_files", files)], "brep_files", 0, EmptyDict);
    LookupFirstBinding(files.fields, "path", 0, Null);
    LookupFirstBinding(files.fields, "brep_string", 1, Null);
  }

  /** Parsing the full representation of a record gives the record back:
      the placement values and the geometry survive the round trip. */
  lemma ParseAfterRepresentIsIdentity(o: BasicObject)
    ensures FromDict(ToResponse(o)) == Success(o)
  {
    RecordLookups(o);
    CoordinatesRoundTrip(o.coordinates);
    GeometryRoundTrip(o.filePath, o.brepString);
  }

  /** Each key of the record representation reads back its own value. */
  lemma RecordLookups(o: BasicObject)
    ensures var d := ToResponse(o).fields;
      && Get(d, "id", Null) == o.id && Get(d, "name", Str("N/A")) == o.name
      && Get(d, "children", Arr([])) == o.children && Get(d, "parents", Arr([])) == o.parents
      && Get(d, "coordinates", EmptyDict) == CoordinatesToJson(o.coordinates)
      && Get(d, "bounding_contour", EmptyDict) == d[5].1
  {
    var d := ToResponse(o).fields;
    LookupFirstBinding(d, "id", 0, Null);
    LookupFirstBinding(d, "name", 1, Str("N/A"));
    LookupFirstBinding(d, "children", 2, Arr([]));
    PlacementLookups(d);
  }

  lemma PlacementLookups(d: seq<(string, Json)>)
    requires |d| == 6 && d[0].0 == "id" && d[1].0 == "name" && d[2].0 == "children"
    requires d[3].0 == "parents" && d[4].0 == "coordinates" && d[5].0 == "bounding_contour"
    ensures Get(d, "parents", Arr([])) == d[3].1 && Get(d, "coordinates", EmptyDict) == d[4].1
    ensures Get(d, "bounding_contour", EmptyDict) == d[5].1
  {
    LookupFirstBinding(d, "parents", 3, Arr([]));
    LookupFirstBinding(d, "coordinates", 4, EmptyDict);
    LookupFirstBinding(d, "bounding_contour", 5, EmptyDict);
  }

  // ---------------------------------------------------------------------
  // from_response
  // ---------------------------------------------------------------------

  /** The exceptions `from_response` lets through: the AttributeError of a
      record that is not a dict, or the TypeError of iterating a
      `basic_objects` value that is not iterable. */
  datatype ParseError = AttributeError(cause: GetError) | NotIterable(value: Json)

  /** What `from_response` returns: a list, one object, or None. */
  datatype Parsed = Many(objects: seq<BasicObject>) | Single(object: BasicObject) | Nothing

  /** `[cls(obj) for obj in items]`: the records in order; the first item
      that is not a record raises. */
  function FromEach(items: seq<Json>): (r: Result<seq<BasicObject>, GetError>)
    ensures r.Success? <==> forall i :: 0 <= i < |items| ==> FromDict(items[i]).Success?
    ensures r.Success? ==>
      && |r.value| == |items|
      && forall i :: 0 <= i < |items| ==> FromDict(items[i]) == Success(r.value[i])
    ensures r.Failure? ==>
      exists i :: && 0 <= i < |items| && FromDict(items[i]) == Failure(r.error)
                  && forall j :: 0 <= j < i ==> FromDict(items[j]).Success?
  {
    if items == [] then Success([])
    else
      match FromDict(items[0])
      case Failure(e) => Failure(e)
      case Success(first) =>
        match FromEach(items[1..])
        case Failure(e) =>
          ghost var i :| 0 <= i < |items[1..]| && FromDict(items[1..][i]) == Failure(e) &&
            forall j :: 0 <= j < i ==> FromDict(items[1..][j]).Success?;
          assert FromDict(items[i + 1]) == Failure(e);
          Failure(e)
        case Success(rest) => Success([first] + rest)
  }

  function ListOf(r: Result<seq<BasicObject>, GetError>): Result<Parsed, ParseError>
  {
    match r
    case Failure(e) => Failure(AttributeError(e))
    case Success(os) => Success(Many(os))
  }

  function SingleOf(r: Result<BasicObject, GetError>): Result<Parsed, ParseError>
  {
    match r
    case Failure(e) => Failure(AttributeError(e))
    case Success(o) => Success(Single(o))
  }

  /** `BasicObject.from_response`: a list comes from a list or from
      'basic_objects' alone, a single object from 'basic_object' or a bare
      dict, and None from anything that is neither list nor dict. */
  function FromResponse(data: Json): (r: Result<Parsed, ParseError>)
    ensures r == Success(Nothing) <==> !data.Arr? && !data.Obj?
    ensures r.Success? && r.value.Many? ==>
      data.Arr? || (data.Obj? && !Has(data.fields, "basic_object") && Has(data.fields, "basic_objects"))
    ensures r.Success? && r.value.Single? ==>
      data.Obj? && (Has(data.fields, "basic_object") || !Has(data.fields, "basic_objects"))
    ensures data.Obj? && Has(data.fields, "basic_object") ==>
      r == SingleOf(FromDict(At(data.fields, "basic_object")))
    ensures data.Obj? && !Has(data.fields, "basic_object") && !Has(data.fields, "basic_objects") ==>
      r == SingleOf(FromDict(data))
    ensures data.Arr? ==> r == ListOf(FromEach(data.items))
  {
    match data
    case Arr(items) => ListOf(FromEach(items))
    case Obj(fields) =>
      if Has(fields, "basic_object") then SingleOf(FromDict(At(fields, "basic_object")))
      else if Has(fields, "basic_objects") then
        match Iterate(At(fields, "basic_objects"))
        case None => Failure(NotIterable(At(fields, "basic_objects")))
        case Some(items) => ListOf(FromEach(items))
      else SingleOf(FromDict(data))
    case _ => Success(Nothing)
  }

  /** A list response gives a list of the same length, built element by
      element in order; it fails exactly when one element is not a record. */
  lemma ListResponseIsElementwise(items: seq<Json>)
    ensures FromResponse(Arr(items)).Success? <==> forall i :: 0 <= i < |items| ==> FromDict(items[i]).Success?
    ensures FromResponse(Arr(items)).Success? ==>
      var p := FromResponse(Arr(items)).value;
      p.Many? && |p.objects| == |items| &&
      forall i :: 0 <= i < |items| ==> FromDict(items[i]) == Success(p.objects[i])
  {
  }

  /** `basic_object` is checked before `basic_objects` and yields a single
      object, never a list; `basic_objects` yields the list of its items. */
  lemma WrapperKeyPrecedence(fields: seq<(string, Json)>)
    ensures Has(fields, "basic_object") ==>
      FromResponse(Obj(fields)) == SingleOf(FromDict(At(fields, "basic_object")))
    ensures Has(fields, "basic_object") ==> !(FromResponse(Obj(fields)).Success? && FromResponse(Obj(fields)).value.Many?)
    ensures !Has(fields, "basic_object") && Has(fields, "basic_objects") && At(fields, "basic_objects").Arr? ==>
      FromResponse(Obj(fields)) == FromResponse(At(fields, "basic_objects"))
  {
  }

  /** A dict with neither wrapper key is itself one record; anything that is
      neither a list nor a dict gives None. */
  lemma BareResponses(data: Json)
    ensures data.Obj? && !Has(data.fields, "basic_object") && !Has(data.fields, "basic_objects") ==>
      FromResponse(data) == SingleOf(FromDict(data))
    ensures !data.Arr? && !data.Obj? ==> FromResponse(data) == Success(Nothing)
  {
  }

  /** The records a parsed response carries, as a list. */
  function Objects(p: Parsed): seq<BasicObject>
  {
    match p
    case Many(os) => os
    case Single(o) => [o]
    case Nothing => []
  }

  /** The four shapes that carry one record agree on it: a one-element list,
      `{"basic_objects": [d]}`, `{"basic_object": d}` and the bare dict.
      The first two give a list and the last two a single object. */
  lemma ShapesCarrySameRecord(d: Json)
    requires d.Obj? && !Has(d.fields, "basic_object") && !Has(d.fields, "basic_objects")
    requires FromDict(d).Success?
    ensures var o := FromDict(d).value;
      && FromResponse(Arr([d])) == Success(Many([o]))
      && FromResponse(Obj([("basic_objects", Arr([d]))])) == Success(Many([o]))
      && FromResponse(Obj([("basic_object", d)])) == Success(Single(o))
      && FromResponse(d) == Success(Single(o))
      && Objects(Many([o])) == Objects(Single(o)) == [o]
  {
    var o := FromDict(d).value;
    assert FromEach([d]) == Success([o]) by {
      assert [d][0] == d && [d][1..] == [];
      assert FromEach([]) == Success([]);
      assert [o] + [] == [o];
    }
    var plural := [("basic_objects", Arr([d]))];
    LookupFirstBinding(plural, "basic_objects", 0, Null);
    assert !Has(plural, "basic_object");
    LookupFirstBinding([("basic_object", d)], "basic_object", 0, Null);
  }
}
