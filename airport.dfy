/**
 * `Airport` (src/models/airport.py): an abbreviation and a name, persisted as
 * one JSON file per airport under the folder named by the
 * `AIRPORTS_OBJECTS_FOLDER` environment variable.
 */
module Airports {
  import opened Results
  import opened Json
  import opened Strings
  import opened Storage
  import BaseModels

  /** Both attributes default to `None`. */
  datatype Airport = Airport(abbrev: Option<string>, name: Option<string>)

  /** `serializable_fields`. */
  const SerializableFields: seq<string> := ["abbrev", "name"]

  /** A freshly constructed airport: both attributes `None`. */
  function Default(): (a: Airport)
    ensures a.abbrev == None && a.name == None
  {
    Airport(None, None)
  }

  /** An optional text as a JSON value: `None` becomes null. */
  function OptionalText(s: Option<string>): Value {
    if s.Some? then Str(s.value) else Null
  }

  /** The attributes of an airport, as `getattr` sees them. */
  function Attributes(a: Airport): map<string, Value> {
    map["abbrev" := OptionalText(a.abbrev), "name" := OptionalText(a.name)]
  }

  /** `serialize` (inherited): both fields. */
  function Serialize(a: Airport): (d: map<string, Value>)
    ensures d.Keys == {"abbrev", "name"}
    ensures d["abbrev"] == OptionalText(a.abbrev) && d["name"] == OptionalText(a.name)
  {
    assert SerializableFields[0] == "abbrev" && SerializableFields[1] == "name";
    assert BaseModels.FieldSet(SerializableFields) == {"abbrev", "name"};
    BaseModels.Serialized(Attributes(a), SerializableFields)
  }

  /** A JSON value read as an optional text; anything but a string or null is a TypeError. */
  function TextOf(v: Value): Result<Option<string>> {
    match v
    case Null => Ok(None)
    case Str(s) => Ok(Some(s))
    case _ => Err(TypeError)
  }

  /** An airport dictionary: only `abbrev` and `name`, each a string or null. */
  predicate IsAirportDict(d: map<string, Value>) {
    d.Keys <= {"abbrev", "name"} && forall k :: k in d ==> d[k].Null? || d[k].Str?
  }

  /** `unserialize(d)` on airport `a`: the given attributes replaced, the others kept. */
  function Unserialized(a: Airport, d: map<string, Value>): (r: Result<Airport>)
    ensures r.Ok? <==> IsAirportDict(d)
    ensures (exists k :: k in d && k !in {"abbrev", "name"}) ==> r == Err(ValueError)
    ensures r.Ok? ==> r.value.abbrev == (if "abbrev" in d then TextOf(d["abbrev"]).value else a.abbrev)
    ensures r.Ok? ==> r.value.name == (if "name" in d then TextOf(d["name"]).value else a.name)
  {
    BaseModels.UnserializedRejectsUnknown(Attributes(a), d);
    match BaseModels.Unserialized(Attributes(a), d)
    case Err(e) => Err(e)
    case Ok(m) =>
      match (TextOf(m["abbrev"]), TextOf(m["name"]))
      case (Ok(abbrev), Ok(name)) => Ok(Airport(abbrev, name))
      case _ => Err(TypeError)
  }

  /** `create_airport_from_dict`: a fresh airport, then `unserialize(d)`. */
  function CreateAirportFromDict(d: map<string, Value>): (r: Result<Airport>)
    ensures r.Ok? <==> IsAirportDict(d)
    ensures (exists k :: k in d && k !in {"abbrev", "name"}) ==> r == Err(ValueError)
    ensures r.Ok? ==> r.value.abbrev == (if "abbrev" in d then TextOf(d["abbrev"]).value else None)
    ensures r.Ok? ==> r.value.name == (if "name" in d then TextOf(d["name"]).value else None)
  {
    Unserialized(Default(), d)
  }

  /** Reading back a serialised airport gives the same airport, whatever it is read into. */
  lemma UnserializedOfSerialize(a: Airport, into: Airport)
    ensures Unserialized(into, Serialize(a)) == Ok(a)
    ensures CreateAirportFromDict(Serialize(a)) == Ok(a)
  {
  }

  /** The text `str()` gives an attribute: the text itself, or "None". */
  function ShownText(s: Option<string>): string {
    if s.Some? then s.value else "None"
  }

  /** `__str__`: "abbrev - name". */
  function ToText(a: Airport): string {
    ShownText(a.abbrev) + " - " + ShownText(a.name)
  }

  /** The text starts with the abbreviation, then " - ", and ends with the name. */
  lemma ToTextShowsBoth(a: Airport)
    ensures var t := ToText(a); var n := |ShownText(a.abbrev)|;
            |t| == n + 3 + |ShownText(a.name)| && t[..n] == ShownText(a.abbrev)
            && t[n..n + 3] == " - " && t[n + 3..] == ShownText(a.name)
  {
  }

  /** `os.path.join(os.environ['AIRPORTS_OBJECTS_FOLDER'], f'{abbrev}.json')`; a missing variable is a KeyError. */
  function FilePath(abbrev: string, env: map<string, string>): (r: Result<string>)
    ensures r.Ok? <==> "AIRPORTS_OBJECTS_FOLDER" in env
    ensures r.Err? ==> r.error == KeyError
    ensures r.Ok? ==> r.value == PathJoin(env["AIRPORTS_OBJECTS_FOLDER"], abbrev + ".json")
  {
    if "AIRPORTS_OBJECTS_FOLDER" in env then Ok(PathJoin(env["AIRPORTS_OBJECTS_FOLDER"], abbrev + ".json"))
    else Err(KeyError)
  }

  /**
   * `load_from_file`: the airport after loading its file. Without an abbreviation
   * it is a ValueError; a missing file leaves the airport as it is; text that is
   * not JSON is a ValueError; a document that is not an object has no `keys`.
   */
  function LoadFromFile(a: Airport, files: map<string, FileContent>, env: map<string, string>): (r: Result<Airport>)
    ensures a.abbrev.None? ==> r == Err(ValueError)
    ensures a.abbrev.Some? && "AIRPORTS_OBJECTS_FOLDER" !in env ==> r == Err(KeyError)
    ensures a.abbrev.Some? && FilePath(a.abbrev.value, env).Ok? && FilePath(a.abbrev.value, env).value !in files
            ==> r == Ok(a)
  {
    if a.abbrev.None? then Err(ValueError)
    else
      match FilePath(a.abbrev.value, env)
      case Err(e) => Err(e)
      case Ok(path) =>
        if path !in files then Ok(a)
        else match files[path]
          case Unparsable => Err(ValueError)
          case Document(Dict(d)) => Unserialized(a, d)
          case Document(_) => Err(AttributeError)
  }

  /** The files after `persist_to_file`: the serialised airport written at its path. */
  function Persisted(a: Airport, files: map<string, FileContent>, env: map<string, string>): (r: Result<map<string, FileContent>>)
    ensures a.abbrev.None? ==> r == Err(ValueError)
    ensures r.Ok? <==> a.abbrev.Some? && FilePath(a.abbrev.value, env).Ok?
    ensures r.Ok? ==> r.value.Keys == files.Keys + {FilePath(a.abbrev.value, env).value}
    ensures r.Ok? ==> forall p :: p in files && p != FilePath(a.abbrev.value, env).value ==> r.value[p] == files[p]
  {
    if a.abbrev.None? then Err(ValueError)
    else
      match FilePath(a.abbrev.value, env)
      case Err(e) => Err(e)
      case Ok(path) => Ok(files[path := Document(Dict(Serialize(a)))])
  }

  /** Loading what was persisted gives back the persisted airport, into any airport with the same abbreviation. */
  lemma LoadAfterPersist(a: Airport, b: Airport, files: map<string, FileContent>, env: map<string, string>)
    requires Persisted(a, files, env).Ok? && b.abbrev == a.abbrev
    ensures LoadFromFile(b, Persisted(a, files, env).value, env) == Ok(a)
  {
    UnserializedOfSerialize(a, b);
  }

  /** `persist_to_file`. */
  method PersistToFile(a: Airport, disk: Disk, env: map<string, string>) returns (err: Option<Error>)
    modifies disk
    ensures Persisted(a, old(disk.files), env).Ok? ==> err == None && disk.files == Persisted(a, old(disk.files), env).value
    ensures Persisted(a, old(disk.files), env).Err? ==>
              err == Some(Persisted(a, old(disk.files), env).error) && disk.files == old(disk.files)
  {
    if a.abbrev == None {
      return Some(ValueError);
    }
    var path := FilePath(a.abbrev.value, env);
    if path.Err? {
      return Some(path.error);
    }
    disk.files := disk.files[path.value := Document(Dict(Serialize(a)))];
    return None;
  }

  /** `Airport(**kwargs)`: `unserialize(kwargs)`, then `load_from_file` when an `id` is given. */
  function New(kwargs: map<string, Value>, files: map<string, FileContent>, env: map<string, string>): (r: Result<Airport>)
    ensures "id" !in kwargs ==> r == CreateAirportFromDict(kwargs)
  {
    match CreateAirportFromDict(kwargs)
    case Err(e) => Err(e)
    case Ok(a) => if "id" in kwargs then LoadFromFile(a, files, env) else Ok(a)
  }

  /** An airport has no `id` attribute, so an `id` keyword is rejected before the file could be loaded. */
  lemma NewWithIdIsRejected(kwargs: map<string, Value>, files: map<string, FileContent>, env: map<string, string>)
    requires "id" in kwargs
    ensures New(kwargs, files, env) == Err(ValueError)
  {
    assert "id" !in {"abbrev", "name"};
  }
}
