/**
 * The `Line` object of src/models/line.py: a line whose attributes are updated
 * in place. Each method is proved against the functions on `Lines.LineRecord`.
 */
module LineObjects {
  import opened Results
  import opened Json
  import opened Storage
  import opened Lines
  import CategorizedValues
  import Airports

  type Airport = Airports.Airport
  type CategorizedValue = CategorizedValues.CategorizedValue

  /** One line, its attributes updated in place. */
  class Line {
    var id: Option<int>
    var name: Option<string>
    var displayName: Option<string>
    var origin: Option<Airport>
    var destination: Option<Airport>
    var distanceKm: Option<int>
    var totalDemand: Option<CategorizedValue>
    var idealCost: Option<CategorizedValue>
    var turnover: Option<CategorizedValue>
    var currentCost: Option<CategorizedValue>
    var internalAuditCost: Option<int>
    var lastAuditDate: Option<int>
    var reliabilityLevel: Option<int>
    var taxes: Option<int>
    var canUpdatePrices: bool
    var lastUpdatedAt: Option<int>

    /** The attributes as one value. */
    function Record(): LineRecord
      reads this
    {
      LineRecord(id, name, displayName, origin, destination, distanceKm, totalDemand, idealCost,
                 turnover, currentCost, internalAuditCost, lastAuditDate, reliabilityLevel, taxes,
                 canUpdatePrices, lastUpdatedAt)
    }

    /** A line holding the class attributes. */
    constructor ()
      ensures Record() == Default()
    {
      id, name, displayName, origin, destination, distanceKm := None, None, None, None, None, None;
      totalDemand, idealCost, turnover, currentCost := None, None, None, None;
      internalAuditCost, lastAuditDate, reliabilityLevel, taxes := None, None, None, None;
      canUpdatePrices, lastUpdatedAt := false, None;
    }

    /** Sets every attribute from a record. */
    method SetRecord(r: LineRecord)
      modifies this
      ensures Record() == r
    {
      SetRoute(r);
      SetFigures(r);
    }

    /** The first eight attributes of `r`: who the line is and where it goes. */
    method SetRoute(r: LineRecord)
      modifies this
      ensures Record() == old(Record()).(id := r.id, name := r.name, displayName := r.displayName, origin := r.origin,
                                         destination := r.destination, distanceKm := r.distanceKm,
                                         totalDemand := r.totalDemand, idealCost := r.idealCost)
    {
      id, name, displayName, origin, destination, distanceKm, totalDemand, idealCost :=
        r.id, r.name, r.displayName, r.origin, r.destination, r.distanceKm, r.totalDemand, r.idealCost;
    }

    /** The last eight attributes of `r`: the line's figures and audit state. */
    method SetFigures(r: LineRecord)
      modifies this
      ensures Record() == old(Record()).(turnover := r.turnover, currentCost := r.currentCost,
                                         internalAuditCost := r.internalAuditCost, lastAuditDate := r.lastAuditDate,
                                         reliabilityLevel := r.reliabilityLevel, taxes := r.taxes,
                                         canUpdatePrices := r.canUpdatePrices, lastUpdatedAt := r.lastUpdatedAt)
    {
      turnover, currentCost, internalAuditCost, lastAuditDate, reliabilityLevel, taxes, canUpdatePrices, lastUpdatedAt :=
        r.turnover, r.currentCost, r.internalAuditCost, r.lastAuditDate, r.reliabilityLevel, r.taxes, r.canUpdatePrices, r.lastUpdatedAt;
    }

    /** `self.last_updated_at = t`. */
    method Stamp(t: int)
      modifies this
      ensures Record() == old(Record()).(lastUpdatedAt := Some(t))
    {
      lastUpdatedAt := Some(t);
    }

    /** `setattr(self, f, v)` for a plain attribute. */
    method SetPlain(f: string, v: Value)
      requires IsPlain(f) && PlainValueFits(f, v)
      modifies this
      ensures Record() == AssignPlain(old(Record()), f, v)
    {
      match f
      case "id" => id := IntOf(v);
      case "name" => name := TextOf(v);
      case "display_name" => displayName := TextOf(v);
      case "distance_km" => distanceKm := IntOf(v);
      case "internal_audit_cost" => internalAuditCost := IntOf(v);
      case "reliability_level" => reliabilityLevel := IntOf(v);
      case "taxes" => taxes := IntOf(v);
      case _ => canUpdatePrices := v.b;
    }

    /** The base class's assignments of the plain attributes of `d`. */
    method AssignPlainPart(d: map<string, Value>)
      requires PlainPartFits(d)
      modifies this
      ensures Record() == AssignPlainFields(old(Record()), d, PlainFields)
    {
      FieldListsMatchNames();
      ghost var done := AssignPlainFields(Record(), d, PlainFields);
      for i := 0 to |PlainFields|
        invariant AssignPlainFields(Record(), d, PlainFields[i..]) == done
      {
        var f := PlainFields[i];
        AssignPlainFieldsStep(Record(), d, PlainFields[i..]);
        assert PlainFields[i..][1..] == PlainFields[i + 1..];
        if f in d {
          SetPlain(f, d[f]);
        }
      }
    }

    /** The special attributes of `d`, one by one, stopping at the first that fails. */
    method AssignSpecialPart(d: map<string, Value>) returns (err: Option<Error>)
      modifies this
      ensures (Record(), err) == AssignSpecialFields(old(Record()), d, SpecialFields)
    {
      FieldListsMatchNames();
      ghost var result := AssignSpecialFields(Record(), d, SpecialFields);
      for i := 0 to |SpecialFields|
        invariant AssignSpecialFields(Record(), d, SpecialFields[i..]) == result
      {
        var f := SpecialFields[i];
        assert SpecialFields[i..][1..] == SpecialFields[i + 1..];
        if f in d {
          var outcome := AssignSpecial(Record(), f, d[f]);
          if outcome.Err? {
            return Some(outcome.error);
          }
          SetRecord(outcome.value);
        }
      }
      return None;
    }

    /** `unserialize(d)`: the base class's checks and assignments, then the special attributes. */
    method Unserialize(d: map<string, Value>) returns (err: Option<Error>)
      modifies this
      ensures (Record(), err) == Unserialized(old(Record()), d)
    {
      if exists f :: f in d && !IsAttribute(f) {
        return Some(ValueError);
      }
      if !PlainPartFits(d) {
        return Some(TypeError);
      }
      UnserializedAccepted(Record(), d);
      AssignPlainPart(d);
      err := AssignSpecialPart(d);
    }

    /** `load_from_file`. */
    method LoadFromFile(files: map<string, FileContent>, env: map<string, string>) returns (err: Option<Error>)
      modifies this
      ensures (Record(), err) == Loaded(old(Record()), files, env)
    {
      if id.None? {
        return Some(ValueError);
      }
      var path := FilePath(id.value, env);
      if path !in files {
        return None;
      }
      match files[path]
      case Unparsable => return Some(ValueError);
      case Document(Dict(d)) => err := Unserialize(d);
      case Document(_) => return Some(AttributeError);
    }

    /** `persist_to_file`: nothing is written when it fails. */
    method PersistToFile(disk: Disk, env: map<string, string>) returns (err: Option<Error>)
      modifies disk
      ensures Persisted(Record(), old(disk.files), env).Ok? ==>
                err == None && disk.files == Persisted(Record(), old(disk.files), env).value
      ensures Persisted(Record(), old(disk.files), env).Err? ==>
                err == Some(Persisted(Record(), old(disk.files), env).error) && disk.files == old(disk.files)
    {
      if id.None? {
        return Some(ValueError);
      }
      var d := Serialize(Record());
      if d.Err? {
        return Some(d.error);
      }
      disk.files := disk.files[FilePath(id.value, env) := Document(Dict(d.value))];
      return None;
    }

    /** `Line(**kwargs)`. */
    static method New(kwargs: map<string, Value>, files: map<string, FileContent>, env: map<string, string>)
      returns (line: Line, err: Option<Error>)
      ensures fresh(line)
      ensures (line.Record(), err) == Created(kwargs, files, env)
    {
      line := new Line();
      err := line.Unserialize(kwargs);
      if err.None? && "id" in kwargs {
        err := line.LoadFromFile(files, env);
      }
    }
  }
}
