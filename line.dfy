/**
 * `Line` (src/models/line.py): one route of the airline, with its airports,
 * demand, prices and audit state, persisted as `<folder>/<id>.json`.
 * Dates are whole numbers (seconds), written to JSON as their decimal text.
 */
module Lines {
  import opened Results
  import opened Json
  import opened Strings
  import opened Storage
  import CategorizedValues
  import Airports
  import Demands
  import Prices

  type Airport = Airports.Airport
  type CategorizedValue = CategorizedValues.CategorizedValue

  /** The value of every attribute of a line. */
  datatype LineRecord = LineRecord(
    id: Option<int>,
    name: Option<string>,
    displayName: Option<string>,
    origin: Option<Airport>,
    destination: Option<Airport>,
    distanceKm: Option<int>,
    totalDemand: Option<CategorizedValue>,
    idealCost: Option<CategorizedValue>,
    turnover: Option<CategorizedValue>,
    currentCost: Option<CategorizedValue>,
    internalAuditCost: Option<int>,
    lastAuditDate: Option<int>,
    reliabilityLevel: Option<int>,
    taxes: Option<int>,
    canUpdatePrices: bool,
    lastUpdatedAt: Option<int>)

  /** The class attributes: everything `None`, `can_update_prices` false. */
  function Default(): (r: LineRecord)
    ensures r.id.None? && r.origin.None? && r.idealCost.None? && r.lastUpdatedAt.None? && !r.canUpdatePrices
  {
    LineRecord(None, None, None, None, None, None, None, None, None, None, None, None, None, None, false, None)
  }

  /** The eight attributes `unserialize` builds through a factory or a date parser, in the order it handles them. */
  const SpecialFields: seq<string> :=
    ["origin", "destination", "total_demand", "ideal_cost", "turnover", "current_cost", "last_audit_date", "last_updated_at"]

  /** The eight attributes the base class assigns as they are. */
  const PlainFields: seq<string> :=
    ["id", "name", "display_name", "distance_km", "internal_audit_cost", "reliability_level", "taxes", "can_update_prices"]

  const SpecialNames: set<string> :=
    {"origin", "destination", "total_demand", "ideal_cost", "turnover", "current_cost", "last_audit_date", "last_updated_at"}

  const PlainNames: set<string> :=
    {"id", "name", "display_name", "distance_km", "internal_audit_cost", "reliability_level", "taxes", "can_update_prices"}

  predicate IsSpecial(f: string) {
    f in SpecialNames
  }

  predicate IsPlain(f: string) {
    f in PlainNames
  }

  /** The sixteen attribute names: the plain ones and the special ones. */
  predicate IsAttribute(f: string) {
    IsPlain(f) || IsSpecial(f)
  }

  /** No attribute is both plain and special. */
  lemma NamesDisjoint()
    ensures forall f :: IsPlain(f) ==> !IsSpecial(f)
  {
  }

  /** The two lists name exactly the attributes of their kind. */
  lemma FieldListsMatchNames()
    ensures forall i :: 0 <= i < |SpecialFields| ==> IsSpecial(SpecialFields[i])
    ensures forall i :: 0 <= i < |PlainFields| ==> IsPlain(PlainFields[i])
    ensures forall f :: IsPlain(f) ==> f in PlainFields
    ensures forall f :: IsSpecial(f) ==> f in SpecialFields
  {
  }

  function IntValue(i: Option<int>): Value {
    if i.Some? then Int(i.value) else Null
  }

  function TextValue(s: Option<string>): Value {
    if s.Some? then Str(s.value) else Null
  }

  /** A date written as text (the stand-in for `isoformat`). */
  function DateText(t: int): Value {
    Str(IntToString(t))
  }

  /** Two records agree on the eight special attributes. */
  predicate SameSpecials(a: LineRecord, b: LineRecord) {
    a.origin == b.origin && a.destination == b.destination && a.totalDemand == b.totalDemand
    && a.idealCost == b.idealCost && a.turnover == b.turnover && a.currentCost == b.currentCost
    && a.lastAuditDate == b.lastAuditDate && a.lastUpdatedAt == b.lastUpdatedAt
  }

  /** Two records agree on the eight plain attributes. */
  predicate SamePlain(a: LineRecord, b: LineRecord) {
    a.id == b.id && a.name == b.name && a.displayName == b.displayName && a.distanceKm == b.distanceKm
    && a.internalAuditCost == b.internalAuditCost && a.reliabilityLevel == b.reliabilityLevel
    && a.taxes == b.taxes && a.canUpdatePrices == b.canUpdatePrices
  }

  /** `a` holds the special attributes of `b` that `d` does not name. */
  predicate KeepsAbsentSpecials(a: LineRecord, b: LineRecord, d: map<string, Value>) {
    ("origin" !in d ==> a.origin == b.origin) && ("destination" !in d ==> a.destination == b.destination)
    && ("total_demand" !in d ==> a.totalDemand == b.totalDemand) && ("ideal_cost" !in d ==> a.idealCost == b.idealCost)
    && ("turnover" !in d ==> a.turnover == b.turnover) && ("current_cost" !in d ==> a.currentCost == b.currentCost)
    && ("last_audit_date" !in d ==> a.lastAuditDate == b.lastAuditDate)
    && ("last_updated_at" !in d ==> a.lastUpdatedAt == b.lastUpdatedAt)
  }

  /** Records that agree on the plain attributes serialise them alike. */
  lemma SamePlainValues(a: LineRecord, b: LineRecord)
    requires SamePlain(a, b)
    ensures forall g :: IsPlain(g) ==> PlainValue(a, g) == PlainValue(b, g)
  {
  }

  /** The serialised value of plain attribute `f`: the attribute itself. */
  function PlainValue(r: LineRecord, f: string): Value
    requires IsPlain(f)
  {
    match f
    case "id" => IntValue(r.id)
    case "name" => TextValue(r.name)
    case "display_name" => TextValue(r.displayName)
    case "distance_km" => IntValue(r.distanceKm)
    case "internal_audit_cost" => IntValue(r.internalAuditCost)
    case "reliability_level" => IntValue(r.reliabilityLevel)
    case "taxes" => IntValue(r.taxes)
    case _ => Bool(r.canUpdatePrices)
  }

  /** The plain attributes and the special ones together determine a line. */
  lemma PlainValuesDetermine(a: LineRecord, b: LineRecord)
    requires forall f :: IsPlain(f) ==> PlainValue(a, f) == PlainValue(b, f)
    requires SameSpecials(a, b)
    ensures a == b
  {
    assert PlainValue(a, "id") == PlainValue(b, "id");
    assert PlainValue(a, "name") == PlainValue(b, "name");
    assert PlainValue(a, "display_name") == PlainValue(b, "display_name");
    assert PlainValue(a, "distance_km") == PlainValue(b, "distance_km");
    assert PlainValue(a, "internal_audit_cost") == PlainValue(b, "internal_audit_cost");
    assert PlainValue(a, "reliability_level") == PlainValue(b, "reliability_level");
    assert PlainValue(a, "taxes") == PlainValue(b, "taxes");
    assert PlainValue(a, "can_update_prices") == PlainValue(b, "can_update_prices");
  }

  /** Every special attribute is set, so each nested `serialize` and `isoformat` has an object to work on. */
  predicate Serializable(r: LineRecord) {
    r.origin.Some? && r.destination.Some? && r.totalDemand.Some? && r.idealCost.Some?
    && r.turnover.Some? && r.currentCost.Some? && r.lastAuditDate.Some? && r.lastUpdatedAt.Some?
  }

  /** The serialised value of special attribute `f`: the nested object serialised, or the date as text. */
  function SpecialValue(r: LineRecord, f: string): Value
    requires IsSpecial(f) && Serializable(r)
  {
    match f
    case "origin" => Dict(Airports.Serialize(r.origin.value))
    case "destination" => Dict(Airports.Serialize(r.destination.value))
    case "total_demand" => Dict(CategorizedValues.Serialize(r.totalDemand.value))
    case "ideal_cost" => Dict(CategorizedValues.Serialize(r.idealCost.value))
    case "turnover" => Dict(CategorizedValues.Serialize(r.turnover.value))
    case "current_cost" => Dict(CategorizedValues.Serialize(r.currentCost.value))
    case "last_audit_date" => DateText(r.lastAuditDate.value)
    case _ => DateText(r.lastUpdatedAt.value)
  }

  /**
   * `serialize`: all sixteen attributes, nested objects serialised and dates as
   * text. An unset special attribute is an AttributeError.
   */
  function Serialize(r: LineRecord): (d: Result<map<string, Value>>)
    ensures d.Ok? <==> Serializable(r)
    ensures d.Err? ==> d.error == AttributeError
    ensures d.Ok? ==> forall f :: f in d.value <==> IsAttribute(f)
    ensures d.Ok? ==> forall f :: IsPlain(f) ==> f in d.value && d.value[f] == PlainValue(r, f)
    ensures d.Ok? ==> forall f :: IsSpecial(f) ==> f in d.value && d.value[f] == SpecialValue(r, f)
  {
    NamesDisjoint();
    if !Serializable(r) then Err(AttributeError)
    else Ok(map f | f in PlainNames + SpecialNames :: if IsPlain(f) then PlainValue(r, f) else SpecialValue(r, f))
  }

  /** A value the base class may assign to plain attribute `f` (integers, texts, or the flag). */
  predicate PlainValueFits(f: string, v: Value) {
    if f == "name" || f == "display_name" then v.Null? || v.Str?
    else if f == "can_update_prices" then v.Bool?
    else v.Null? || v.Int?
  }

  function IntOf(v: Value): Option<int> {
    if v.Int? then Some(v.i) else None
  }

  function TextOf(v: Value): Option<string> {
    if v.Str? then Some(v.s) else None
  }

  /** `setattr(line, f, v)` for a plain attribute: `f` now holds `v`, everything else is as it was. */
  function AssignPlain(r: LineRecord, f: string, v: Value): (r': LineRecord)
    requires IsPlain(f) && PlainValueFits(f, v)
    ensures PlainValue(r', f) == v
    ensures forall g :: IsPlain(g) && g != f ==> PlainValue(r', g) == PlainValue(r, g)
    ensures SameSpecials(r', r)
  {
    match f
    case "id" => r.(id := IntOf(v))
    case "name" => r.(name := TextOf(v))
    case "display_name" => r.(displayName := TextOf(v))
    case "distance_km" => r.(distanceKm := IntOf(v))
    case "internal_audit_cost" => r.(internalAuditCost := IntOf(v))
    case "reliability_level" => r.(reliabilityLevel := IntOf(v))
    case "taxes" => r.(taxes := IntOf(v))
    case _ => r.(canUpdatePrices := v.b)
  }

  /** The base class accepts the plain part: every key is a plain attribute holding a value that fits it. */
  predicate PlainPartFits(d: map<string, Value>) {
    forall f :: f in d && !IsSpecial(f) ==> IsPlain(f) && PlainValueFits(f, d[f])
  }

  /** The base class's assignments: each plain key of `d` among `names`, in order. */
  function AssignPlainFields(r: LineRecord, d: map<string, Value>, names: seq<string>): LineRecord
    requires PlainPartFits(d)
    requires forall i :: 0 <= i < |names| ==> IsPlain(names[i])
    decreases |names|
  {
    if names == [] then r
    else
      var r' := if names[0] in d then AssignPlain(r, names[0], d[names[0]]) else r;
      AssignPlainFields(r', d, names[1..])
  }

  /** One step of the base class's assignments. */
  lemma AssignPlainFieldsStep(r: LineRecord, d: map<string, Value>, names: seq<string>)
    requires PlainPartFits(d)
    requires forall i :: 0 <= i < |names| ==> IsPlain(names[i])
    requires names != []
    ensures names[0] in d ==> PlainValueFits(names[0], d[names[0]])
                              && AssignPlainFields(r, d, names) == AssignPlainFields(AssignPlain(r, names[0], d[names[0]]), d, names[1..])
    ensures names[0] !in d ==> AssignPlainFields(r, d, names) == AssignPlainFields(r, d, names[1..])
  {
    NamesDisjoint();
  }


  /** After the base class's assignments each plain attribute among `names` holds the given value, the rest are as they were. */
  lemma {:induction false} AssignPlainFieldsValues(r: LineRecord, d: map<string, Value>, names: seq<string>)
    requires PlainPartFits(d)
    requires forall i :: 0 <= i < |names| ==> IsPlain(names[i])
    ensures forall g :: IsPlain(g) ==>
              PlainValue(AssignPlainFields(r, d, names), g) == (if g in d && g in names then d[g] else PlainValue(r, g))
    decreases |names|
  {
    if names != [] {
      var r' := if names[0] in d then AssignPlain(r, names[0], d[names[0]]) else r;
      AssignPlainFieldsValues(r', d, names[1..]);
      forall g | IsPlain(g)
        ensures PlainValue(AssignPlainFields(r, d, names), g) == (if g in d && g in names then d[g] else PlainValue(r, g))
      {
        assert g in names <==> g == names[0] || g in names[1..];
      }
    }
  }

  /** The base class's assignments leave the special attributes as they were. */
  lemma {:induction false} AssignPlainFieldsKeepSpecials(r: LineRecord, d: map<string, Value>, names: seq<string>)
    requires PlainPartFits(d)
    requires forall i :: 0 <= i < |names| ==> IsPlain(names[i])
    ensures SameSpecials(AssignPlainFields(r, d, names), r)
    decreases |names|
  {
    if names != [] {
      var r' := if names[0] in d then AssignPlain(r, names[0], d[names[0]]) else r;
      AssignPlainFieldsKeepSpecials(r', d, names[1..]);
    }
  }

  /** A date read back from text (the stand-in for `fromisoformat`): not text is a TypeError, bad text a ValueError. */
  function ParseDate(v: Value): (r: Result<int>)
    ensures v.Str? && ParseInt(v.s).Some? ==> r == Ok(ParseInt(v.s).value)
    ensures v.Str? && ParseInt(v.s).None? ==> r == Err(ValueError)
    ensures !v.Str? ==> r == Err(TypeError)
  {
    if !v.Str? then Err(TypeError)
    else if ParseInt(v.s).None? then Err(ValueError)
    else Ok(ParseInt(v.s).value)
  }

  /** A nested dictionary; anything else has no `keys` and is an AttributeError. */
  function DictOf(v: Value): Result<map<string, Value>> {
    if v.Dict? then Ok(v.fields) else Err(AttributeError)
  }

  /** One special attribute of `unserialize`, routed through its factory; the plain attributes are untouched. */
  function AssignSpecial(r: LineRecord, f: string, v: Value): (res: Result<LineRecord>)
    requires IsSpecial(f)
    ensures res.Ok? ==> SamePlain(res.value, r)
    ensures !v.Dict? && f != "last_audit_date" && f != "last_updated_at" ==> res == Err(AttributeError)
  {
    match f
    case "origin" =>
      var d :- DictOf(v); var a :- Airports.CreateAirportFromDict(d); Ok(r.(origin := Some(a)))
    case "destination" =>
      var d :- DictOf(v); var a :- Airports.CreateAirportFromDict(d); Ok(r.(destination := Some(a)))
    case "total_demand" =>
      var d :- DictOf(v); var x :- Demands.CreateDemandFromDict(d); Ok(r.(totalDemand := Some(x)))
    case "ideal_cost" =>
      var d :- DictOf(v); var x :- Prices.CreatePriceFromDict(d); Ok(r.(idealCost := Some(x)))
    case "turnover" =>
      var d :- DictOf(v); var x :- Prices.CreatePriceFromDict(d); Ok(r.(turnover := Some(x)))
    case "current_cost" =>
      var d :- DictOf(v); var x :- Prices.CreatePriceFromDict(d); Ok(r.(currentCost := Some(x)))
    case "last_audit_date" =>
      var t :- ParseDate(v); Ok(r.(lastAuditDate := Some(t)))
    case _ =>
      var t :- ParseDate(v); Ok(r.(lastUpdatedAt := Some(t)))
  }

  /**
   * The special attributes of `d` among `names`, in order. An attribute that
   * fails stops the assignments there: the earlier ones stay assigned.
   */
  function AssignSpecialFields(r: LineRecord, d: map<string, Value>, names: seq<string>): (LineRecord, Option<Error>)
    requires forall i :: 0 <= i < |names| ==> IsSpecial(names[i])
    decreases |names|
  {
    if names == [] then (r, None)
    else if names[0] !in d then AssignSpecialFields(r, d, names[1..])
    else match AssignSpecial(r, names[0], d[names[0]])
      case Err(e) => (r, Some(e))
      case Ok(r') => AssignSpecialFields(r', d, names[1..])
  }

  /**
   * `unserialize(d)`: the plain part goes through the base class (rejected as a
   * whole on an unknown key), then each special attribute through its factory.
   */
  function Unserialized(r: LineRecord, d: map<string, Value>): (LineRecord, Option<Error>) {
    FieldListsMatchNames();
    if exists f :: f in d && !IsAttribute(f) then (r, Some(ValueError))
    else if !PlainPartFits(d) then (r, Some(TypeError))
    else AssignSpecialFields(AssignPlainFields(r, d, PlainFields), d, SpecialFields)
  }

  /** An unknown key is a ValueError raised before anything is assigned. */
  lemma UnserializedRejectsUnknown(r: LineRecord, d: map<string, Value>, f: string)
    requires f in d && !IsAttribute(f)
    ensures Unserialized(r, d) == (r, Some(ValueError))
  {
  }

  /** Assigning special attribute `f` of `d` changes no other special attribute. */
  lemma AssignSpecialKeepsOthers(r: LineRecord, d: map<string, Value>, f: string)
    requires IsSpecial(f) && f in d
    ensures AssignSpecial(r, f, d[f]).Ok? ==> KeepsAbsentSpecials(AssignSpecial(r, f, d[f]).value, r, d)
  {
    match f
    case "origin" =>
    case "destination" =>
    case "total_demand" =>
    case "ideal_cost" =>
    case "turnover" =>
    case "current_cost" =>
    case "last_audit_date" =>
    case _ =>
  }

  /** Assigning specials never touches the plain attributes, and leaves the specials not in `d` as they were. */
  lemma {:induction false} AssignSpecialFieldsKeeps(r: LineRecord, d: map<string, Value>, names: seq<string>)
    requires forall i :: 0 <= i < |names| ==> IsSpecial(names[i])
    ensures SamePlain(AssignSpecialFields(r, d, names).0, r)
    ensures KeepsAbsentSpecials(AssignSpecialFields(r, d, names).0, r, d)
    decreases |names|
  {
    if names != [] {
      if names[0] !in d {
        AssignSpecialFieldsKeeps(r, d, names[1..]);
      } else {
        var res := AssignSpecial(r, names[0], d[names[0]]);
        if res.Ok? {
          AssignSpecialKeepsOthers(r, d, names[0]);
          AssignSpecialFieldsKeeps(res.value, d, names[1..]);
        }
      }
    }
  }

  /** A special attribute absent from the dictionary keeps its value. */
  lemma UnserializedKeepsAbsentSpecials(r: LineRecord, d: map<string, Value>)
    ensures KeepsAbsentSpecials(Unserialized(r, d).0, r, d)
  {
    FieldListsMatchNames();
    if !(exists f :: f in d && !IsAttribute(f)) && PlainPartFits(d) {
      AssignmentsKeepAbsentSpecials(r, d, PlainFields, SpecialFields);
    }
  }

  /** The plain assignments, then the special ones, leave the specials not in `d` as they were. */
  lemma AssignmentsKeepAbsentSpecials(r: LineRecord, d: map<string, Value>, plain: seq<string>, special: seq<string>)
    requires PlainPartFits(d)
    requires forall i :: 0 <= i < |plain| ==> IsPlain(plain[i])
    requires forall i :: 0 <= i < |special| ==> IsSpecial(special[i])
    ensures KeepsAbsentSpecials(AssignSpecialFields(AssignPlainFields(r, d, plain), d, special).0, r, d)
  {
    var p := AssignPlainFields(r, d, plain);
    AssignPlainFieldsKeepSpecials(r, d, plain);
    AssignSpecialFieldsKeeps(p, d, special);
  }

  /** Copies the special attributes among `names` from `r` into `p`. */
  function CopySpecials(p: LineRecord, r: LineRecord, names: seq<string>): LineRecord
    decreases |names|
  {
    if names == [] then p
    else
      var f := names[0];
      var p' :=
        if f == "origin" then p.(origin := r.origin)
        else if f == "destination" then p.(destination := r.destination)
        else if f == "total_demand" then p.(totalDemand := r.totalDemand)
        else if f == "ideal_cost" then p.(idealCost := r.idealCost)
        else if f == "turnover" then p.(turnover := r.turnover)
        else if f == "current_cost" then p.(currentCost := r.currentCost)
        else if f == "last_audit_date" then p.(lastAuditDate := r.lastAuditDate)
        else if f == "last_updated_at" then p.(lastUpdatedAt := r.lastUpdatedAt)
        else p;
      CopySpecials(p', r, names[1..])
  }

  /** A serialised special attribute, read back, is the attribute it was. */
  lemma AssignSpecialOfSerialize(p: LineRecord, r: LineRecord, f: string)
    requires Serializable(r) && IsSpecial(f)
    ensures AssignSpecial(p, f, SpecialValue(r, f)) == Ok(CopySpecials(p, r, [f]))
  {
    match f
    case "origin" => Airports.UnserializedOfSerialize(r.origin.value, Airports.Default());
    case "destination" => Airports.UnserializedOfSerialize(r.destination.value, Airports.Default());
    case "total_demand" => CategorizedValues.FromDictOfSerialize(r.totalDemand.value);
    case "ideal_cost" => CategorizedValues.FromDictOfSerialize(r.idealCost.value);
    case "turnover" => CategorizedValues.FromDictOfSerialize(r.turnover.value);
    case "current_cost" => CategorizedValues.FromDictOfSerialize(r.currentCost.value);
    case "last_audit_date" => ParseIntOfIntToString(r.lastAuditDate.value);
    case _ => ParseIntOfIntToString(r.lastUpdatedAt.value);
  }

  /** Reading back the serialised special attributes among `names` copies them. */
  lemma {:induction false} AssignSpecialFieldsOfSerialize(p: LineRecord, r: LineRecord, d: map<string, Value>, names: seq<string>)
    requires Serializable(r)
    requires forall f :: IsSpecial(f) ==> f in d && d[f] == SpecialValue(r, f)
    requires forall i :: 0 <= i < |names| ==> IsSpecial(names[i])
    ensures AssignSpecialFields(p, d, names) == (CopySpecials(p, r, names), None)
    decreases |names|
  {
    if names != [] {
      var f := names[0];
      var p' := CopySpecials(p, r, [f]);
      AssignSpecialOfSerialize(p, r, f);
      assert AssignSpecialFields(p, d, names) == AssignSpecialFields(p', d, names[1..]);
      AssignSpecialFieldsOfSerialize(p', r, d, names[1..]);
      assert CopySpecials(p, r, names) == CopySpecials(p', r, names[1..]);
    }
  }

  /** Copying all eight special attributes keeps the plain ones and takes every special one. */
  lemma CopyAllSpecials(p: LineRecord, r: LineRecord)
    ensures var c := CopySpecials(p, r, SpecialFields);
            SameSpecials(c, r) && SamePlain(c, p)
  {
    var s := SpecialFields;
    assert s[1..][1..][1..][1..][1..][1..][1..][1..] == [];
  }

  /** A dictionary the base class accepts is assigned plain part first, then special attributes. */
  lemma UnserializedAccepted(into: LineRecord, d: map<string, Value>)
    requires forall f :: f in d ==> IsAttribute(f)
    requires PlainPartFits(d)
    ensures Unserialized(into, d) == AssignSpecialFields(AssignPlainFields(into, d, PlainFields), d, SpecialFields)
  {
    FieldListsMatchNames();
  }

  /** The serialised plain attributes fit their attributes. */
  lemma SerializedPlainPartFits(r: LineRecord, d: map<string, Value>)
    requires forall f :: f in d ==> IsAttribute(f)
    requires forall f :: IsPlain(f) ==> f in d && d[f] == PlainValue(r, f)
    ensures PlainPartFits(d)
  {
    forall f | f in d && !IsSpecial(f) ensures IsPlain(f) && PlainValueFits(f, d[f]) {
      match f
      case "name" => 
      case "display_name" =>
      case "can_update_prices" =>
      case _ =>
    }
  }

  /** A dictionary holding exactly the serialised attributes of `r` reads back as `r`, whatever line it is read into. */
  lemma UnserializedOfFields(r: LineRecord, into: LineRecord, d: map<string, Value>)
    requires Serializable(r)
    requires forall f :: f in d ==> IsAttribute(f)
    requires forall f :: IsPlain(f) ==> f in d && d[f] == PlainValue(r, f)
    requires forall f :: IsSpecial(f) ==> f in d && d[f] == SpecialValue(r, f)
    ensures Unserialized(into, d) == (r, None)
  {
    FieldListsMatchNames();
    SerializedPlainPartFits(r, d);
    UnserializedAccepted(into, d);
    var p := AssignPlainFields(into, d, PlainFields);
    AssignPlainFieldsValues(into, d, PlainFields);
    assert forall g :: IsPlain(g) ==> PlainValue(p, g) == PlainValue(r, g);
    AssignSpecialFieldsOfSerialize(p, r, d, SpecialFields);
    var c := CopySpecials(p, r, SpecialFields);
    CopyAllSpecials(p, r);
    SamePlainValues(c, p);
    PlainValuesDetermine(c, r);
  }

  /** `unserialize(serialize(l))` reproduces every attribute of `l`, whatever line it is read into. */
  lemma UnserializedOfSerialize(r: LineRecord, into: LineRecord)
    requires Serializable(r)
    ensures Unserialized(into, Serialize(r).value) == (r, None)
  {
    UnserializedOfFields(r, into, Serialize(r).value);
  }

  /** `os.getenv('LINES_OBJECTS_FOLDER', '/data/models/lines')`. */
  function Folder(env: map<string, string>): string {
    if "LINES_OBJECTS_FOLDER" in env then env["LINES_OBJECTS_FOLDER"] else "/data/models/lines"
  }

  /** `<folder>/<id>.json`. */
  function FilePath(id: int, env: map<string, string>): (p: string)
    ensures "LINES_OBJECTS_FOLDER" !in env ==> p == "/data/models/lines/" + IntToString(id) + ".json"
  {
    PathJoin(Folder(env), IntToString(id) + ".json")
  }

  /**
   * `load_from_file`: without an id it is a ValueError; a missing file leaves
   * the line as it is; text that is not JSON is a ValueError; a document that is
   * not an object has no `keys`; an object is unserialised.
   */
  function Loaded(r: LineRecord, files: map<string, FileContent>, env: map<string, string>): (res: (LineRecord, Option<Error>))
    ensures r.id.None? ==> res == (r, Some(ValueError))
    ensures r.id.Some? && FilePath(r.id.value, env) !in files ==> res == (r, None)
  {
    if r.id.None? then (r, Some(ValueError))
    else
      var path := FilePath(r.id.value, env);
      if path !in files then (r, None)
      else match files[path]
        case Unparsable => (r, Some(ValueError))
        case Document(Dict(d)) => Unserialized(r, d)
        case Document(_) => (r, Some(AttributeError))
  }

  /** The files after `persist_to_file`: without an id it is a ValueError; otherwise the serialised line at its path. */
  function Persisted(r: LineRecord, files: map<string, FileContent>, env: map<string, string>): (res: Result<map<string, FileContent>>)
    ensures r.id.None? ==> res == Err(ValueError)
    ensures res.Ok? <==> r.id.Some? && Serializable(r)
    ensures res.Ok? ==> res.value == files[FilePath(r.id.value, env) := Document(Dict(Serialize(r).value))]
  {
    if r.id.None? then Err(ValueError)
    else
      var d :- Serialize(r);
      Ok(files[FilePath(r.id.value, env) := Document(Dict(d))])
  }

  /** Loading what was persisted gives back the persisted line, into any line with the same id. */
  lemma LoadAfterPersist(r: LineRecord, into: LineRecord, files: map<string, FileContent>, env: map<string, string>)
    requires Persisted(r, files, env).Ok? && into.id == r.id
    ensures Loaded(into, Persisted(r, files, env).value, env) == (r, None)
  {
    UnserializedOfSerialize(r, into);
  }

  /** `Line(**kwargs)`: `unserialize(kwargs)`, then `load_from_file` when an `id` is given. */
  function Created(kwargs: map<string, Value>, files: map<string, FileContent>, env: map<string, string>): (LineRecord, Option<Error>) {
    var (r, err) := Unserialized(Default(), kwargs);
    if err.Some? then (r, err)
    else if "id" in kwargs then Loaded(r, files, env)
    else (r, None)
  }

  /** The base class accepts `{'id': i}`. */
  lemma IdAccepted(i: int)
    ensures forall f :: f in map["id" := Int(i)] ==> IsAttribute(f)
    ensures PlainPartFits(map["id" := Int(i)])
  {
    var kwargs := map["id" := Int(i)];
    forall f | f in kwargs && !IsSpecial(f) ensures IsPlain(f) && PlainValueFits(f, kwargs[f]) {
      assert f == "id";
    }
  }

  /** The base class's assignments of `{'id': i}` set the id and nothing else. */
  lemma AssignPlainId(r: LineRecord, i: int)
    ensures PlainPartFits(map["id" := Int(i)])
    ensures AssignPlainFields(r, map["id" := Int(i)], PlainFields) == r.(id := Some(i))
  {
    var kwargs := map["id" := Int(i)];
    var want := r.(id := Some(i));
    IdAccepted(i);
    FieldListsMatchNames();
    var p := AssignPlainFields(r, kwargs, PlainFields);
    AssignPlainFieldsValues(r, kwargs, PlainFields);
    AssignPlainFieldsKeepSpecials(r, kwargs, PlainFields);
    forall g | IsPlain(g) ensures PlainValue(p, g) == PlainValue(want, g) {
      if g != "id" {
        OtherPlainValue(r, g, i);
      }
    }
    PlainValuesDetermine(p, want);
  }

  /** `{'id': i}` has no special attribute, so the specials pass leaves the line alone. */
  lemma AssignSpecialId(r: LineRecord, i: int)
    ensures AssignSpecialFields(r, map["id" := Int(i)], SpecialFields) == (r, None)
  {
    var kwargs := map["id" := Int(i)];
    FieldListsMatchNames();
    forall j | 0 <= j < |SpecialFields| ensures IsSpecial(SpecialFields[j]) && SpecialFields[j] !in kwargs {
      assert SpecialFields[j] != "id";
    }
    AssignSpecialFieldsAbsent(r, kwargs, SpecialFields);
  }

  /** `unserialize({'id': i})` on a fresh line sets the id and nothing else. */
  lemma UnserializedId(i: int)
    ensures Unserialized(Default(), map["id" := Int(i)]) == (Default().(id := Some(i)), None)
  {
    IdAccepted(i);
    UnserializedAccepted(Default(), map["id" := Int(i)]);
    AssignPlainId(Default(), i);
    AssignSpecialId(Default().(id := Some(i)), i);
  }

  /** Setting the id leaves every other plain attribute's value alone. */
  lemma OtherPlainValue(r: LineRecord, g: string, i: int)
    requires IsPlain(g) && g != "id"
    ensures PlainValue(r.(id := Some(i)), g) == PlainValue(r, g)
  {
  }

  /** The line `Line(id=i)` builds: the stored line when its file holds one, otherwise a default line with that id. */
  lemma CreatedWithId(i: int, files: map<string, FileContent>, env: map<string, string>)
    ensures FilePath(i, env) !in files ==> Created(map["id" := Int(i)], files, env) == (Default().(id := Some(i)), None)
    ensures forall r: LineRecord :: r.id == Some(i) && Persisted(r, files, env).Ok? ==>
              Created(map["id" := Int(i)], Persisted(r, files, env).value, env) == (r, None)
  {
    UnserializedId(i);
    forall r: LineRecord | r.id == Some(i) && Persisted(r, files, env).Ok?
      ensures Created(map["id" := Int(i)], Persisted(r, files, env).value, env) == (r, None)
    {
      LoadAfterPersist(r, Default().(id := Some(i)), files, env);
    }
  }

  /** With no special attribute in the dictionary nothing can fail. */
  lemma {:induction false} AssignSpecialFieldsAbsent(r: LineRecord, d: map<string, Value>, names: seq<string>)
    requires forall i :: 0 <= i < |names| ==> IsSpecial(names[i]) && names[i] !in d
    ensures AssignSpecialFields(r, d, names) == (r, None)
    decreases |names|
  {
    if names != [] {
      AssignSpecialFieldsAbsent(r, d, names[1..]);
    }
  }
}
