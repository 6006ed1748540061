/**
 * `BaseModel` (src/models/base_model.py): an object whose attributes are set
 * from a dictionary and written back to one. Attributes are modelled as a map
 * from attribute name to value: the data attributes `hasattr` answers true
 * for (method and class-attribute names are not in the map).
 */
module BaseModels {
  import opened Results
  import opened Json

  /** The names of a list of fields, as a set. */
  function FieldSet(fields: seq<string>): set<string> {
    set i | 0 <= i < |fields| :: fields[i]
  }

  /** The dictionary `serialize` builds: every serialisable field, with its value or `None` when absent. */
  function Serialized(attributes: map<string, Value>, fields: seq<string>): map<string, Value> {
    map f | f in FieldSet(fields) :: if f in attributes then attributes[f] else Null
  }

  /** The attributes after `unserialize(d)`: rejected as a whole if one key is not an attribute. */
  function Unserialized(attributes: map<string, Value>, d: map<string, Value>): Result<map<string, Value>> {
    if d.Keys <= attributes.Keys then Ok(attributes + d) else Err(ValueError)
  }

  /** `unserialize` fails exactly when some key is not an attribute, and then changes nothing. */
  lemma UnserializedRejectsUnknown(attributes: map<string, Value>, d: map<string, Value>)
    ensures Unserialized(attributes, d).Err? <==> exists k :: k in d && k !in attributes
    ensures Unserialized(attributes, d).Err? ==> Unserialized(attributes, d).error == ValueError
  {
    if !(d.Keys <= attributes.Keys) {
      var k :| k in d.Keys && k !in attributes.Keys;
      assert k in d && k !in attributes;
    }
  }

  /** On success each given key takes its new value and every other attribute keeps its old one. */
  lemma UnserializedAssigns(attributes: map<string, Value>, d: map<string, Value>)
    requires Unserialized(attributes, d).Ok?
    ensures Unserialized(attributes, d).value.Keys == attributes.Keys
    ensures forall k :: k in d ==> Unserialized(attributes, d).value[k] == d[k]
    ensures forall k :: k in attributes && k !in d ==> Unserialized(attributes, d).value[k] == attributes[k]
  {
  }

  /** `unserialize(serialize())` leaves every attribute as it was. */
  lemma UnserializeOfSerialize(attributes: map<string, Value>, fields: seq<string>)
    requires FieldSet(fields) <= attributes.Keys
    ensures Unserialized(attributes, Serialized(attributes, fields)) == Ok(attributes)
  {
    var d := Serialized(attributes, fields);
    assert d.Keys == FieldSet(fields);
    assert attributes + d == attributes;
  }

  /** One instance of a `BaseModel` subclass. */
  class Model {
    const serializableFields: seq<string>
    var attributes: map<string, Value>

    /** An instance holding its class's default attribute values. */
    constructor (defaults: map<string, Value>, serializableFields: seq<string>)
      ensures this.attributes == defaults && this.serializableFields == serializableFields
    {
      this.attributes := defaults;
      this.serializableFields := serializableFields;
    }

    /** `BaseModel(**kwargs)`: a fresh instance, then `unserialize(kwargs)`. */
    static method New(defaults: map<string, Value>, serializableFields: seq<string>, kwargs: map<string, Value>)
      returns (r: Result<Model>)
      ensures r.Ok? <==> kwargs.Keys <= defaults.Keys
      ensures r.Ok? ==> fresh(r.value) && r.value.serializableFields == serializableFields
      ensures r.Ok? ==> Unserialized(defaults, kwargs) == Ok(r.value.attributes)
    {
      var m := new Model(defaults, serializableFields);
      var err := m.Unserialize(kwargs);
      if err.Some? {
        return Err(err.value);
      }
      return Ok(m);
    }

    /** `serialize`: one entry per serialisable field, holding the attribute's value or `None`. */
    method Serialize() returns (d: map<string, Value>)
      ensures d.Keys == FieldSet(serializableFields)
      ensures forall f :: f in d ==> d[f] == (if f in attributes then attributes[f] else Null)
    {
      d := map[];
      for i := 0 to |serializableFields|
        invariant d.Keys == FieldSet(serializableFields[..i])
        invariant forall f :: f in d ==> d[f] == (if f in attributes then attributes[f] else Null)
      {
        var field := serializableFields[i];
        d := d[field := if field in attributes then attributes[field] else Null];
        assert serializableFields[..i + 1] == serializableFields[..i] + [field];
      }
      assert serializableFields[..|serializableFields|] == serializableFields;
    }

    /** `unserialize(d)`: every key must name an attribute; then each is assigned in turn. */
    method Unserialize(d: map<string, Value>) returns (err: Option<Error>)
      modifies this
      ensures err == (if d.Keys <= old(attributes).Keys then None else Some(ValueError))
      ensures Unserialized(old(attributes), d) == (if err.None? then Ok(attributes) else Err(ValueError))
      ensures err.Some? ==> attributes == old(attributes)
    {
      if !(d.Keys <= attributes.Keys) {
        return Some(ValueError);
      }
      var pending := d.Keys;
      while pending != {}
        invariant pending <= d.Keys
        invariant attributes.Keys == old(attributes).Keys
        invariant forall k :: k in d && k !in pending ==> attributes[k] == d[k]
        invariant forall k :: k in attributes && (k !in d || k in pending) ==> attributes[k] == old(attributes)[k]
        decreases pending
      {
        var field :| field in pending;
        attributes := attributes[field := d[field]];
        pending := pending - {field};
      }
      assert attributes == old(attributes) + d;
      return None;
    }
  }
}
