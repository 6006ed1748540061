/**
 * `CategorizedValue` (src/models/categorized_value.py): four integer buckets,
 * one per cabin class plus cargo, compared bucket by bucket.
 */
module CategorizedValues {
  import opened Results
  import opened Json
  import opened Strings
  import BaseModels

  datatype CategorizedValue = CategorizedValue(economic: int, executive: int, firstClass: int, cargo: int)

  /** `serializable_fields`: the four bucket names. */
  const SerializableFields: seq<string> := ["economic", "executive", "first_class", "cargo"]

  /** A freshly constructed value: the class attributes are all 0. */
  function Default(): (v: CategorizedValue)
    ensures v.economic == 0 && v.executive == 0 && v.firstClass == 0 && v.cargo == 0
  {
    CategorizedValue(0, 0, 0, 0)
  }

  function Abs(x: int): nat {
    if x < 0 then -x else x
  }

  /** `__eq__`: the sum of the four absolute bucket differences is zero. */
  predicate Equals(a: CategorizedValue, b: CategorizedValue) {
    Abs(a.economic - b.economic) + Abs(a.executive - b.executive)
      + Abs(a.firstClass - b.firstClass) + Abs(a.cargo - b.cargo) == 0
  }

  /** Two values are equal exactly when every bucket is equal. */
  lemma EqualsIffSameBuckets(a: CategorizedValue, b: CategorizedValue)
    ensures Equals(a, b) <==> (a.economic == b.economic && a.executive == b.executive
                               && a.firstClass == b.firstClass && a.cargo == b.cargo)
    ensures Equals(a, b) <==> a == b
  {
  }

  /** `__eq__` is an equivalence: reflexive, symmetric and transitive. */
  lemma EqualsIsEquivalence(a: CategorizedValue, b: CategorizedValue, c: CategorizedValue)
    ensures Equals(a, a)
    ensures Equals(a, b) ==> Equals(b, a)
    ensures Equals(a, b) && Equals(b, c) ==> Equals(a, c)
  {
    EqualsIffSameBuckets(a, b);
    EqualsIffSameBuckets(b, c);
    EqualsIffSameBuckets(a, c);
  }

  /** The sum of the four buckets. */
  function Total(v: CategorizedValue): int {
    v.economic + v.executive + v.firstClass + v.cargo
  }

  /** Equal totals do not make values equal: moving one unit between buckets keeps the total. */
  lemma EqualTotalsAreNotEnough(v: CategorizedValue)
    ensures var w := v.(economic := v.economic - 1, executive := v.executive + 1);
            Total(w) == Total(v) && !Equals(w, v)
  {
  }

  /** `__str__`: the decimal total. */
  function ToText(v: CategorizedValue): string {
    IntToString(Total(v))
  }

  /** The text of a value reads back as its total. */
  lemma ToTextReadsBackAsTotal(v: CategorizedValue)
    ensures ParseInt(ToText(v)) == Some(Total(v))
  {
    ParseIntOfIntToString(Total(v));
  }

  /** The attributes of a value, as `getattr` sees them. */
  function Attributes(v: CategorizedValue): map<string, Value> {
    map["economic" := Int(v.economic), "executive" := Int(v.executive),
        "first_class" := Int(v.firstClass), "cargo" := Int(v.cargo)]
  }

  /** `serialize`. */
  function Serialize(v: CategorizedValue): map<string, Value> {
    BaseModels.Serialized(Attributes(v), SerializableFields)
  }

  /** Reads the four buckets back from attributes; a non-integer bucket is a TypeError. */
  function FromAttributes(m: map<string, Value>): Result<CategorizedValue>
    requires Attributes(Default()).Keys <= m.Keys
  {
    if m["economic"].Int? && m["executive"].Int? && m["first_class"].Int? && m["cargo"].Int?
    then Ok(CategorizedValue(m["economic"].i, m["executive"].i, m["first_class"].i, m["cargo"].i))
    else Err(TypeError)
  }

  /** A bucket dictionary: only bucket names, each holding an integer. */
  predicate IsBucketDict(d: map<string, Value>) {
    d.Keys <= BaseModels.FieldSet(SerializableFields) && forall k :: k in d ==> d[k].Int?
  }

  /** The bucket a dictionary gives, or the default 0 when it is absent. */
  function BucketOr0(d: map<string, Value>, key: string): int {
    if key in d && d[key].Int? then d[key].i else 0
  }

  /** A fresh value, then `unserialize(d)`: what the `create_*_from_dict` factories do. */
  function FromDict(d: map<string, Value>): (r: Result<CategorizedValue>)
    ensures r.Ok? <==> IsBucketDict(d)
    ensures r.Ok? ==> r.value == CategorizedValue(BucketOr0(d, "economic"), BucketOr0(d, "executive"),
                                                   BucketOr0(d, "first_class"), BucketOr0(d, "cargo"))
    ensures (exists k :: k in d && k !in BaseModels.FieldSet(SerializableFields)) ==> r == Err(ValueError)
  {
    var names := BaseModels.FieldSet(SerializableFields);
    assert names == {"economic", "executive", "first_class", "cargo"} by {
      assert SerializableFields[0] == "economic" && SerializableFields[1] == "executive";
      assert SerializableFields[2] == "first_class" && SerializableFields[3] == "cargo";
    }
    BaseModels.UnserializedRejectsUnknown(Attributes(Default()), d);
    match BaseModels.Unserialized(Attributes(Default()), d)
    case Err(e) => Err(e)
    case Ok(m) => FromAttributes(m)
  }

  /** Reading back a serialised value gives the same value. */
  lemma FromDictOfSerialize(v: CategorizedValue)
    ensures FromDict(Serialize(v)) == Ok(v)
  {
    var d := Serialize(v);
    var names := BaseModels.FieldSet(SerializableFields);
    assert SerializableFields[0] == "economic" && SerializableFields[1] == "executive";
    assert SerializableFields[2] == "first_class" && SerializableFields[3] == "cargo";
    assert names == {"economic", "executive", "first_class", "cargo"};
    assert d == Attributes(v);
  }

  /** The empty dictionary gives the default value. */
  lemma FromEmptyDictIsDefault()
    ensures FromDict(map[]) == Ok(Default())
  {
  }
}
