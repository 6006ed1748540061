/** `Price` (src/models/price.py): a categorized value of money, compared with the inherited `__eq__`. */
module Prices {
  import opened Results
  import opened Json
  import opened Strings
  import opened CategorizedValues

  /** `__str__`: "$ " followed by the four-bucket total. */
  function ToText(p: CategorizedValue): string {
    "$ " + IntToString(Total(p))
  }

  /** The price text is the dollar sign, a space and a number that reads back as the total. */
  lemma ToTextReadsBackAsTotal(p: CategorizedValue)
    ensures ToText(p)[..2] == "$ "
    ensures ParseInt(ToText(p)[2..]) == Some(Total(p))
  {
    assert ToText(p)[2..] == IntToString(Total(p));
    ParseIntOfIntToString(Total(p));
  }

  /** `create_price_from_dict`: a fresh Price, then `unserialize(d)`. */
  function CreatePriceFromDict(d: map<string, Value>): (r: Result<CategorizedValue>)
    ensures r.Ok? <==> IsBucketDict(d)
    ensures r.Ok? ==> r.value == CategorizedValue(BucketOr0(d, "economic"), BucketOr0(d, "executive"),
                                                   BucketOr0(d, "first_class"), BucketOr0(d, "cargo"))
    ensures "economic" !in d && r.Ok? ==> r.value.economic == 0
    ensures (exists k :: k in d && k !in {"economic", "executive", "first_class", "cargo"}) ==> r == Err(ValueError)
  {
    assert BaseModels.FieldSet(SerializableFields) == {"economic", "executive", "first_class", "cargo"} by {
      assert SerializableFields[0] == "economic" && SerializableFields[1] == "executive";
      assert SerializableFields[2] == "first_class" && SerializableFields[3] == "cargo";
    }
    FromDict(d)
  }
}
