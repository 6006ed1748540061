/** `Demand` (src/models/demand.py): a categorized value counting passengers and cargo. */
module Demands {
  import opened Results
  import opened Json
  import opened Strings
  import opened CategorizedValues

  /** `get_total_pax`: the passengers of the three cabin classes. */
  function TotalPax(d: CategorizedValue): int {
    d.economic + d.executive + d.firstClass
  }

  /** Passengers plus cargo make the four-bucket total; cargo is not counted as passengers. */
  lemma TotalPaxExcludesCargo(d: CategorizedValue)
    ensures TotalPax(d) + d.cargo == Total(d)
    ensures TotalPax(d.(cargo := d.cargo + 1)) == TotalPax(d)
  {
  }

  /** The words of `__str__`'s format "E + X + F Pax (T total) | C T", in order. */
  function TextWords(d: CategorizedValue): seq<string> {
    [IntToString(d.economic), "+", IntToString(d.executive), "+", IntToString(d.firstClass), "Pax",
     "(" + IntToString(TotalPax(d)), "total)", "|", IntToString(d.cargo), "T"]
  }

  /** `__str__`: the format's words separated by single spaces. */
  function ToText(d: CategorizedValue): string {
    Join(TextWords(d), ' ')
  }

  lemma NatToStringHasNoSpace(n: nat)
    ensures Free(NatToString(n), ' ')
  {
    var s := NatToString(n);
    assert AllDigits(s);
    forall j | 0 <= j < |s| ensures s[j] != ' ' {
      assert IsDigit(s[j]);
    }
  }

  lemma IntToStringHasNoSpace(i: int)
    ensures Free(IntToString(i), ' ')
  {
    if i < 0 { NatToStringHasNoSpace(-i); } else { NatToStringHasNoSpace(i); }
  }

  /**
   * The text lists the three passenger buckets, then their total, then the
   * cargo: split on spaces it gives back exactly those words, and each
   * number word reads back as the bucket it shows.
   */
  lemma ToTextReadsBack(d: CategorizedValue)
    ensures Split(ToText(d), ' ') == TextWords(d)
    ensures var w := Split(ToText(d), ' ');
            |w| == 11 && ParseInt(w[0]) == Some(d.economic) && ParseInt(w[2]) == Some(d.executive)
            && ParseInt(w[4]) == Some(d.firstClass) && ParseInt(w[6][1..]) == Some(TotalPax(d))
            && ParseInt(w[9]) == Some(d.cargo)
  {
    var w := TextWords(d);
    IntToStringHasNoSpace(d.economic);
    IntToStringHasNoSpace(d.executive);
    IntToStringHasNoSpace(d.firstClass);
    IntToStringHasNoSpace(TotalPax(d));
    IntToStringHasNoSpace(d.cargo);
    assert Free(w[6], ' ');
    SplitOfJoin(w, ' ');
    assert w[6][1..] == IntToString(TotalPax(d));
    ParseIntOfIntToString(d.economic);
    ParseIntOfIntToString(d.executive);
    ParseIntOfIntToString(d.firstClass);
    ParseIntOfIntToString(TotalPax(d));
    ParseIntOfIntToString(d.cargo);
  }

  /** `create_demand_from_dict`: a fresh Demand, then `unserialize(d)`. */
  function CreateDemandFromDict(d: map<string, Value>): (r: Result<CategorizedValue>)
    ensures r.Ok? <==> IsBucketDict(d)
    ensures r.Ok? ==> r.value.economic == BucketOr0(d, "economic") && r.value.executive == BucketOr0(d, "executive")
                      && r.value.firstClass == BucketOr0(d, "first_class") && r.value.cargo == BucketOr0(d, "cargo")
    ensures (exists k :: k in d && k !in {"economic", "executive", "first_class", "cargo"}) ==> r == Err(ValueError)
  {
    assert BaseModels.FieldSet(SerializableFields) == {"economic", "executive", "first_class", "cargo"} by {
      assert SerializableFields[0] == "economic" && SerializableFields[1] == "executive";
      assert SerializableFields[2] == "first_class" && SerializableFields[3] == "cargo";
    }
    FromDict(d)
  }
}
