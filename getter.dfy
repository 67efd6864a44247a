/**
 * The data provider `get_data` that the Age and Finish windows render from,
 * and the items of the age selector.
 */
module Getter {
  import opened Wrappers

  /** The item ids of the age `Select` widget, in the order it lists them. */
  const AgeItems: seq<string> := ["0-12", "12-18", "18-25", "25-40", "40+"]

  /** The brackets for which `can_smoke` is true. */
  const AdultItems: seq<string> := ["18-25", "25-40", "40+"]

  /** What `get_data` returns: the values the window templates format. */
  datatype WindowData = WindowData(name: string, age: Option<string>, canSmoke: bool)

  /** The stored value under `key`, or None when the key is absent. */
  function Lookup(data: map<string, string>, key: string): (r: Option<string>)
    ensures r.Some? <==> key in data
    ensures r.Some? ==> r.value == data[key]
  {
    if key in data then Some(data[key]) else None
  }

  /** `get_data`: depends on the data map alone and changes nothing. */
  function GetData(data: map<string, string>): (r: WindowData)
    ensures r.name == (if "name" in data then data["name"] else "")
    ensures r.age.Some? <==> "age" in data
    ensures r.age.Some? ==> r.age.value == data["age"]
    ensures r.canSmoke <==> "age" in data && data["age"] in AdultItems
  {
    var age := Lookup(data, "age");
    WindowData(
      match Lookup(data, "name") case Some(n) => n case None => "",
      age,
      age.Some? && age.value in AdultItems)
  }

  predicate IsDigit(c: char) {
    '0' <= c <= '9'
  }

  /** The number written by the decimal digits at the head of `s`, after `acc`
      of digits already read. */
  function LeadingNumber(s: string, acc: nat): nat
    decreases |s|
  {
    if s == [] || !IsDigit(s[0]) then acc
    else LeadingNumber(s[1..], acc * 10 + (s[0] as int - '0' as int))
  }

  /** The youngest age a bracket covers: the number it starts with. */
  function LowerBound(item: string): nat {
    LeadingNumber(item, 0)
  }

  /** Among the selector's items, `can_smoke` holds exactly for the brackets
      that start at 18 or later. */
  lemma CanSmokeExactlyFromEighteen(item: string)
    requires item in AgeItems
    ensures GetData(map["age" := item]).canSmoke <==> LowerBound(item) >= 18
  {
  }

  /** Every bracket for which `can_smoke` holds is one the selector offers. */
  lemma AdultItemsAreAgeItems()
    ensures forall a :: a in AdultItems ==> a in AgeItems
  {
  }

  /** With no age stored, `can_smoke` is false and the age is absent. */
  lemma NoAgeNoSmoking(data: map<string, string>)
    requires "age" !in data
    ensures !GetData(data).canSmoke && GetData(data).age == None
  {
  }
}
