// Which control a parameter gets (ParamInput.tsx): a first-match chain of substring tests.
module ParamInputs {
  import opened Texts

  // The controls that differ in what is rendered; the string branch and the fallback render the same one.
  datatype Control = Flag | Address | Balance | Number | PlainText | List | Json

  predicate AnyOf(s: string, parts: seq<string>) { exists k :: 0 <= k < |parts| && Includes(s, parts[k]) }

  const NUMBERS: seq<string> := ["u8", "u16", "u32", "u64", "u128", "i8", "i16", "i32", "i64", "i128", "compact<"]

  // `lowerTyp` and `lowerName` are the lower-cased type and name, whatever lower-casing is used.
  function Classify(typ: string, lowerTyp: string, name: string, lowerName: string, mod: string): Control {
    if Includes(lowerTyp, "bool") then Flag
    else if Includes(lowerTyp, "account") || Includes(lowerTyp, "address") || Includes(lowerTyp, "multiaddress")
      || Includes(lowerName, "dest") || Includes(lowerName, "target") then Address
    else if (mod == "balances" && (name == "value" || name == "amount")) || Includes(lowerTyp, "balance")
      || Includes(lowerTyp, "compact<u128>") || Includes(lowerTyp, "compact<balance>") then Balance
    else if AnyOf(lowerTyp, NUMBERS) then Number
    else if Includes(lowerTyp, "string") || Includes(lowerTyp, "str") then PlainText
    else if Includes(lowerTyp, "vec") || Includes(lowerTyp, "array") then List
    else if Includes(lowerTyp, "struct") || Includes(lowerTyp, "enum") || Includes(typ, "{") then Json
    else PlainText
  }

  // The same chain without the tests another test implies, and with no fallback of its own.
  function Reduced(typ: string, lowerTyp: string, name: string, lowerName: string, mod: string): Control {
    if Includes(lowerTyp, "bool") then Flag
    else if Includes(lowerTyp, "account") || Includes(lowerTyp, "address")
      || Includes(lowerName, "dest") || Includes(lowerName, "target") then Address
    else if (mod == "balances" && (name == "value" || name == "amount")) || Includes(lowerTyp, "balance")
      || Includes(lowerTyp, "compact<u128>") then Balance
    else if AnyOf(lowerTyp, NUMBERS) then Number
    else if Includes(lowerTyp, "str") then PlainText
    else if Includes(lowerTyp, "vec") || Includes(lowerTyp, "array") then List
    else if Includes(lowerTyp, "enum") || Includes(typ, "{") then Json
    else PlainText
  }

  lemma Implied(s: string, long: string, short: string, i: nat)
    requires OccursAt(long, short, i)
    ensures Includes(s, long) ==> Includes(s, short)
  {
    if Includes(s, long) {
      PartIncluded(long, short, i);
      IncludesTransitive(s, long, short);
    }
  }

  // Four of the tests never matter, for any type, name, module and lower-casing.
  lemma NormalForm(typ: string, lowerTyp: string, name: string, lowerName: string, mod: string)
    ensures Classify(typ, lowerTyp, name, lowerName, mod) == Reduced(typ, lowerTyp, name, lowerName, mod)
  {
    Implied(lowerTyp, "multiaddress", "address", 5);
    Implied(lowerTyp, "compact<balance>", "balance", 8);
    Implied(lowerTyp, "string", "str", 0);
    Implied(lowerTyp, "struct", "str", 0);
  }

  // A struct never gets the JSON control that the struct test is there to give it.
  lemma StructIsNeverJson(typ: string, lowerTyp: string, name: string, lowerName: string, mod: string)
    requires Includes(lowerTyp, "struct")
    ensures Classify(typ, lowerTyp, name, lowerName, mod) !in {List, Json}
  {
    Implied(lowerTyp, "struct", "str", 0);
  }

  // A vector of numbers never gets the list control, nor does a vector of accounts.
  lemma VectorsOfScalarsAreNotLists(typ: string, lowerTyp: string, name: string, lowerName: string, mod: string, k: nat)
    requires k < |NUMBERS| && (Includes(lowerTyp, "vec<" + NUMBERS[k]) || Includes(lowerTyp, "vec<account"))
    ensures Classify(typ, lowerTyp, name, lowerName, mod) != List
  {
    Implied(lowerTyp, "vec<" + NUMBERS[k], NUMBERS[k], 4);
    Implied(lowerTyp, "vec<account", "account", 4);
  }
}
