// What the parameter effect resolves a selection to: the names of the hardcoded parameters, the controls
// they get, and the arguments a balances transfer is built with.
module KnownParameterProofs {
  import opened Options
  import opened Texts
  import opened ParamInputs
  import opened Extrinsics
  import opened ExtrinsicsProofs
  import opened ExtrinsicsDesks

  // ---- Names, in order ----

  predicate Named(params: Option<seq<Param>>, names: seq<string>) {
    params.Some? && |params.value| == |names| && forall i :: 0 <= i < |names| ==> params.value[i].name == names[i]
  }

  lemma BalancesTransferNames(methodName: string)
    ensures methodName in {"transfer", "transferKeepAlive", "transferAllowDeath"} ==>
      Named(KnownParameters("balances", methodName), ["dest", "value"])
    ensures methodName == "forceTransfer" ==> Named(KnownParameters("balances", methodName), ["source", "dest", "value"])
    ensures methodName == "transferAll" ==> Named(KnownParameters("balances", methodName), ["dest", "keepAlive"])
  {
  }

  lemma BalancesSetterNames(methodName: string)
    ensures methodName == "setBalance" ==> Named(KnownParameters("balances", methodName), ["who", "newFree", "newReserved"])
    ensures methodName == "forceSetBalance" ==> Named(KnownParameters("balances", methodName), ["who", "newFree"])
    ensures methodName == "forceUnreserve" ==> Named(KnownParameters("balances", methodName), ["who", "amount"])
    ensures methodName == "upgradeAccounts" ==> Named(KnownParameters("balances", methodName), ["who"])
    ensures methodName == "forceAdjustTotalIssuance" ==> Named(KnownParameters("balances", methodName), ["adjustment"])
    ensures methodName == "burn" ==> Named(KnownParameters("balances", methodName), ["amount"])
  {
  }

  lemma OtherNames(methodName: string)
    ensures methodName in {"remark", "remarkWithEvent"} ==> Named(KnownParameters("system", methodName), ["remark"])
    ensures methodName == "setCode" ==> Named(KnownParameters("system", methodName), ["code"])
    ensures methodName == "setStorage" ==> Named(KnownParameters("system", methodName), ["items"])
    ensures methodName == "killStorage" ==> Named(KnownParameters("system", methodName), ["keys"])
    ensures methodName == "killPrefix" ==> Named(KnownParameters("system", methodName), ["prefix", "subkeys"])
    ensures Named(KnownParameters("timestamp", "set"), ["now"])
    ensures Named(KnownParameters("sudo", "sudo"), ["call"])
    ensures Named(KnownParameters("sudo", "sudoAs"), ["who", "call"])
    ensures Named(KnownParameters("sudo", "sudoUncheckedWeight"), ["call", "weight"])
    ensures Named(KnownParameters("assets", "create"), ["id", "admin", "minBalance"])
    ensures Named(KnownParameters("assets", "transfer"), ["id", "target", "amount"])
  {
  }

  // ---- Controls ----

  // The control the page renders for a parameter of a module's method.
  function ControlOf(moduleName: string, p: Param): Control {
    Classify(p.typ, ToLower(p.typ), p.name, ToLower(p.name), moduleName)
  }

  // The control that the name of a known parameter calls for.
  function ControlFor(name: string): Control {
    if name in {"dest", "source", "target", "who", "admin"} then Address
    else if name in {"value", "amount", "newFree", "newReserved"} then Balance
    else if name in {"id", "now", "subkeys", "minBalance", "adjustment"} then Number
    else if name in {"items", "keys"} then List
    else if name == "keepAlive" then Flag
    else PlainText
  }

  lemma Lacks(s: string, part: string, c: char)
    requires c in part && c !in s
    ensures !Includes(s, part)
  {
  }

  // No two characters of s stand where part would have them.
  lemma LacksPair(s: string, part: string, k: nat)
    requires k + 1 < |part| && forall i :: 0 <= i < |s| - 1 && s[i] == part[k] ==> s[i + 1] != part[k + 1]
    ensures !Includes(s, part)
  {
    forall i | 0 <= i <= |s| ensures !OccursAt(s, part, i) {
      if i + |part| <= |s| {
        var found := s[i..i + |part|];
        assert found[k] == s[i + k] && found[k + 1] == s[i + k + 1];
      }
    }
  }

  lemma OccursBetween(before: string, part: string, after: string)
    ensures Includes(before + part + after, part)
  {
    assert OccursAt(before + part + after, part, |before|);
  }

  lemma LowerConcat(s: string, t: string)
    ensures ToLower(s + t) == ToLower(s) + ToLower(t)
  {
  }

  // A name that does not make its parameter an account.
  predicate Neutral(name: string) { !Includes(ToLower(name), "dest") && !Includes(ToLower(name), "target") }

  lemma NeutralBy(name: string, lower: string, c: char, d: char)
    requires ToLower(name) == lower && c in "dest" && c !in lower && d in "target" && d !in lower
    ensures Neutral(name)
  {
    Lacks(lower, "dest", c);
    Lacks(lower, "target", d);
  }

  lemma NeutralBalances(name: string)
    requires name in {"value", "amount", "newFree", "newReserved"}
    ensures Neutral(name)
  {
    match name
    case "value" => NeutralBy(name, "value", 'd', 't');
    case "amount" => NeutralBy(name, "amount", 'd', 'r');
    case "newFree" => NeutralBy(name, "newfree", 'd', 't');
    case "newReserved" => NeutralBy(name, "newreserved", 't', 't');
  }

  lemma NeutralNumbers(name: string)
    requires name in {"id", "now", "subkeys", "minBalance"}
    ensures Neutral(name)
  {
    match name
    case "id" => NeutralBy(name, "id", 'e', 't');
    case "now" => NeutralBy(name, "now", 'd', 't');
    case "subkeys" => NeutralBy(name, "subkeys", 'd', 't');
    case "minBalance" => NeutralBy(name, "minbalance", 'd', 't');
  }

  lemma NeutralAdjustment()
    ensures Neutral("adjustment")
  {
    assert ToLower("adjustment") == "adjustment";
    LacksPair("adjustment", "dest", 0);
    Lacks("adjustment", "target", 'r');
  }

  lemma NeutralTexts(name: string)
    requires name in {"remark", "code", "prefix", "call", "weight", "items", "keys"}
    ensures Neutral(name)
  {
    match name
    case "remark" => NeutralBy(name, "remark", 'd', 't');
    case "code" => NeutralBy(name, "code", 't', 't');
    case "prefix" => NeutralBy(name, "prefix", 'd', 't');
    case "call" => NeutralBy(name, "call", 'd', 't');
    case "weight" => NeutralBy(name, "weight", 'd', 'a');
    case "items" => NeutralBy(name, "items", 'd', 'a');
    case "keys" => NeutralBy(name, "keys", 'd', 't');
  }

  lemma AddressControl(moduleName: string, name: string)
    ensures ControlOf(moduleName, Param(name, "MultiAddress")) == Address
  {
    assert ToLower("MultiAddress") == "multiaddress";
    Lacks("multiaddress", "bool", 'b');
    assert OccursAt("multiaddress", "address", 5);
  }

  lemma AccountControl(moduleName: string, name: string)
    ensures ControlOf(moduleName, Param(name, "Vec<AccountId32>")) == Address
  {
    var lower := "vec<" + "account" + "id32>";
    assert ToLower("Vec<AccountId32>") == lower by {
      LowerConcat("Vec<Account", "Id32>");
      assert "Vec<AccountId32>" == "Vec<Account" + "Id32>";
      assert ToLower("Vec<Account") == "vec<" + "account" && ToLower("Id32>") == "id32>";
    }
    OccursBetween("vec<", "account", "id32>");
    Lacks(lower, "bool", 'b');
  }

  lemma NoAddress(lower: string)
    requires 'd' !in lower
    ensures !Includes(lower, "address") && !Includes(lower, "multiaddress")
  {
    Lacks(lower, "address", 'd');
    Lacks(lower, "multiaddress", 'd');
  }

  lemma BalanceTypeControl(moduleName: string, name: string)
    requires Neutral(name)
    ensures ControlOf(moduleName, Param(name, "Compact<Balance>")) == Balance
  {
    var lower := "compact<balance>";
    assert ToLower("Compact<Balance>") == lower;
    LacksPair(lower, "bool", 1);
    Lacks(lower, "account", 'u');
    NoAddress(lower);
    PartIncluded(lower, "balance", 8);
  }

  // Characters that neither a flag, nor an account, nor a balance can do without are missing.
  predicate Bare(lower: string) {
    ('b' !in lower || ('o' !in lower && 'a' !in lower)) && 'n' !in lower && 'd' !in lower
  }

  lemma NothingSpecial(lower: string)
    requires Bare(lower)
    ensures !Includes(lower, "bool") && !Includes(lower, "account") && !Includes(lower, "address")
    ensures !Includes(lower, "multiaddress") && !Includes(lower, "balance") && !Includes(lower, "compact<balance>")
  {
    Lacks(lower, "bool", if 'b' in lower then 'o' else 'b');
    Lacks(lower, "account", 'n');
    NoAddress(lower);
    Lacks(lower, "balance", if 'b' in lower then 'a' else 'b');
    Lacks(lower, "compact<balance>", if 'b' in lower then 'a' else 'b');
  }

  lemma CompactU128Control(moduleName: string, name: string)
    requires Neutral(name)
    ensures ControlOf(moduleName, Param(name, "Compact<u128>")) == Balance
  {
    var lower := "compact<u128>";
    assert ToLower("Compact<u128>") == lower;
    NothingSpecial(lower);
    PartIncluded(lower, "compact<u128>", 0);
  }

  lemma AmountControl(typ: string, lower: string)
    requires ToLower(typ) == lower && Bare(lower)
    ensures ControlOf("balances", Param("amount", typ)) == Balance
  {
    NeutralBalances("amount");
    NothingSpecial(lower);
  }

  lemma NumberControl(moduleName: string, name: string, typ: string, lower: string, k: nat)
    requires Neutral(name) && !(moduleName == "balances" && name in {"value", "amount"})
    requires ToLower(typ) == lower && Bare(lower) && !Includes(lower, "compact<u128>")
    requires k < |NUMBERS| && Includes(lower, NUMBERS[k])
    ensures ControlOf(moduleName, Param(name, typ)) == Number
  {
    NothingSpecial(lower);
  }

  // Characters that no test for a number can do without are missing.
  predicate Wordy(lower: string) { '8' !in lower && '6' !in lower && '2' !in lower && 'p' !in lower }

  lemma NotANumber(lower: string)
    requires Wordy(lower)
    ensures !AnyOf(lower, NUMBERS) && !Includes(lower, "compact<u128>")
  {
    forall k | 0 <= k < |NUMBERS| ensures !Includes(lower, NUMBERS[k]) {
      Lacks(lower, NUMBERS[k], if '8' in NUMBERS[k] then '8' else if '6' in NUMBERS[k] then '6' else if '2' in NUMBERS[k] then '2' else 'p');
    }
    Lacks(lower, "compact<u128>", 'p');
  }

  lemma TextControl(moduleName: string, name: string, typ: string, lower: string)
    requires Neutral(name) && name !in {"value", "amount"} && Word(typ, lower)
    ensures ControlOf(moduleName, Param(name, typ)) == PlainText
  {
    NothingSpecial(lower);
    NotANumber(lower);
    Lacks(lower, "string", 'r');
    Lacks(lower, "str", 'r');
    Lacks(lower, "vec", 'v');
    Lacks(lower, "array", 'r');
    Lacks(lower, "struct", 'r');
    Lacks(lower, "enum", 'u');
    Lacks(typ, "{", '{');
  }

  lemma ListControl(moduleName: string, name: string, typ: string, lower: string)
    requires Neutral(name) && name !in {"value", "amount"} && ToLower(typ) == lower
    requires Bare(lower) && Wordy(lower) && 's' !in lower && Includes(lower, "vec")
    ensures ControlOf(moduleName, Param(name, typ)) == List
  {
    NothingSpecial(lower);
    NotANumber(lower);
    Lacks(lower, "string", 's');
    Lacks(lower, "str", 's');
  }

  // Each parameter of a known method gets the control that its name calls for, whatever its type.
  lemma BalancesControls(methodName: string, p: Param)
    requires KnownParameters("balances", methodName).Some? && p in KnownParameters("balances", methodName).value
    ensures ControlOf("balances", p) == ControlFor(p.name)
  {
    assert p in {Param("source", "MultiAddress"), TO, WHO, AMOUNT, Param("newFree", "Compact<Balance>"),
      Param("newReserved", "Compact<Balance>"), Param("amount", "Compact<Balance>"), Param("amount", "u128"),
      Param("who", "Vec<AccountId32>"), Param("adjustment", "i128"), Param("keepAlive", "bool")};
    if p.typ == "MultiAddress" {
      AddressControl("balances", p.name);
    } else if p.typ == "Compact<Balance>" {
      NeutralBalances(p.name);
      BalanceTypeControl("balances", p.name);
    } else if p.name == "who" {
      AccountControl("balances", p.name);
    } else if p.name == "amount" {
      AmountControl(p.typ, "u128");
    } else if p.name == "adjustment" {
      NeutralAdjustment();
      IntegerControl("balances", p.name, "i128");
    } else {
      FlagControl("balances", p.name);
    }
  }

  lemma FlagControl(moduleName: string, name: string)
    ensures ControlOf(moduleName, Param(name, "bool")) == Flag
  {
    assert ToLower("bool") == "bool";
    assert OccursAt("bool", "bool", 0);
  }

  // Every fixed-width integer type gets the number control, but for an account's name or a balance's.
  lemma IntegerControl(moduleName: string, name: string, typ: string)
    requires Neutral(name) && !(moduleName == "balances" && name in {"value", "amount"})
    requires typ in {"u8", "u16", "u32", "u64", "u128", "i8", "i16", "i32", "i64", "i128"}
    ensures ControlOf(moduleName, Param(name, typ)) == Number
  {
    assert typ in NUMBERS;
    var k: nat :| k < |NUMBERS| && NUMBERS[k] == typ;
    if k < 5 { UnsignedWord(typ, k); } else { SignedWord(typ, k); }
    NumberControl(moduleName, name, typ, typ, k);
  }

  predicate Integer(typ: string, k: nat) {
    ToLower(typ) == typ && Bare(typ) && !Includes(typ, "compact<u128>") && k < |NUMBERS| && Includes(typ, NUMBERS[k])
  }

  lemma UnsignedWord(typ: string, k: nat)
    requires k < 5 && typ == NUMBERS[k]
    ensures Integer(typ, k)
  {
    PartIncluded(typ, NUMBERS[k], 0);
    Lacks(typ, "compact<u128>", '<');
  }

  lemma SignedWord(typ: string, k: nat)
    requires 5 <= k < 10 && typ == NUMBERS[k]
    ensures Integer(typ, k)
  {
    PartIncluded(typ, NUMBERS[k], 0);
    Lacks(typ, "compact<u128>", '<');
  }

  // So does every compact type but those of the balance control.
  lemma CompactControl(moduleName: string, name: string, typ: string, lower: string)
    requires Neutral(name) && !(moduleName == "balances" && name in {"value", "amount"})
    requires ToLower(typ) == lower && Includes(lower, "compact<") && Bare(lower) && !Includes(lower, "compact<u128>")
    ensures ControlOf(moduleName, Param(name, typ)) == Number
  {
    assert NUMBERS[10] == "compact<";
    NumberControl(moduleName, name, typ, lower, 10);
  }

  lemma CompactLower()
    ensures ToLower("Compact<u32>") == "compact<u32>" && ToLower("Compact<u64>") == "compact<u64>"
  {
  }

  lemma CompactU32Occurs()
    ensures Includes("compact<u32>", "compact<")
  {
    assert "compact<u32>" == "" + "compact<" + "u32>";
    OccursBetween("", "compact<", "u32>");
  }

  lemma CompactU32Lacks()
    ensures Bare("compact<u32>") && !Includes("compact<u32>", "compact<u128>")
  {
    Lacks("compact<u32>", "compact<u128>", '1');
  }

  lemma CompactU64Occurs()
    ensures Includes("compact<u64>", "compact<")
  {
    assert "compact<u64>" == "" + "compact<" + "u64>";
    OccursBetween("", "compact<", "u64>");
  }

  lemma CompactU64Lacks()
    ensures Bare("compact<u64>") && !Includes("compact<u64>", "compact<u128>")
  {
    Lacks("compact<u64>", "compact<u128>", '1');
  }

  lemma SystemControls(methodName: string, p: Param)
    requires KnownParameters("system", methodName).Some? && p in KnownParameters("system", methodName).value
    ensures ControlOf("system", p) == ControlFor(p.name)
  {
    assert p in {Param("remark", "Bytes"), Param("code", "Bytes"), Param("items", "Vec<KeyValue>"),
      Param("keys", "Vec<Key>"), Param("prefix", "Key"), Param("subkeys", "u32")};
    if p.name == "subkeys" {
      NeutralNumbers(p.name);
      IntegerControl("system", p.name, "u32");
    } else if p.name in {"items", "keys"} {
      VectorControl("system", p);
    } else {
      WordControl("system", p);
    }
  }

  lemma VectorControl(moduleName: string, p: Param)
    requires p in {Param("items", "Vec<KeyValue>"), Param("keys", "Vec<Key>")}
    ensures ControlOf(moduleName, p) == List
  {
    NeutralTexts(p.name);
    if p.name == "items" {
      KeyValueType();
      LowerKeyValue();
      PartIncluded("vec<keyvalue>", "vec", 0);
      ListControl(moduleName, "items", "Vec<KeyValue>", "vec<keyvalue>");
    } else {
      KeyVectorType();
      ListControl(moduleName, "keys", "Vec<Key>", "vec<key>");
    }
  }

  lemma KeyValueType()
    ensures var lower := "vec<keyvalue>"; Bare(lower) && Wordy(lower) && 's' !in lower
  {
  }

  lemma LowerKeyValue()
    ensures ToLower("Vec<KeyValue>") == "vec<keyvalue>"
  {
    LowerConcat("Vec<", "KeyValue>");
    assert "Vec<KeyValue>" == "Vec<" + "KeyValue>";
    assert ToLower("Vec<") == "vec<" && ToLower("KeyValue>") == "keyvalue>";
  }

  lemma KeyVectorType()
    ensures var lower := "vec<key>";
      ToLower("Vec<Key>") == lower && Bare(lower) && Wordy(lower) && 's' !in lower && Includes(lower, "vec")
  {
    assert OccursAt("vec<key>", "vec", 0);
  }

  predicate Word(typ: string, lower: string) {
    && ToLower(typ) == lower && '{' !in typ && Bare(lower) && Wordy(lower)
    && 'r' !in lower && 'v' !in lower && 'u' !in lower
  }

  lemma BytesWord()
    ensures Word("Bytes", "bytes")
  {
  }

  lemma WeightWord()
    ensures Word("Weight", "weight")
  {
  }

  lemma ShortWords()
    ensures Word("Key", "key") && Word("Call", "call")
  {
  }

  lemma WordControl(moduleName: string, p: Param)
    requires p.name in {"remark", "code", "prefix", "call", "weight"} && p.typ in {"Bytes", "Key", "Call", "Weight"}
    ensures ControlOf(moduleName, p) == PlainText
  {
    BytesWord();
    WeightWord();
    ShortWords();
    NeutralTexts(p.name);
    TextControl(moduleName, p.name, p.typ, if p.typ == "Bytes" then "bytes"
      else if p.typ == "Key" then "key" else if p.typ == "Call" then "call" else "weight");
  }

  lemma SudoControls(methodName: string, p: Param)
    requires KnownParameters("sudo", methodName).Some? && p in KnownParameters("sudo", methodName).value
    ensures ControlOf("sudo", p) == ControlFor(p.name)
  {
    assert p in {Param("call", "Call"), WHO, Param("weight", "Weight")};
    if p == WHO { AddressControl("sudo", p.name); } else { WordControl("sudo", p); }
  }

  lemma AssetsControls(methodName: string, p: Param)
    requires KnownParameters("assets", methodName).Some? && p in KnownParameters("assets", methodName).value
    ensures ControlOf("assets", p) == ControlFor(p.name)
  {
    assert p in {Param("id", "Compact<u32>"), Param("admin", "MultiAddress"), Param("minBalance", "u128"),
      Param("target", "MultiAddress"), Param("amount", "Compact<u128>")};
    if p.typ == "MultiAddress" {
      AddressControl("assets", p.name);
    } else if p.name == "amount" {
      NeutralBalances(p.name);
      CompactU128Control("assets", p.name);
    } else {
      NeutralNumbers(p.name);
      if p.name == "minBalance" { IntegerControl("assets", p.name, "u128"); } else {
        CompactLower();
        CompactU32Occurs();
        CompactU32Lacks();
        CompactControl("assets", p.name, p.typ, "compact<u32>");
      }
    }
  }

  lemma TimestampControls()
    ensures ControlOf("timestamp", Param("now", "Compact<u64>")) == Number
  {
    NeutralNumbers("now");
    CompactLower();
    CompactU64Occurs();
    CompactU64Lacks();
    CompactControl("timestamp", "now", "Compact<u64>", "compact<u64>");
  }

  lemma KnownControls(moduleName: string, methodName: string, p: Param)
    requires KnownParameters(moduleName, methodName).Some? && p in KnownParameters(moduleName, methodName).value
    ensures ControlOf(moduleName, p) == ControlFor(p.name)
  {
    if moduleName == "balances" { BalancesControls(methodName, p); }
    else if moduleName == "system" { SystemControls(methodName, p); }
    else if moduleName == "sudo" { SudoControls(methodName, p); }
    else if moduleName == "assets" { AssetsControls(methodName, p); }
    else { TimestampControls(); }
  }

  // ---- Everything else the effect resolves ----

  // Nothing is asked for without a selection, and the known parameters of a known method.
  lemma KnownMethods(chain: Option<Chain>, m: string, n: string)
    ensures m == "" || n == "" ==> Resolve(chain, m, n) == Some([])
    ensures KnownParameters(m, n).Some? ==> Resolve(chain, m, n) == KnownParameters(m, n)
  {
  }

  // A method that is not known: one named like a transfer has a destination and a value, another one named
  // like a setter one value, and any other what the metadata of a connected chain says.
  lemma UnknownMethods(chain: Option<Chain>, m: string, n: string)
    requires m != "" && n != "" && KnownParameters(m, n).None?
    ensures Includes(ToLower(n), "transfer") ==> Named(Resolve(chain, m, n), ["dest", "value"])
    ensures !Includes(ToLower(n), "transfer") && Includes(ToLower(n), "set") ==> Named(Resolve(chain, m, n), ["value"])
    ensures !Includes(ToLower(n), "transfer") && !Includes(ToLower(n), "set") ==>
      && (Resolve(chain, m, n).None? <==> chain.None?)
      && (chain.Some? && (m, n) in chain.value.calls ==> Resolve(chain, m, n) == Some(chain.value.calls[(m, n)]))
      && (chain.Some? && (m, n) !in chain.value.calls ==> Resolve(chain, m, n) == Some([]))
  {
  }

  // ---- Transfers ----

  // The balances transfers resolve to what any other method named like a transfer falls back to.
  lemma TransfersResolveAlike(chain: Option<Chain>, methodName: string, other: Option<Chain>, m: string, n: string)
    requires methodName in {"transfer", "transferKeepAlive", "transferAllowDeath"}
    requires m != "" && KnownParameters(m, n).None? && Includes(ToLower(n), "transfer")
    ensures Resolve(chain, "balances", methodName) == Resolve(other, m, n)
  {
    assert n != "" by { assert ToLower("") == ""; }
  }

  // The i-th argument of a call is a text that the user entered for the i-th parameter.
  predicate AsEntered(hs: seq<Happening>, call: Call, values: seq<Option<string>>, i: nat) {
    && i < |call.args| && i < |values| && call.args[i].Textual? && values[i] == Some(call.args[i].text)
    && call.args[i].text != "" && Entered(hs, i, call.args[i].text)
  }

  // A balances transfer is built from the text entered in the address control for dest and the text entered
  // in the balance control for value, in this order.
  lemma BuiltTransferIsAsEntered(chain: Option<Chain>, hs: seq<Happening>, b: Built)
    requires ValidHistory(Blank(chain), hs) && b in History(Blank(chain), hs).jobs.built
    requires b.call.moduleName == "balances" && b.call.methodName in {"transfer", "transferKeepAlive", "transferAllowDeath"}
    ensures Named(Some(b.clicked.params), ["dest", "value"]) && |b.call.args| == 2
    ensures ControlOf("balances", b.clicked.params[0]) == Address && AsEntered(hs, b.call, b.clicked.values, 0)
    ensures ControlOf("balances", b.clicked.params[1]) == Balance && AsEntered(hs, b.call, b.clicked.values, 1)
  {
    BuiltCallsAreFull(chain, hs, b);
    TransferControls(b.call.methodName, b.clicked.params);
    TextArgument(chain, hs, b, 0);
    TextArgument(chain, hs, b, 1);
  }

  lemma TextArgument(chain: Option<Chain>, hs: seq<Happening>, b: Built, i: nat)
    requires ValidHistory(Blank(chain), hs) && b in History(Blank(chain), hs).jobs.built
    requires i < |b.clicked.params| && !Includes(ToLower(b.clicked.params[i].typ), "bool")
    ensures AsEntered(hs, b.call, b.clicked.values, i)
  {
    BuiltCallsAreFull(chain, hs, b);
    BuiltFromClick(chain, hs, b);
    PreparedArgs(b.clicked);
  }

  lemma TransferControls(methodName: string, params: seq<Param>)
    requires methodName in {"transfer", "transferKeepAlive", "transferAllowDeath"}
    requires KnownParameters("balances", methodName) == Some(params)
    ensures Named(Some(params), ["dest", "value"])
    ensures ControlOf("balances", params[0]) == Address && !Includes(ToLower(params[0].typ), "bool")
    ensures ControlOf("balances", params[1]) == Balance && !Includes(ToLower(params[1].typ), "bool")
  {
    BalancesTransferNames(methodName);
    BalancesControls(methodName, params[0]);
    BalancesControls(methodName, params[1]);
    NotAFlag("balances", params[0]);
    NotAFlag("balances", params[1]);
  }

  lemma NotAFlag(moduleName: string, p: Param)
    requires ControlOf(moduleName, p) != Flag
    ensures !Includes(ToLower(p.typ), "bool")
  {
  }
}
