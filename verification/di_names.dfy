/**
 Names in generated code: locals of Build, which avoid each other and the reserved names, and
 derived fields of App.
 */
module DiNames {
  import opened Collections
  import opened DiModel

  // ---------------------------------------------------------------- decimal suffixes

  predicate IsDigit(c: char) { '0' <= c <= '9' }

  function Digit(d: nat): char
    requires d < 10
  {
    "0123456789"[d]
  }

  /** The %d of fmt.Sprintf. */
  function Dec(n: nat): string {
    if n < 10 then [Digit(n)] else Dec(n / 10) + [Digit(n % 10)]
  }

  lemma {:induction false} DecIsDigits(n: nat)
    ensures Dec(n) != "" && forall k :: 0 <= k < |Dec(n)| ==> IsDigit(Dec(n)[k])
  {
    if n >= 10 { DecIsDigits(n / 10); }
  }

  lemma {:induction false} DecInjective(a: nat, b: nat)
    requires Dec(a) == Dec(b)
    ensures a == b
  {
    DecIsDigits(a / 10);
    DecIsDigits(b / 10);
    if a < 10 || b < 10 {
      assert |Dec(a)| == 1 && |Dec(b)| == 1;
    } else {
      var x, y := Dec(a), Dec(b);
      assert Dec(a / 10) == x[..|x| - 1] == y[..|y| - 1] == Dec(b / 10);
      assert Digit(a % 10) == x[|x| - 1] == y[|y| - 1] == Digit(b % 10);
      DecInjective(a / 10, b / 10);
    }
  }

  /** The number that a string of digits stands for. */
  function ReadDec(s: string): nat
    requires forall k :: 0 <= k < |s| ==> IsDigit(s[k])
  {
    if s == "" then 0
    else
      var last := s[|s| - 1];
      assert IsDigit(last);
      ReadDec(s[..|s| - 1]) * 10 + (last as int - '0' as int)
  }

  /** The suffix is the decimal notation: it reads as the number, without a leading zero. */
  lemma {:induction false} DecReads(n: nat)
    ensures forall k :: 0 <= k < |Dec(n)| ==> IsDigit(Dec(n)[k])
    ensures Dec(n) != "" && ReadDec(Dec(n)) == n && (n > 0 ==> Dec(n)[0] != '0')
  {
    DecIsDigits(n);
    if n >= 10 {
      DecIsDigits(n / 10);
      DecReads(n / 10);
      assert Dec(n)[..|Dec(n)| - 1] == Dec(n / 10);
    } else {
      assert Dec(n)[..0] == "";
    }
    DigitReads(n % 10);
  }

  lemma DigitReads(d: nat)
    requires d < 10
    ensures IsDigit(Digit(d)) && Digit(d) as int - '0' as int == d
  {
  }

  // ---------------------------------------------------------------- fresh locals

  function Stem(base: string): string {
    if base == "" then "value" else base
  }

  /** The candidates of uniqueLocalName in the order they are tried. */
  function Candidate(base: string, n: nat): string {
    if n == 0 then Stem(base) else if n == 1 then Stem(base) + "Value" else Stem(base) + "Value" + Dec(n)
  }

  lemma CandidatesDiffer(base: string, n: nat, m: nat)
    requires 2 <= n < m
    ensures Candidate(base, n) != Candidate(base, m)
  {
    var c := Stem(base) + "Value";
    if Candidate(base, n) == Candidate(base, m) {
      assert Dec(n) == Candidate(base, n)[|c|..] == Candidate(base, m)[|c|..] == Dec(m);
      DecInjective(n, m);
    }
  }

  function Tried(base: string, n: nat): set<string> {
    if n <= 2 then {} else Tried(base, n - 1) + {Candidate(base, n - 1)}
  }

  lemma {:induction false} TriedAre(base: string, n: nat, c: string) returns (m: nat)
    requires c in Tried(base, n)
    ensures 2 <= m < n && c == Candidate(base, m)
  {
    if c == Candidate(base, n - 1) {
      m := n - 1;
    } else {
      m := TriedAre(base, n - 1, c);
    }
  }

  /** From candidate 2 on they differ, so not all of them can be used. */
  lemma {:induction false} TriedSize(base: string, n: nat)
    requires n >= 2
    ensures |Tried(base, n)| == n - 2
  {
    if n > 2 {
      TriedSize(base, n - 1);
      if Candidate(base, n - 1) in Tried(base, n - 1) {
        var m := TriedAre(base, n - 1, Candidate(base, n - 1));
        CandidatesDiffer(base, m, n - 1);
      }
    }
  }

  lemma UsedAreMany(base: string, used: set<string>, n: nat)
    requires forall m: nat :: m < n ==> Candidate(base, m) in used
    ensures n <= |used| + 2
  {
    if n >= 2 {
      TriedSize(base, n);
      forall c | c in Tried(base, n)
        ensures c in used
      {
        var m := TriedAre(base, n, c);
      }
      SubsetSize(Tried(base, n), used);
    }
  }

  /** The number of the first candidate that is not used. */
  ghost function FirstFree(base: string, used: set<string>, from: nat): (n: nat)
    requires forall m: nat :: m < from ==> Candidate(base, m) in used
    ensures Candidate(base, n) !in used && forall m: nat :: m < n ==> Candidate(base, m) in used
    decreases |used| + 2 - from
  {
    if Candidate(base, from) !in used then from
    else (UsedAreMany(base, used, from + 1); FirstFree(base, used, from + 1))
  }

  ghost function LocalName(base: string, used: set<string>): string {
    Candidate(base, FirstFree(base, used, 0))
  }

  /** The first candidate that is not used; there is one because `used` is finite. */
  method UniqueLocalName(base: string, used: set<string>) returns (name: string, used': set<string>)
    ensures name !in used && used' == used + {name}
    ensures exists n: nat :: name == Candidate(base, n) && forall m: nat :: m < n ==> Candidate(base, m) in used
    ensures name == LocalName(base, used)
    ensures var stem := if base == "" then "value" else base;
      if stem !in used then name == stem
      else if stem + "Value" !in used then name == stem + "Value"
      else exists k: nat :: k >= 2 && name == stem + "Value" + Dec(k) &&
                            forall m: nat :: 2 <= m < k ==> stem + "Value" + Dec(m) in used
  {
    ghost var n := FirstFree(base, used, 0);
    var candidate := base;
    if candidate == "" { candidate := "value"; }
    assert candidate == Candidate(base, 0);
    if candidate !in used {
      return candidate, used + {candidate};
    }
    candidate := candidate + "Value";
    assert candidate == Candidate(base, 1);
    if candidate !in used {
      return candidate, used + {candidate};
    }
    var i := 2;
    while candidate + Dec(i) in used
      invariant 2 <= i <= n
      decreases n - i
    {
      assert candidate + Dec(i) == Candidate(base, i);
      i := i + 1;
    }
    name := candidate + Dec(i);
    assert name == Candidate(base, i) && i == n;
    forall m: nat | 2 <= m < i
      ensures candidate + Dec(m) in used
    {
      assert candidate + Dec(m) == Candidate(base, m);
    }
    used' := used + {name};
  }

  predicate IsUpper(c: char) { 'A' <= c <= 'Z' }

  function ToLower(c: char): char {
    if IsUpper(c) then c - 'A' + 'a' else c
  }

  function UpperFirst(s: string): string {
    if s != "" && 'a' <= s[0] <= 'z' then [s[0] - 'a' + 'A'] + s[1..] else s
  }

  /** Where the leading capitals end; the last one stays with the word that follows it. */
  function Cut(name: string, cut: nat): (r: nat)
    requires 0 < cut <= |name|
    ensures cut <= r <= |name|
    decreases |name| - cut
  {
    if cut == |name| || !IsUpper(name[cut]) then cut
    else if cut + 1 < |name| && !IsUpper(name[cut + 1]) then cut
    else Cut(name, cut + 1)
  }

  function LowerCamel(name: string): string {
    if name == "" then ""
    else var cut := Cut(name, 1); seq(cut, i requires 0 <= i < cut => ToLower(name[i])) + name[cut..]
  }

  /** The first letter, and a leading capital that is followed by a capital or by nothing. */
  ghost predicate Leading(name: string, k: nat) {
    k == 0 || forall j :: 1 <= j <= k + 1 && j < |name| ==> IsUpper(name[j])
  }

  /** Exactly the leading capitals become small, so that the word after an initialism keeps its capital. */
  lemma CamelKeepsWords(name: string, k: nat)
    requires k < |name|
    ensures |LowerCamel(name)| == |name|
    ensures LowerCamel(name)[k] == if Leading(name, k) then ToLower(name[k]) else name[k]
  {
    CutEnds(name, 1);
    var r := Cut(name, 1);
    if k >= r {
      assert !IsUpper(name[r]) || (r + 1 < |name| && !IsUpper(name[r + 1]));
    }
  }

  lemma {:induction false} CutEnds(name: string, cut: nat)
    requires 0 < cut <= |name|
    ensures var r := Cut(name, cut);
      && (r > cut ==> forall k :: cut <= k <= r && k < |name| ==> IsUpper(name[k]))
      && (r < |name| ==> !IsUpper(name[r]) || (r + 1 < |name| && !IsUpper(name[r + 1])))
    decreases |name| - cut
  {
    if Cut(name, cut) != cut { CutEnds(name, cut + 1); }
  }

  function MakeParamName(t: TypeRef): string {
    var name := LowerCamel(t.base);
    if name in {"config", "appConfig"} then "cfg"
    else if name == "service" then "svc"
    else if name == "repository" then "repo"
    else if name == "" then "value"
    else name
  }

  function MakeVariableName(t: TypeRef): string {
    var name := LowerCamel(t.base);
    if name == "" then "value" else name
  }

  /** Parameters of common types have short names; results keep the long ones. */
  lemma CommonNames(t: TypeRef)
    ensures t.base == "Config" ==> MakeParamName(t) == "cfg" && MakeVariableName(t) == "config"
    ensures t.base == "Service" ==> MakeParamName(t) == "svc" && MakeVariableName(t) == "service"
    ensures t.base == "" ==> MakeParamName(t) == MakeVariableName(t) == "value"
  {
    assert Cut("Config", 1) == 1 && LowerCamel("Config") == "config";
    assert Cut("Service", 1) == 1 && LowerCamel("Service") == "service";
  }

  lemma LongNames(t: TypeRef)
    ensures t.base == "AppConfig" ==> MakeParamName(t) == "cfg" && MakeVariableName(t) == "appConfig"
    ensures t.base == "Repository" ==> MakeParamName(t) == "repo" && MakeVariableName(t) == "repository"
  {
    assert Cut("AppConfig", 1) == 1 && LowerCamel("AppConfig") == "appConfig";
    assert Cut("Repository", 1) == 1 && LowerCamel("Repository") == "repository";
  }

  lemma InitialismNames(t: TypeRef)
    ensures t.base == "SQLStore" ==> MakeParamName(t) == MakeVariableName(t) == "sqlStore"
    ensures t.base == "DB" ==> MakeParamName(t) == MakeVariableName(t) == "db"
  {
    assert Cut("SQLStore", 3) == 3 && Cut("SQLStore", 2) == 3 && Cut("SQLStore", 1) == 3;
    assert LowerCamel("SQLStore") == "sqlStore" && LowerCamel("DB") == "db";
  }

  function MakeCleanupName(t: TypeRef, varName: string): string {
    "cleanup" + (if t.base == "" then UpperFirst(varName) else t.base)
  }

  const HELPERS: set<string> := {"app", "cleanups", "err", "runCleanups"}

  function ReservedNames(aliases: set<string>): set<string> {
    HELPERS + aliases
  }

  ghost predicate Injective(names: map<Key, string>) {
    forall k, l :: k in names && l in names && names[k] == names[l] ==> k == l
  }

  ghost predicate Avoids(names: map<Key, string>, taken: set<string>) {
    forall k :: k in names ==> names[k] !in taken
  }

  /** A local is wanted for the type `key`, called `base` if that is free. */
  datatype Want = Want(key: Key, base: string)

  function ParamWants(inputs: seq<TypeRef>): seq<Want> {
    seq(|inputs|, i requires 0 <= i < |inputs| => Want(inputs[i].key, MakeParamName(inputs[i])))
  }

  function ResultWants(results: seq<TypeRef>): seq<Want> {
    seq(|results|, i requires 0 <= i < |results| => Want(results[i].key, MakeVariableName(results[i])))
  }

  /** Names are given out in order, each time the first candidate that is free. */
  ghost function Named(wants: seq<Want>, used: set<string>): (map<Key, string>, set<string>) {
    if wants == [] then (map[], used)
    else
      var n := |wants| - 1;
      var before := Named(wants[..n], used);
      var name := LocalName(wants[n].base, before.1);
      (before.0[wants[n].key := name], before.1 + {name})
  }

  /** Names given out in this way differ from each other and from all that were used before. */
  lemma {:induction false} NamedApart(wants: seq<Want>, used: set<string>)
    ensures var names := Named(wants, used).0;
      && (forall k :: k in names <==> exists i :: 0 <= i < |wants| && wants[i].key == k)
      && Injective(names) && Avoids(names, used)
      && used <= Named(wants, used).1 && forall k :: k in names ==> names[k] in Named(wants, used).1
  {
    if wants != [] {
      var n := |wants| - 1;
      NamedApart(wants[..n], used);
      var before, names := Named(wants[..n], used).0, Named(wants, used).0;
      forall k
        ensures k in names <==> exists i :: 0 <= i < |wants| && wants[i].key == k
      {
        if k in before {
          var i :| 0 <= i < n && wants[..n][i].key == k;
          assert wants[i].key == k;
        }
        if i :| 0 <= i < n && wants[i].key == k {
          assert wants[..n][i].key == k;
        }
      }
    }
  }

  lemma NamedFor(ts: seq<TypeRef>, wants: seq<Want>, used: set<string>)
    requires |wants| == |ts| && forall i :: 0 <= i < |ts| ==> wants[i].key == ts[i].key
    ensures var names := Named(wants, used).0;
      names.Keys == KeysOfRefs(ts) && Injective(names) && Avoids(names, used)
  {
    NamedApart(wants, used);
    var names := Named(wants, used).0;
    forall k
      ensures k in names.Keys <==> k in KeysOfRefs(ts)
    {
      if k in names {
        var i :| 0 <= i < |wants| && wants[i].key == k;
        assert ts[i].key == k;
      }
      if k in KeysOfRefs(ts) {
        var i :| 0 <= i < |ts| && ts[i].key == k;
        assert wants[i].key == k;
      }
    }
  }

  lemma NamedNext(wants: seq<Want>, used: set<string>, n: nat)
    requires n < |wants|
    ensures var before := Named(wants[..n], used);
      var name := LocalName(wants[n].base, before.1);
      Named(wants[..n + 1], used) == (before.0[wants[n].key := name], before.1 + {name})
  {
    assert wants[..n + 1][..n] == wants[..n];
  }

  /** A Config that is a parameter is called cfg, one that is a result config; its cleanup is cleanupConfig; one
   of a type without a name takes that of its variable. */
  lemma ConfigLocals(t: TypeRef, used: set<string>)
    requires t.base == "Config" && "cfg" !in used && "config" !in used
    ensures Named(ParamWants([t]), used).0 == map[t.key := "cfg"]
    ensures Named(ResultWants([t]), used).0 == map[t.key := "config"]
    ensures MakeCleanupName(t, "config") == "cleanupConfig"
    ensures MakeCleanupName(t.(base := ""), "value") == "cleanupValue"
  {
    CommonNames(t);
    assert Candidate("cfg", 0) == "cfg" && Candidate("config", 0) == "config";
    assert ParamWants([t])[..0] == [] && ResultWants([t])[..0] == [];
    NamedNext(ParamWants([t]), used, 0);
    NamedNext(ResultWants([t]), used, 0);
    assert ParamWants([t])[..1] == ParamWants([t]) && ResultWants([t])[..1] == ResultWants([t]);
  }

  method BuildInputVarNames(inputs: seq<TypeRef>, reserved: set<string>) returns (names: map<Key, string>)
    ensures names == Named(ParamWants(inputs), reserved).0
    ensures names.Keys == KeysOfRefs(inputs) && Injective(names) && Avoids(names, reserved)
  {
    ghost var wants := ParamWants(inputs);
    var used := reserved;
    names := map[];
    for i := 0 to |inputs|
      invariant (names, used) == Named(wants[..i], reserved)
    {
      NamedNext(wants, reserved, i);
      var name, more := UniqueLocalName(MakeParamName(inputs[i]), used);
      names := names[inputs[i].key := name];
      used := more;
    }
    assert wants[..|inputs|] == wants;
    NamedFor(inputs, wants, reserved);
  }

  /** The results of the providers, in build order. */
  method BuildProviderVarNames(results: seq<TypeRef>, reserved: set<string>, inputs: map<Key, string>)
    returns (names: map<Key, string>)
    ensures names == Named(ResultWants(results), reserved + inputs.Values).0
    ensures names.Keys == KeysOfRefs(results) && Injective(names) && Avoids(names, reserved)
    ensures Avoids(names, inputs.Values)
  {
    ghost var wants, taken := ResultWants(results), reserved + inputs.Values;
    var used := reserved + inputs.Values;
    names := map[];
    for i := 0 to |results|
      invariant (names, used) == Named(wants[..i], taken)
    {
      NamedNext(wants, taken, i);
      var name, more := UniqueLocalName(MakeVariableName(results[i]), used);
      names := names[results[i].key := name];
      used := more;
    }
    assert wants[..|results|] == wants;
    NamedFor(results, wants, taken);
  }

  // ---------------------------------------------------------------- fields of App

  function BaseField(t: TypeRef): string {
    if t.base == "" then "Value" else t.base
  }

  /** How many of the first n outputs have the base name. */
  function BaseCount(outputs: seq<TypeRef>, n: nat, base: string): nat
    requires n <= |outputs|
  {
    if n == 0 then 0 else BaseCount(outputs, n - 1, base) + (if BaseField(outputs[n - 1]) == base then 1 else 0)
  }

  /** A base name that several outputs share is qualified by the package, where there is one. */
  function FieldStem(outputs: seq<TypeRef>, t: TypeRef): string {
    if BaseCount(outputs, |outputs|, BaseField(t)) > 1 && t.qualifier != ""
    then t.qualifier + BaseField(t)
    else BaseField(t)
  }

  /** Output i gets its name from the stem. */
  predicate HasStem(outputs: seq<TypeRef>, i: nat, stem: string)
    requires i < |outputs|
  {
    outputs[i].custom == "" && FieldStem(outputs, outputs[i]) == stem
  }

  /** How many of the first n outputs get their names from the stem. */
  function StemCount(outputs: seq<TypeRef>, n: nat, stem: string): nat
    requires n <= |outputs|
  {
    if n == 0 then 0 else StemCount(outputs, n - 1, stem) + (if HasStem(outputs, n - 1, stem) then 1 else 0)
  }

  function Suffix(n: nat): string {
    if n <= 1 then "" else Dec(n)
  }

  function FieldName(outputs: seq<TypeRef>, i: nat): string
    requires i < |outputs|
  {
    var t := outputs[i];
    if t.custom != "" then t.custom
    else FieldStem(outputs, t) + Suffix(StemCount(outputs, i, FieldStem(outputs, t)) + 1)
  }

  lemma {:induction false} CountedOnce(outputs: seq<TypeRef>, n: nat, base: string)
    requires n <= |outputs|
    ensures BaseCount(outputs, n, base) > 0 <==> exists j :: 0 <= j < n && BaseField(outputs[j]) == base
  {
    if n > 0 { CountedOnce(outputs, n - 1, base); }
  }

  lemma {:induction false} CountedTwice(outputs: seq<TypeRef>, n: nat, i: nat)
    requires i < n <= |outputs|
    ensures BaseCount(outputs, n, BaseField(outputs[i])) > 1 <==>
      exists j :: 0 <= j < n && j != i && BaseField(outputs[j]) == BaseField(outputs[i])
  {
    if i == n - 1 {
      CountedOnce(outputs, n - 1, BaseField(outputs[i]));
    } else {
      CountedTwice(outputs, n - 1, i);
      CountedOnce(outputs, n - 1, BaseField(outputs[i]));
    }
  }

  /** Another output has the same base name. */
  predicate SharesBase(outputs: seq<TypeRef>, i: nat)
    requires i < |outputs|
  {
    exists j :: 0 <= j < |outputs| && j != i &&
      (if outputs[j].base == "" then "Value" else outputs[j].base) ==
      (if outputs[i].base == "" then "Value" else outputs[i].base)
  }

  lemma StemReads(outputs: seq<TypeRef>, i: nat)
    requires i < |outputs|
    ensures var base := if outputs[i].base == "" then "Value" else outputs[i].base;
      FieldStem(outputs, outputs[i]) == if SharesBase(outputs, i) then outputs[i].qualifier + base else base
  {
    CountedTwice(outputs, |outputs|, i);
    assert SharesBase(outputs, i) <==> BaseCount(outputs, |outputs|, BaseField(outputs[i])) > 1;
    assert outputs[i].qualifier == "" ==> outputs[i].qualifier + BaseField(outputs[i]) == BaseField(outputs[i]);
  }

  /**
   The name of a field: the custom name; or the base name, after the package name where another
   output has the same base name, and then a number or nothing.
   */
  lemma FieldNameReads(outputs: seq<TypeRef>, i: nat)
    requires i < |outputs|
    ensures outputs[i].custom != "" ==> FieldName(outputs, i) == outputs[i].custom
    ensures outputs[i].custom == "" ==>
      var base := if outputs[i].base == "" then "Value" else outputs[i].base;
      var stem := if SharesBase(outputs, i) then outputs[i].qualifier + base else base;
      && stem <= FieldName(outputs, i)
      && forall k :: |stem| <= k < |FieldName(outputs, i)| ==> IsDigit(FieldName(outputs, i)[k])
  {
    StemReads(outputs, i);
    DecIsDigits(StemCount(outputs, i, FieldStem(outputs, outputs[i])) + 1);
  }

  lemma FieldNameStarts(outputs: seq<TypeRef>, i: nat)
    requires i < |outputs|
    ensures outputs[i].custom == "" && outputs[i].qualifier != "" && SharesBase(outputs, i) ==>
              var base := if outputs[i].base == "" then "Value" else outputs[i].base;
              outputs[i].qualifier + base <= FieldName(outputs, i)
  {
    FieldNameReads(outputs, i);
  }

  /** users.Store and orders.Store. */
  lemma QualifiedFields(outputs: seq<TypeRef>)
    requires outputs == [TypeRef("users.Store", "Store", "Users", ""), TypeRef("orders.Store", "Store", "Orders", "")]
    ensures FieldName(outputs, 0) == "UsersStore" && FieldName(outputs, 1) == "OrdersStore"
  {
    assert BaseCount(outputs, 1, "Store") == 1 && BaseCount(outputs, 2, "Store") == 2;
    assert FieldStem(outputs, outputs[0]) == "UsersStore" && FieldStem(outputs, outputs[1]) == "OrdersStore";
    assert |"UsersStore"| == 10 && |"OrdersStore"| == 11;
    assert StemCount(outputs, 1, "OrdersStore") == 0;
  }

  /** Derived names never coincide. */
  ghost predicate FieldsDiffer(outputs: seq<TypeRef>) {
    forall i, j :: 0 <= i < j < |outputs| && outputs[i].custom == "" && outputs[j].custom == "" ==>
      FieldName(outputs, i) != FieldName(outputs, j)
  }

  /** One stem with a number reads like another stem with or without a number. */
  ghost predicate ReadsAs(outputs: seq<TypeRef>, s: string, n: nat, t: string, m: nat) {
    && s != t && 1 <= n <= StemCount(outputs, |outputs|, s) && 1 <= m <= StemCount(outputs, |outputs|, t)
    && s + Suffix(n) == t + Suffix(m)
  }

  ghost predicate StemsClash(outputs: seq<TypeRef>) {
    exists s, n, t, m :: ReadsAs(outputs, s, n, t, m)
  }

  lemma {:induction false} StemCountGrows(outputs: seq<TypeRef>, i: nat, n: nat, stem: string)
    requires i < n <= |outputs| && HasStem(outputs, i, stem)
    ensures StemCount(outputs, i, stem) + 1 <= StemCount(outputs, n, stem)
  {
    if i < n - 1 { StemCountGrows(outputs, i, n - 1, stem); }
  }

  lemma {:induction false} NthOfStem(outputs: seq<TypeRef>, n: nat, stem: string, nth: nat) returns (i: nat)
    requires n <= |outputs| && 1 <= nth <= StemCount(outputs, n, stem)
    ensures i < n && HasStem(outputs, i, stem) && StemCount(outputs, i, stem) + 1 == nth
  {
    if nth <= StemCount(outputs, n - 1, stem) {
      i := NthOfStem(outputs, n - 1, stem, nth);
    } else {
      i := n - 1;
    }
  }

  lemma SuffixInjective(s: string, n: nat, m: nat)
    requires 1 <= n < m
    ensures s + Suffix(n) != s + Suffix(m)
  {
    DecIsDigits(m);
    if s + Suffix(n) == s + Suffix(m) {
      assert Suffix(n) == (s + Suffix(n))[|s|..] == (s + Suffix(m))[|s|..] == Suffix(m);
      DecInjective(n, m);
    }
  }

  /** Output i has a derived name, from this stem. */
  ghost predicate GetsName(outputs: seq<TypeRef>, i: nat, stem: string, name: string) {
    i < |outputs| && outputs[i].custom == "" && FieldStem(outputs, outputs[i]) == stem && FieldName(outputs, i) == name
  }

  lemma NthField(outputs: seq<TypeRef>, stem: string, nth: nat, name: string) returns (i: nat)
    requires 1 <= nth <= StemCount(outputs, |outputs|, stem) && name == stem + Suffix(nth)
    ensures GetsName(outputs, i, stem, name)
  {
    i := NthOfStem(outputs, |outputs|, stem, nth);
  }

  lemma SameField(outputs: seq<TypeRef>, i: nat, s: string, j: nat, t: string, name: string)
    requires GetsName(outputs, i, s, name) && GetsName(outputs, j, t, name) && s != t
    ensures !FieldsDiffer(outputs)
  {
    if i < j {
      assert FieldName(outputs, i) == FieldName(outputs, j);
    } else {
      assert FieldName(outputs, j) == FieldName(outputs, i);
    }
  }

  lemma ClashCollides(outputs: seq<TypeRef>, s: string, n: nat, t: string, m: nat)
    requires ReadsAs(outputs, s, n, t, m)
    ensures !FieldsDiffer(outputs)
  {
    var name := s + Suffix(n);
    var i := NthField(outputs, s, n, name);
    var j := NthField(outputs, t, m, name);
    SameField(outputs, i, s, j, t, name);
  }

  /** Derived names are distinct exactly when no numbered stem reads as another one. */
  lemma FieldsDifferIff(outputs: seq<TypeRef>)
    ensures FieldsDiffer(outputs) <==> !StemsClash(outputs)
  {
    if StemsClash(outputs) {
      var s, n, t, m :| ReadsAs(outputs, s, n, t, m);
      ClashCollides(outputs, s, n, t, m);
    } else {
      forall i, j | 0 <= i < j < |outputs| && outputs[i].custom == "" && outputs[j].custom == ""
        ensures FieldName(outputs, i) != FieldName(outputs, j)
      {
        TwoFieldsDiffer(outputs, i, j);
      }
    }
  }

  lemma NameOf(outputs: seq<TypeRef>, i: nat, s: string) returns (n: nat)
    requires i < |outputs| && HasStem(outputs, i, s)
    ensures n == StemCount(outputs, i, s) + 1 && FieldName(outputs, i) == s + Suffix(n)
    ensures 1 <= n <= StemCount(outputs, |outputs|, s)
  {
    n := StemCount(outputs, i, s) + 1;
    StemCountGrows(outputs, i, |outputs|, s);
  }

  lemma SameStemDiffers(outputs: seq<TypeRef>, i: nat, j: nat, s: string)
    requires i < j < |outputs| && HasStem(outputs, i, s) && HasStem(outputs, j, s)
    ensures FieldName(outputs, i) != FieldName(outputs, j)
  {
    var n := NameOf(outputs, i, s);
    var m := NameOf(outputs, j, s);
    StemCountGrows(outputs, i, j, s);
    SuffixInjective(s, n, m);
  }

  lemma OtherStemDiffers(outputs: seq<TypeRef>, i: nat, j: nat, s: string, t: string)
    requires i < |outputs| && j < |outputs| && HasStem(outputs, i, s) && HasStem(outputs, j, t) && s != t
    requires !StemsClash(outputs)
    ensures FieldName(outputs, i) != FieldName(outputs, j)
  {
    var n := NameOf(outputs, i, s);
    var m := NameOf(outputs, j, t);
    assert !ReadsAs(outputs, s, n, t, m);
  }

  lemma TwoFieldsDiffer(outputs: seq<TypeRef>, i: nat, j: nat)
    requires i < j < |outputs| && outputs[i].custom == "" && outputs[j].custom == "" && !StemsClash(outputs)
    ensures FieldName(outputs, i) != FieldName(outputs, j)
  {
    var s, t := FieldStem(outputs, outputs[i]), FieldStem(outputs, outputs[j]);
    assert HasStem(outputs, i, s) && HasStem(outputs, j, t);
    if s == t {
      SameStemDiffers(outputs, i, j, s);
    } else {
      OtherStemDiffers(outputs, i, j, s, t);
    }
  }

  lemma StripDigits(s: string, d: string, t: string, e: string)
    requires s + d == t + e && t != "" && !IsDigit(t[|t| - 1])
    requires forall k :: 0 <= k < |d| ==> IsDigit(d[k])
    ensures |t| <= |s| && (|t| == |s| ==> s == t)
  {
    var whole := s + d;
    assert t == whole[..|t|] && s == whole[..|s|];
    forall k | |s| <= k < |whole|
      ensures IsDigit(whole[k])
    {
      assert whole[k] == d[k - |s|];
    }
  }

  predicate Plain(s: string) {
    s != "" && !IsDigit(s[|s| - 1])
  }

  lemma PlainNeverClash(s: string, n: nat, t: string, m: nat)
    requires Plain(s) && Plain(t) && s + Suffix(n) == t + Suffix(m)
    ensures s == t
  {
    DecIsDigits(n);
    DecIsDigits(m);
    StripDigits(s, Suffix(n), t, Suffix(m));
    StripDigits(t, Suffix(m), s, Suffix(n));
  }

  /** No stem ends in a digit: then nothing clashes. */
  lemma PlainStemsDiffer(outputs: seq<TypeRef>)
    requires forall i :: 0 <= i < |outputs| ==> Plain(FieldStem(outputs, outputs[i]))
    ensures FieldsDiffer(outputs)
  {
    forall s, n, t, m
      ensures !ReadsAs(outputs, s, n, t, m)
    {
      if ReadsAs(outputs, s, n, t, m) {
        var i := NthOfStem(outputs, |outputs|, s, n);
        var j := NthOfStem(outputs, |outputs|, t, m);
        PlainNeverClash(s, n, t, m);
      }
    }
    FieldsDifferIff(outputs);
  }

  /** Foo, *Foo and Foo2 of one package: two fields called Foo2. */
  lemma FieldsCollide(outputs: seq<TypeRef>)
    requires outputs == [TypeRef("Foo", "Foo", "", ""), TypeRef("*Foo", "Foo", "", ""), TypeRef("Foo2", "Foo2", "", "")]
    ensures FieldName(outputs, 1) == FieldName(outputs, 2) == "Foo2"
    ensures !FieldsDiffer(outputs)
  {
    assert BaseCount(outputs, 1, "Foo") == 1 && BaseCount(outputs, 1, "Foo2") == 0;
    assert StemCount(outputs, 1, "Foo") == 1 && StemCount(outputs, 1, "Foo2") == 0;
    assert StemCount(outputs, 2, "Foo2") == 0;
    assert Dec(2) == "2";
  }
}
