/** Payload checking against the supported schema subset (conformance.py), with the pointer of the first error.

    Schemas are well typed; objects keep the order of their entries, which decides what error comes first. */
module PayloadCheck {
  import opened Wrappers
  import opened JsonPointer

  datatype Value =
    | Null
    | Bool(truth: bool)
    | Int(whole: int)
    | Float(number: real)
    | Str(text: string)
    | Arr(items: seq<Value>)
    | Obj(entries: seq<Entry>)

  datatype Entry = Entry(key: string, value: Value)

  /** A property whose declaration is not itself a schema is declared but not checked. */
  datatype Property = Property(key: string, schema: Option<Schema>)

  datatype Declarations = NoProperties | Properties(list: seq<Property>)

  datatype Branches = NoBranches | Branches(list: seq<Schema>)

  datatype Schema = Schema(
    unknown: seq<string>, constant: Option<Value>, enumeration: Option<seq<Value>>, types: Option<seq<string>>,
    minLength: Option<int>, maxLength: Option<int>, minimum: Option<real>, maximum: Option<real>,
    minItems: Option<int>, maxItems: Option<int>, items: Option<Schema>,
    required: seq<string>, properties: Declarations, closed: bool,
    oneOf: Branches, anyOf: Branches, allOf: Branches)

  // ---------------------------------------------------------------- values

  /** Booleans count as 0 and 1, and integers equal floats, in comparisons. */
  function Numeric(v: Value): Option<real> {
    match v
    case Bool(truth) => Some(if truth then 1.0 else 0.0)
    case Int(whole) => Some(whole as real)
    case Float(number) => Some(number)
    case _ => None
  }

  function Find(entries: seq<Entry>, key: string): (i: int)
    ensures -1 <= i < |entries|
    ensures i >= 0 ==> entries[i].key == key
    ensures i < 0 <==> forall k :: 0 <= k < |entries| ==> entries[k].key != key
  {
    if entries == [] then -1
    else if entries[0].key == key then 0
    else
      var rest := Find(entries[1..], key);
      if rest < 0 then -1 else rest + 1
  }

  /** Python's ==. */
  predicate PyEqual(a: Value, b: Value)
    decreases a
  {
    match (a, b)
    case (Null, Null) => true
    case (Str(x), Str(y)) => x == y
    case (Arr(xs), Arr(ys)) => |xs| == |ys| && forall i :: 0 <= i < |xs| ==> PyEqual(xs[i], ys[i])
    case (Obj(xs), Obj(ys)) =>
      |xs| == |ys| && forall i :: 0 <= i < |xs| ==>
        Find(ys, xs[i].key) >= 0 && PyEqual(xs[i].value, ys[Find(ys, xs[i].key)].value)
    case _ => Numeric(a).Some? && Numeric(a) == Numeric(b)
  }

  function TypeName(v: Value): string {
    match v
    case Null => "null"
    case Bool(_) => "boolean"
    case Int(_) => "integer"
    case Float(_) => "number"
    case Str(_) => "string"
    case Arr(_) => "array"
    case Obj(_) => "object"
  }

  predicate TypeMatches(v: Value, declared: string) {
    if declared == "number" then TypeName(v) == "number" || TypeName(v) == "integer" else TypeName(v) == declared
  }

  predicate Within(n: int, low: Option<int>, high: Option<int>) {
    (low.Some? ==> low.value <= n) && (high.Some? ==> n <= high.value)
  }

  // ---------------------------------------------------------------- what it means to conform

  predicate AmongValues(v: Value, options: seq<Value>) {
    exists i :: 0 <= i < |options| && PyEqual(v, options[i])
  }

  predicate SomeTypeMatches(v: Value, types: seq<string>) {
    exists i :: 0 <= i < |types| && TypeMatches(v, types[i])
  }

  /** The keywords that look at the node itself. */
  predicate SelfConforms(v: Value, s: Schema) {
    && (s.constant.Some? ==> PyEqual(v, s.constant.value))
    && (s.enumeration.Some? ==> AmongValues(v, s.enumeration.value))
    && (s.types.Some? ==> SomeTypeMatches(v, s.types.value))
    && (v.Str? ==> Within(|v.text|, s.minLength, s.maxLength))
    && (v.Int? || v.Float? ==>
          (s.minimum.Some? ==> s.minimum.value <= Numeric(v).value) && (s.maximum.Some? ==> Numeric(v).value <= s.maximum.value))
    && (v.Arr? ==> Within(|v.items|, s.minItems, s.maxItems))
  }

  predicate Declares(properties: seq<Property>, key: string) {
    exists i :: 0 <= i < |properties| && properties[i].key == key
  }

  predicate HasKeys(entries: seq<Entry>, keys: seq<string>) {
    forall i :: 0 <= i < |keys| ==> Find(entries, keys[i]) >= 0
  }

  predicate OnlyDeclared(entries: seq<Entry>, properties: seq<Property>) {
    forall i :: 0 <= i < |entries| ==> Declares(properties, entries[i].key)
  }

  ghost predicate Conforms(v: Value, s: Schema)
    decreases s
  {
    && s.unknown == []
    && SelfConforms(v, s)
    && (v.Arr? && s.items.Some? ==> forall i :: 0 <= i < |v.items| ==> Conforms(v.items[i], s.items.value))
    && (v.Obj? ==> HasKeys(v.entries, s.required))
    && (v.Obj? && s.properties.Properties? ==>
          forall i :: 0 <= i < |s.properties.list| ==> PropertyConforms(v.entries, s.properties.list[i]))
    && (v.Obj? && s.properties.Properties? && s.closed ==> OnlyDeclared(v.entries, s.properties.list))
    && (s.oneOf.Branches? ==> exists i :: 0 <= i < |s.oneOf.list| && Conforms(v, s.oneOf.list[i]))
    && (s.oneOf.Branches? ==>
          forall i, j :: 0 <= i < j < |s.oneOf.list| ==> !(Conforms(v, s.oneOf.list[i]) && Conforms(v, s.oneOf.list[j])))
    && (s.anyOf.Branches? ==> exists i :: 0 <= i < |s.anyOf.list| && Conforms(v, s.anyOf.list[i]))
    && (s.allOf.Branches? ==> s.allOf.list != [] && forall i :: 0 <= i < |s.allOf.list| ==> Conforms(v, s.allOf.list[i]))
  }

  ghost predicate PropertyConforms(entries: seq<Entry>, p: Property)
    decreases p
  {
    var i := Find(entries, p.key);
    i >= 0 && p.schema.Some? ==> Conforms(entries[i].value, p.schema.value)
  }

  // ---------------------------------------------------------------- the check, as a function

  /** Text in code point order. */
  predicate Before(a: string, b: string) {
    a == "" || (b != "" && (a[0] < b[0] || (a[0] == b[0] && Before(a[1..], b[1..]))))
  }

  lemma {:induction false} BeforeTotal(a: string, b: string)
    ensures Before(a, b) || Before(b, a)
  {
    if a != "" && b != "" && a[0] == b[0] { BeforeTotal(a[1..], b[1..]); }
  }

  lemma {:induction false} BeforeThen(a: string, b: string, c: string)
    requires Before(a, b) && Before(b, c)
    ensures Before(a, c)
  {
    if a != "" && a[0] == b[0] == c[0] { BeforeThen(a[1..], b[1..], c[1..]); }
  }

  lemma BeforeAll(a: string, b: string, texts: seq<string>)
    requires Before(a, b) && forall i :: 0 <= i < |texts| ==> Before(b, texts[i])
    ensures forall i :: 0 <= i < |texts| ==> Before(a, texts[i])
  {
    forall i | 0 <= i < |texts| ensures Before(a, texts[i]) {
      BeforeThen(a, b, texts[i]);
    }
  }

  /** The first text in sorted order. */
  function Least(texts: seq<string>): (least: string)
    requires texts != []
    ensures least in texts && forall i :: 0 <= i < |texts| ==> Before(least, texts[i])
  {
    BeforeTotal(texts[0], texts[0]);
    if |texts| == 1 then texts[0]
    else
      var rest := Least(texts[1..]);
      BeforeTotal(texts[0], rest);
      assert forall i :: 1 <= i < |texts| ==> texts[i] == texts[1..][i - 1];
      if Before(texts[0], rest) then
        BeforeAll(texts[0], rest, texts[1..]);
        texts[0]
      else rest
  }

  datatype Combinator = OneOf | AnyOf | AllOf

  function Keyword(c: Combinator): string {
    match c
    case OneOf => "oneOf"
    case AnyOf => "anyOf"
    case AllOf => "allOf"
  }

  function BranchesOf(s: Schema, c: Combinator): Branches {
    match c
    case OneOf => s.oneOf
    case AnyOf => s.anyOf
    case AllOf => s.allOf
  }

  function Below(path: string, token: string): string {
    path + "/" + Escape(token)
  }

  /** The pointer of the first error, if there is one. */
  function Check(v: Value, s: Schema, path: string): Option<string>
    decreases s, 2, 0
  {
    if s.unknown != [] then Some(Below(path, Least(s.unknown)))
    else if !SelfConforms(v, s) then Some(path)
    else
      var inside :=
        if v.Arr? then ItemError(v.items, s, path, 0)
        else if v.Obj? then FieldError(v.entries, s, path)
        else None;
      if inside.Some? then inside
      else
        var one := CombinatorError(v, s, OneOf, path);
        if one.Some? then one
        else
          var some := CombinatorError(v, s, AnyOf, path);
          if some.Some? then some else CombinatorError(v, s, AllOf, path)
  }

  function ItemError(items: seq<Value>, s: Schema, path: string, k: nat): Option<string>
    requires k <= |items|
    decreases s, 0, |items| - k
  {
    if k == |items| || s.items.None? then None
    else
      var error := Check(items[k], s.items.value, path + "/" + Decimal(k));
      if error.Some? then error else ItemError(items, s, path, k + 1)
  }

  function FieldError(entries: seq<Entry>, s: Schema, path: string): Option<string>
    decreases s, 1, 0
  {
    var missing := MissingKey(entries, s.required);
    if missing.Some? then Some(Below(path, missing.value))
    else if s.properties.NoProperties? then None
    else
      var bad := PropertyError(entries, s, path, 0);
      if bad.Some? then bad
      else
        var extra := if s.closed then UndeclaredKey(entries, s.properties.list) else None;
        if extra.Some? then Some(Below(path, extra.value)) else None
  }

  function MissingKey(entries: seq<Entry>, required: seq<string>): (key: Option<string>)
    ensures key.None? <==> HasKeys(entries, required)
  {
    if required == [] then None
    else if Find(entries, required[0]) < 0 then Some(required[0])
    else
      assert HasKeys(entries, required) <==> HasKeys(entries, required[1..]) by { HasKeysTail(entries, required); }
      MissingKey(entries, required[1..])
  }

  lemma HasKeysTail(entries: seq<Entry>, required: seq<string>)
    requires required != [] && Find(entries, required[0]) >= 0
    ensures HasKeys(entries, required) <==> HasKeys(entries, required[1..])
  {
    assert required == [required[0]] + required[1..];
  }

  function UndeclaredKey(entries: seq<Entry>, properties: seq<Property>): (key: Option<string>)
    ensures key.None? <==> OnlyDeclared(entries, properties)
    ensures key.Some? ==> Find(entries, key.value) >= 0
  {
    if entries == [] then None
    else if !Declares(properties, entries[0].key) then Some(entries[0].key)
    else
      assert entries == [entries[0]] + entries[1..];
      UndeclaredKey(entries[1..], properties)
  }

  function PropertyError(entries: seq<Entry>, s: Schema, path: string, k: nat): Option<string>
    requires s.properties.Properties? && k <= |s.properties.list|
    decreases s, 0, |s.properties.list| - k
  {
    if k == |s.properties.list| then None
    else
      var property := s.properties.list[k];
      var i := Find(entries, property.key);
      var error := if i >= 0 && property.schema.Some?
                   then Check(entries[i].value, property.schema.value, Below(path, property.key)) else None;
      if error.Some? then error else PropertyError(entries, s, path, k + 1)
  }

  function CombinatorError(v: Value, s: Schema, c: Combinator, path: string): Option<string>
    decreases s, 1, 0
  {
    var branches := BranchesOf(s, c);
    if branches.NoBranches? then None
    else if branches.list == [] then Some(path + "/" + Keyword(c))
    else if Accepted(c, Matches(v, s, c, path, |branches.list|), |branches.list|) then None else Some(path)
  }

  predicate Accepted(c: Combinator, matches: nat, total: nat) {
    match c
    case OneOf => matches == 1
    case AnyOf => matches >= 1
    case AllOf => matches == total
  }

  /** How many of the first k branches accept the value. */
  function Matches(v: Value, s: Schema, c: Combinator, path: string, k: nat): (n: nat)
    requires BranchesOf(s, c).Branches? && k <= |BranchesOf(s, c).list|
    ensures n <= k
    decreases s, 0, k
  {
    if k == 0 then 0
    else Matches(v, s, c, path, k - 1) + if Check(v, BranchesOf(s, c).list[k - 1], path).None? then 1 else 0
  }

  // ---------------------------------------------------------------- the check is exact

  ghost predicate SomeConforms(v: Value, branches: seq<Schema>, k: nat)
    requires k <= |branches|
  {
    exists i :: 0 <= i < k && Conforms(v, branches[i])
  }

  ghost predicate AllConform(v: Value, branches: seq<Schema>, k: nat)
    requires k <= |branches|
  {
    forall i :: 0 <= i < k ==> Conforms(v, branches[i])
  }

  ghost predicate NoTwoConform(v: Value, branches: seq<Schema>, k: nat)
    requires k <= |branches|
  {
    forall i, j :: 0 <= i < j < k ==> !(Conforms(v, branches[i]) && Conforms(v, branches[j]))
  }

  /** Nothing is reported exactly when the payload conforms, whatever the base path. */
  lemma {:induction false} CheckExact(v: Value, s: Schema, path: string)
    ensures Check(v, s, path).None? <==> Conforms(v, s)
    decreases s, 2, 0
  {
    CheckParts(v, s, path);
    ConformsParts(v, s);
    hide Check, Conforms, SelfConforms;
    if s.unknown == [] && SelfConforms(v, s) {
      if v.Arr? { ItemsExact(v.items, s, path, 0); }
      if v.Obj? { FieldsExact(v.entries, s, path); }
      CombinatorExact(v, s, OneOf, path);
      CombinatorExact(v, s, AnyOf, path);
      CombinatorExact(v, s, AllOf, path);
    }
  }

  lemma CheckParts(v: Value, s: Schema, path: string)
    ensures Check(v, s, path).None? <==>
      && s.unknown == [] && SelfConforms(v, s)
      && (v.Arr? ==> ItemError(v.items, s, path, 0).None?) && (v.Obj? ==> FieldError(v.entries, s, path).None?)
      && CombinatorError(v, s, OneOf, path).None? && CombinatorError(v, s, AnyOf, path).None? && CombinatorError(v, s, AllOf, path).None?
  {
    hide SelfConforms, ItemError, FieldError, CombinatorError;
  }

  lemma ConformsParts(v: Value, s: Schema)
    ensures Conforms(v, s) <==>
      && s.unknown == [] && SelfConforms(v, s)
      && (v.Arr? && s.items.Some? ==> forall i :: 0 <= i < |v.items| ==> Conforms(v.items[i], s.items.value))
      && (v.Obj? ==> FieldsConform(v.entries, s))
      && CombinatorConforms(v, s, OneOf) && CombinatorConforms(v, s, AnyOf) && CombinatorConforms(v, s, AllOf)
  {
    hide SelfConforms, HasKeys, OnlyDeclared, PropertyConforms;
  }

  ghost predicate FieldsConform(entries: seq<Entry>, s: Schema) {
    && HasKeys(entries, s.required)
    && (s.properties.Properties? ==>
          forall i :: 0 <= i < |s.properties.list| ==> PropertyConforms(entries, s.properties.list[i]))
    && (s.properties.Properties? && s.closed ==> OnlyDeclared(entries, s.properties.list))
  }

  ghost predicate CombinatorConforms(v: Value, s: Schema, c: Combinator) {
    var branches := BranchesOf(s, c);
    branches.NoBranches? ||
    match c
    case OneOf => SomeConforms(v, branches.list, |branches.list|) && NoTwoConform(v, branches.list, |branches.list|)
    case AnyOf => SomeConforms(v, branches.list, |branches.list|)
    case AllOf => branches.list != [] && AllConform(v, branches.list, |branches.list|)
  }

  lemma {:induction false} ItemsExact(items: seq<Value>, s: Schema, path: string, k: nat)
    requires k <= |items|
    ensures ItemError(items, s, path, k).None? <==>
      (s.items.Some? ==> forall i :: k <= i < |items| ==> Conforms(items[i], s.items.value))
    decreases s, 0, |items| - k
  {
    hide Check, Conforms;
    if k < |items| && s.items.Some? {
      CheckExact(items[k], s.items.value, path + "/" + Decimal(k));
      ItemsExact(items, s, path, k + 1);
    }
  }

  lemma {:induction false} FieldsExact(entries: seq<Entry>, s: Schema, path: string)
    ensures FieldError(entries, s, path).None? <==> FieldsConform(entries, s)
    decreases s, 1, 0
  {
    if s.properties.Properties? {
      PropertiesExact(entries, s, path, 0);
    }
  }

  lemma {:induction false} PropertiesExact(entries: seq<Entry>, s: Schema, path: string, k: nat)
    requires s.properties.Properties? && k <= |s.properties.list|
    ensures PropertyError(entries, s, path, k).None? <==>
      forall i :: k <= i < |s.properties.list| ==> PropertyConforms(entries, s.properties.list[i])
    decreases s, 0, |s.properties.list| - k
  {
    hide Check, Conforms;
    if k < |s.properties.list| {
      var property := s.properties.list[k];
      var i := Find(entries, property.key);
      if i >= 0 && property.schema.Some? {
        CheckExact(entries[i].value, property.schema.value, Below(path, property.key));
      }
      PropertiesExact(entries, s, path, k + 1);
    }
  }

  lemma {:induction false} CombinatorExact(v: Value, s: Schema, c: Combinator, path: string)
    ensures CombinatorError(v, s, c, path).None? <==> CombinatorConforms(v, s, c)
    decreases s, 1, 0
  {
    if BranchesOf(s, c).Branches? {
      MatchesExact(v, s, c, path, |BranchesOf(s, c).list|);
    }
  }

  lemma OneMoreBranch(v: Value, list: seq<Schema>, k: nat)
    requires 0 < k <= |list|
    ensures SomeConforms(v, list, k) <==> SomeConforms(v, list, k - 1) || Conforms(v, list[k - 1])
    ensures AllConform(v, list, k) <==> AllConform(v, list, k - 1) && Conforms(v, list[k - 1])
    ensures NoTwoConform(v, list, k) <==>
      NoTwoConform(v, list, k - 1) && !(SomeConforms(v, list, k - 1) && Conforms(v, list[k - 1]))
  {
    hide Conforms;
  }

  lemma {:induction false} MatchesExact(v: Value, s: Schema, c: Combinator, path: string, k: nat)
    requires BranchesOf(s, c).Branches? && k <= |BranchesOf(s, c).list|
    ensures var n, list := Matches(v, s, c, path, k), BranchesOf(s, c).list;
      && (n >= 1 <==> SomeConforms(v, list, k))
      && (n <= 1 <==> NoTwoConform(v, list, k))
      && (n == k <==> AllConform(v, list, k))
    decreases s, 0, k
  {
    hide Check, Conforms;
    if k > 0 {
      var list := BranchesOf(s, c).list;
      OneMoreBranch(v, list, k);
      hide SomeConforms, AllConform, NoTwoConform, Accepted, BranchesOf;
      MatchesExact(v, s, c, path, k - 1);
      CheckExact(v, list[k - 1], path);
    }
  }

  // ---------------------------------------------------------------- the pointer leads somewhere

  function Enter(v: Value, token: string): Option<Value> {
    if v.Obj? then
      var i := Find(v.entries, token);
      if i < 0 then None else Some(v.entries[i].value)
    else if v.Arr? then
      var index := IndexValue(token);
      if index.None? || index.value >= |v.items| then None else Some(v.items[index.value])
    else None
  }

  /** The node a path of tokens leads to (section 4 of RFC 6901). */
  function Resolve(v: Value, tokens: seq<string>): Option<Value> {
    if tokens == [] then Some(v)
    else
      var below := Enter(v, tokens[0]);
      if below.None? then None else Resolve(below.value, tokens[1..])
  }

  /** The path leads to a node, or its last token is missing from one. */
  predicate Locates(v: Value, tokens: seq<string>) {
    Resolve(v, tokens).Some? || (tokens != [] && Resolve(v, tokens[..|tokens| - 1]).Some?)
  }

  // ---------------------------------------------------------------- which fault comes first

  ghost predicate ChildrenConform(v: Value, s: Schema) {
    && (v.Arr? && s.items.Some? ==> forall i :: 0 <= i < |v.items| ==> Conforms(v.items[i], s.items.value))
    && (v.Obj? ==> FieldsConform(v.entries, s))
  }

  /** The first required key that is not there. */
  predicate MissesFirst(entries: seq<Entry>, required: seq<string>, key: string) {
    exists k :: 0 <= k < |required| && required[k] == key && Find(entries, key) < 0 && HasKeys(entries, required[..k])
  }

  /** The first entry that is not declared. */
  predicate ExceedsFirst(entries: seq<Entry>, properties: seq<Property>, key: string) {
    exists k :: 0 <= k < |entries| && entries[k].key == key && !Declares(properties, key) && OnlyDeclared(entries[..k], properties)
  }

  /** A combinator without branches is at fault itself; otherwise its node is. */
  predicate NamesEmpty(branches: Branches, keyword: string, last: Option<string>) {
    branches.Branches? && last == if branches.list == [] then Some(keyword) else None
  }

  ghost predicate CombinatorFault(v: Value, s: Schema, last: Option<string>) {
    || (!CombinatorConforms(v, s, OneOf) && NamesEmpty(s.oneOf, "oneOf", last))
    || (CombinatorConforms(v, s, OneOf) && !CombinatorConforms(v, s, AnyOf) && NamesEmpty(s.anyOf, "anyOf", last))
    || (CombinatorConforms(v, s, OneOf) && CombinatorConforms(v, s, AnyOf)
        && !CombinatorConforms(v, s, AllOf) && NamesEmpty(s.allOf, "allOf", last))
  }

  /** The node itself is at fault, or one token of it: the least unknown keyword, a keyword of its own, a missing key, one
      in excess, or a combinator, each only when what comes before it is in order. */
  ghost predicate OwnFault(v: Value, s: Schema, last: Option<string>) {
    if s.unknown != [] then last.Some? && last.value in s.unknown && forall i :: 0 <= i < |s.unknown| ==> Before(last.value, s.unknown[i])
    else if !SelfConforms(v, s) then last.None?
    else
      || (v.Obj? && last.Some? && MissesFirst(v.entries, s.required, last.value))
      || (v.Obj? && last.Some? && s.properties.Properties? && s.closed && HasKeys(v.entries, s.required)
          && PropertiesConform(v.entries, s, |s.properties.list|) && ExceedsFirst(v.entries, s.properties.list, last.value))
      || (ChildrenConform(v, s) && CombinatorFault(v, s, last))
  }

  ghost predicate PropertiesConform(entries: seq<Entry>, s: Schema, k: nat)
    requires s.properties.Properties? && k <= |s.properties.list|
  {
    forall i :: 0 <= i < k ==> PropertyConforms(entries, s.properties.list[i])
  }

  ghost predicate ItemsConform(items: seq<Value>, s: Schema, k: nat)
    requires s.items.Some? && k <= |items|
  {
    forall i :: 0 <= i < k ==> Conforms(items[i], s.items.value)
  }

  /** The first fault lies these steps down, items and properties of the value and of the schema alike, and there at the
      node or at its last token; everything checked before it conforms. */
  ghost predicate FirstFault(v: Value, s: Schema, steps: seq<string>, last: Option<string>)
    decreases s, 1
  {
    if steps == [] then OwnFault(v, s, last)
    else
      && s.unknown == [] && SelfConforms(v, s)
      && ((v.Arr? && exists k :: InItem(v.items, s, k, steps, last)) || (v.Obj? && exists k :: InProperty(v.entries, s, k, steps, last)))
  }

  /** It lies in the k-th item, and the items before conform. */
  ghost predicate InItem(items: seq<Value>, s: Schema, k: int, steps: seq<string>, last: Option<string>)
    requires steps != []
    decreases s, 0
  {
    && s.items.Some? && 0 <= k < |items| && ItemsConform(items, s, k)
    && steps[0] == Decimal(k) && FirstFault(items[k], s.items.value, steps[1..], last)
  }

  /** It lies in the value of the k-th property; no required key is missing and the properties before conform. */
  ghost predicate InProperty(entries: seq<Entry>, s: Schema, k: int, steps: seq<string>, last: Option<string>)
    requires steps != []
    decreases s, 0
  {
    && HasKeys(entries, s.required) && s.properties.Properties? && 0 <= k < |s.properties.list| && PropertiesConform(entries, s, k)
    && Descends(entries, s.properties.list[k], steps[0])
    && FirstFault(entries[Find(entries, steps[0])].value, s.properties.list[k].schema.value, steps[1..], last)
  }

  /** The property is there, and its value is checked. */
  predicate Descends(entries: seq<Entry>, property: Property, key: string) {
    property.key == key && property.schema.Some? && Find(entries, key) >= 0
  }

  /** The pointer, behind the base path, of the first fault. */
  ghost predicate PointsToFault(v: Value, s: Schema, path: string, e: string, steps: seq<string>, last: Option<string>) {
    FirstFault(v, s, steps, last) && e == path + Render(Tokens(steps, last))
  }

  function Tokens(steps: seq<string>, last: Option<string>): seq<string> {
    if last.Some? then steps + [last.value] else steps
  }

  lemma OneToken(token: string)
    ensures Render([token]) == "/" + Escape(token)
  {
    assert [token][1..] == [];
  }

  lemma PlainToken(token: string)
    requires '~' !in token && '/' !in token
    ensures Escape(token) == token
  {
    PlainReplace(token, '~', "~0");
    PlainReplace(token, '/', "~1");
  }

  lemma {:induction false} PlainReplace(text: string, c: char, other: string)
    requires c !in text
    ensures ReplaceChar(text, c, other) == text
  {
    if text != "" {
      assert text[0] in text && text == [text[0]] + text[1..];
      PlainReplace(text[1..], c, other);
    }
  }

  lemma {:induction false} DecimalPlain(n: nat)
    ensures '~' !in Decimal(n) && '/' !in Decimal(n)
  {
    if n >= 10 { DecimalPlain(n / 10); }
  }

  /** A fault of the node itself is reported at its path, or one token below. */
  lemma FaultHere(v: Value, s: Schema, path: string, last: Option<string>)
    requires OwnFault(v, s, last)
    ensures PointsToFault(v, s, path, if last.Some? then Below(path, last.value) else path, [], last)
  {
    if last.Some? { OneToken(last.value); assert [] + [last.value] == [last.value]; }
  }

  /** A fault below a child is one step further down from its parent. */
  lemma StepDown(path: string, token: string, steps: seq<string>, last: Option<string>)
    ensures path + "/" + Escape(token) + Render(Tokens(steps, last)) == path + Render(Tokens([token] + steps, last))
  {
    var whole := Tokens([token] + steps, last);
    assert whole[1..] == Tokens(steps, last);
    assert Render(whole) == "/" + Escape(token) + Render(Tokens(steps, last));
  }

  /** The error reported is the first fault. */
  lemma {:induction false} ErrorIsFirstFault(v: Value, s: Schema, path: string) returns (steps: seq<string>, last: Option<string>)
    requires Check(v, s, path).Some?
    ensures PointsToFault(v, s, path, Check(v, s, path).value, steps, last)
    decreases s, 2, 0
  {
    hide SelfConforms, PointsToFault, Conforms, CombinatorConforms, FieldsConform;
    steps, last := [], None;
    if s.unknown != [] {
      last := Some(Least(s.unknown));
      FaultHere(v, s, path, last);
    } else if !SelfConforms(v, s) {
      FaultHere(v, s, path, last);
    } else if v.Arr? && ItemError(v.items, s, path, 0).Some? {
      steps, last := ItemFault(v.items, s, path, 0);
    } else if v.Obj? && FieldError(v.entries, s, path).Some? {
      steps, last := FieldFault(v.entries, s, path);
    } else {
      ChildrenExact(v, s, path);
      last := BranchFault(v, s, path);
      FaultHere(v, s, path, last);
    }
  }

  lemma ChildrenExact(v: Value, s: Schema, path: string)
    requires v.Arr? ==> ItemError(v.items, s, path, 0).None?
    requires v.Obj? ==> FieldError(v.entries, s, path).None?
    ensures ChildrenConform(v, s)
  {
    hide Conforms, FieldsConform, ItemError, FieldError;
    if v.Arr? { ItemsExact(v.items, s, path, 0); }
    if v.Obj? { FieldsExact(v.entries, s, path); }
  }

  lemma BranchFault(v: Value, s: Schema, path: string) returns (last: Option<string>)
    requires CombinatorError(v, s, OneOf, path).Some? || CombinatorError(v, s, AnyOf, path).Some? || CombinatorError(v, s, AllOf, path).Some?
    ensures CombinatorFault(v, s, last)
    ensures var one, some := CombinatorError(v, s, OneOf, path), CombinatorError(v, s, AnyOf, path);
      (if one.Some? then one else if some.Some? then some else CombinatorError(v, s, AllOf, path))
        == Some(if last.Some? then Below(path, last.value) else path)
  {
    CombinatorExact(v, s, OneOf, path);
    CombinatorExact(v, s, AnyOf, path);
    CombinatorExact(v, s, AllOf, path);
    hide CombinatorConforms, Matches, Escape;
    var c := if CombinatorError(v, s, OneOf, path).Some? then OneOf else if CombinatorError(v, s, AnyOf, path).Some? then AnyOf else AllOf;
    PlainToken(Keyword(c));
    last := if BranchesOf(s, c).list == [] then Some(Keyword(c)) else None;
  }

  lemma {:induction false} ItemFault(items: seq<Value>, s: Schema, path: string, k: nat) returns (steps: seq<string>, last: Option<string>)
    requires k <= |items| && ItemError(items, s, path, k).Some? && s.unknown == [] && SelfConforms(Arr(items), s)
    requires ItemsConform(items, s, k)
    ensures PointsToFault(Arr(items), s, path, ItemError(items, s, path, k).value, steps, last)
    decreases s, 0, |items| - k
  {
    hide Check, Conforms, SelfConforms, OwnFault;
    var below := path + "/" + Decimal(k);
    if Check(items[k], s.items.value, below).Some? {
      var rest;
      rest, last := ErrorIsFirstFault(items[k], s.items.value, below);
      steps := [Decimal(k)] + rest;
      DecimalPlain(k);
      PlainToken(Decimal(k));
      StepDown(path, Decimal(k), rest, last);
      assert steps[1..] == rest && InItem(items, s, k, steps, last);
    } else {
      CheckExact(items[k], s.items.value, below);
      steps, last := ItemFault(items, s, path, k + 1);
    }
  }

  lemma {:induction false} FieldFault(entries: seq<Entry>, s: Schema, path: string) returns (steps: seq<string>, last: Option<string>)
    requires FieldError(entries, s, path).Some? && s.unknown == [] && SelfConforms(Obj(entries), s)
    ensures PointsToFault(Obj(entries), s, path, FieldError(entries, s, path).value, steps, last)
    decreases s, 1, 0
  {
    hide PointsToFault, SelfConforms, Conforms, CombinatorFault, Declares, ExceedsFirst, MissesFirst;
    steps, last := [], None;
    var missing := MissingKey(entries, s.required);
    if missing.Some? {
      last := missing;
      MissingIsFirst(entries, s.required);
      FaultHere(Obj(entries), s, path, last);
    } else if PropertyError(entries, s, path, 0).Some? {
      steps, last := PropertyFault(entries, s, path, 0);
    } else {
      PropertiesExact(entries, s, path, 0);
      last := UndeclaredKey(entries, s.properties.list);
      UndeclaredIsFirst(entries, s.properties.list);
      FaultHere(Obj(entries), s, path, last);
    }
  }

  lemma {:induction false} MissingIsFirst(entries: seq<Entry>, required: seq<string>)
    requires MissingKey(entries, required).Some?
    ensures MissesFirst(entries, required, MissingKey(entries, required).value)
  {
    if Find(entries, required[0]) < 0 {
      assert HasKeys(entries, required[..0]);
    } else {
      MissingIsFirst(entries, required[1..]);
      var key := MissingKey(entries, required).value;
      var k :| 0 <= k < |required[1..]| && required[1..][k] == key && Find(entries, key) < 0 && HasKeys(entries, required[1..][..k]);
      forall i | 0 <= i < k + 1 ensures Find(entries, required[i]) >= 0 {
        if i > 0 { assert required[i] == required[1..][..k][i - 1]; }
      }
      assert required[k + 1] == key && HasKeys(entries, required[..k + 1]);
    }
  }

  lemma {:induction false} UndeclaredIsFirst(entries: seq<Entry>, properties: seq<Property>)
    requires UndeclaredKey(entries, properties).Some?
    ensures ExceedsFirst(entries, properties, UndeclaredKey(entries, properties).value)
  {
    hide Declares;
    if !Declares(properties, entries[0].key) {
      assert OnlyDeclared(entries[..0], properties);
    } else {
      UndeclaredIsFirst(entries[1..], properties);
      var key := UndeclaredKey(entries, properties).value;
      var k :| 0 <= k < |entries[1..]| && entries[1..][k].key == key && !Declares(properties, key) && OnlyDeclared(entries[1..][..k], properties);
      forall i | 0 <= i < k + 1 ensures Declares(properties, entries[i].key) {
        if i > 0 { assert entries[i] == entries[1..][..k][i - 1]; }
      }
      assert entries[k + 1].key == key && OnlyDeclared(entries[..k + 1], properties);
    }
  }

  lemma {:induction false} PropertyFault(entries: seq<Entry>, s: Schema, path: string, k: nat) returns (steps: seq<string>, last: Option<string>)
    requires s.properties.Properties? && k <= |s.properties.list| && PropertyError(entries, s, path, k).Some?
    requires s.unknown == [] && SelfConforms(Obj(entries), s) && HasKeys(entries, s.required) && PropertiesConform(entries, s, k)
    ensures PointsToFault(Obj(entries), s, path, PropertyError(entries, s, path, k).value, steps, last)
    decreases s, 0, |s.properties.list| - k
  {
    hide Check, Conforms, SelfConforms, OwnFault, HasKeys;
    var property := s.properties.list[k];
    var i := Find(entries, property.key);
    if i >= 0 && property.schema.Some? {
      CheckExact(entries[i].value, property.schema.value, Below(path, property.key));
    }
    if i >= 0 && property.schema.Some? && Check(entries[i].value, property.schema.value, Below(path, property.key)).Some? {
      var rest;
      rest, last := ErrorIsFirstFault(entries[i].value, property.schema.value, Below(path, property.key));
      steps := [property.key] + rest;
      StepDown(path, property.key, rest, last);
      assert steps[1..] == rest && InProperty(entries, s, k, steps, last);
    } else {
      assert PropertyConforms(entries, property);
      steps, last := PropertyFault(entries, s, path, k + 1);
    }
  }

  /** Whatever has a fault does not conform. */
  lemma {:induction false} FaultFails(v: Value, s: Schema, steps: seq<string>, last: Option<string>)
    requires FirstFault(v, s, steps, last)
    ensures !Conforms(v, s)
    decreases s
  {
    ConformsParts(v, s);
    hide SelfConforms, Conforms;
    if steps == [] {
      if s.unknown == [] && SelfConforms(v, s) { OwnFaultFails(v, s, last); }
    } else if v.Arr? {
      var k :| InItem(v.items, s, k, steps, last);
      FaultFails(v.items[k], s.items.value, steps[1..], last);
    } else {
      var k :| InProperty(v.entries, s, k, steps, last);
      FaultFails(v.entries[Find(v.entries, steps[0])].value, s.properties.list[k].schema.value, steps[1..], last);
      assert !PropertyConforms(v.entries, s.properties.list[k]) by { PropertyOpens(v.entries, s.properties.list[k]); }
    }
  }

  lemma PropertyOpens(entries: seq<Entry>, p: Property)
    ensures PropertyConforms(entries, p) <==> (Find(entries, p.key) >= 0 && p.schema.Some? ==> Conforms(entries[Find(entries, p.key)].value, p.schema.value))
  {
    hide Conforms;
  }

  lemma OwnFaultFails(v: Value, s: Schema, last: Option<string>)
    requires OwnFault(v, s, last) && s.unknown == [] && SelfConforms(v, s)
    ensures !ChildrenConform(v, s) || !CombinatorConforms(v, s, OneOf) || !CombinatorConforms(v, s, AnyOf) || !CombinatorConforms(v, s, AllOf)
  {
    hide SelfConforms, Conforms, CombinatorConforms, PropertyConforms;
  }

  /** The steps lead to a node of the value. */
  lemma {:induction false} FaultLocates(v: Value, s: Schema, steps: seq<string>, last: Option<string>)
    requires FirstFault(v, s, steps, last)
    ensures Resolve(v, steps).Some?
    decreases s
  {
    hide SelfConforms, OwnFault, ItemsConform, PropertiesConform, HasKeys;
    if steps != [] {
      if v.Arr? {
        var k :| InItem(v.items, s, k, steps, last);
        DecimalRoundTrip(k);
        FaultLocates(v.items[k], s.items.value, steps[1..], last);
      } else {
        var k :| InProperty(v.entries, s, k, steps, last);
        FaultLocates(v.entries[Find(v.entries, steps[0])].value, s.properties.list[k].schema.value, steps[1..], last);
      }
    }
  }

  lemma {:induction false} BeforeAntisymmetric(a: string, b: string)
    requires Before(a, b) && Before(b, a)
    ensures a == b
  {
    if a != "" && b != "" { BeforeAntisymmetric(a[1..], b[1..]); }
  }

  lemma OwnFaultIsUnique(v: Value, s: Schema, x: Option<string>, y: Option<string>)
    requires OwnFault(v, s, x) && OwnFault(v, s, y)
    ensures x == y
  {
    hide SelfConforms, Conforms, PropertyConforms, CombinatorConforms;
    if s.unknown != [] { BeforeAntisymmetric(x.value, y.value); }
  }

  /** A fault further down leaves the node itself without one. */
  lemma NoFaultAbove(v: Value, s: Schema, steps: seq<string>, last: Option<string>, own: Option<string>)
    requires FirstFault(v, s, steps, last) && steps != []
    ensures !OwnFault(v, s, own)
  {
    hide SelfConforms, Conforms, CombinatorConforms, ExceedsFirst, OnlyDeclared;
    if v.Arr? {
      var k :| InItem(v.items, s, k, steps, last);
      FaultFails(v.items[k], s.items.value, steps[1..], last);
    } else {
      var k :| InProperty(v.entries, s, k, steps, last);
      var property := s.properties.list[k];
      FaultFails(v.entries[Find(v.entries, steps[0])].value, property.schema.value, steps[1..], last);
      PropertyOpens(v.entries, property);
      hide FirstFault;
      assert !PropertyConforms(v.entries, property);
    }
  }

  /** There is one first fault. */
  lemma {:induction false} FaultIsUnique(v: Value, s: Schema, a: seq<string>, x: Option<string>, b: seq<string>, y: Option<string>)
    requires FirstFault(v, s, a, x) && FirstFault(v, s, b, y)
    ensures a == b && x == y
    decreases s
  {
    hide SelfConforms, Conforms, OwnFault;
    if a == [] && b == [] {
      OwnFaultIsUnique(v, s, x, y);
    } else if a == [] || b == [] {
      if a == [] { NoFaultAbove(v, s, b, y, x); } else { NoFaultAbove(v, s, a, x, y); }
    } else if v.Arr? {
      var k :| InItem(v.items, s, k, a, x);
      var l :| InItem(v.items, s, l, b, y);
      FaultFails(v.items[k], s.items.value, a[1..], x);
      FaultFails(v.items[l], s.items.value, b[1..], y);
      assert k == l;
      FaultIsUnique(v.items[k], s.items.value, a[1..], x, b[1..], y);
      assert a == [a[0]] + a[1..] && b == [b[0]] + b[1..];
    } else {
      var k :| InProperty(v.entries, s, k, a, x);
      var l :| InProperty(v.entries, s, l, b, y);
      SamePropertyFails(v.entries, s, k, l, a, x, b, y);
      FaultIsUnique(v.entries[Find(v.entries, a[0])].value, s.properties.list[k].schema.value, a[1..], x, b[1..], y);
      assert a == [a[0]] + a[1..] && b == [b[0]] + b[1..];
    }
  }

  lemma SamePropertyFails(entries: seq<Entry>, s: Schema, k: int, l: int, a: seq<string>, x: Option<string>, b: seq<string>, y: Option<string>)
    requires a != [] && b != [] && InProperty(entries, s, k, a, x) && InProperty(entries, s, l, b, y)
    ensures k == l && a[0] == b[0]
  {
    hide Conforms;
    FaultFails(entries[Find(entries, a[0])].value, s.properties.list[k].schema.value, a[1..], x);
    FaultFails(entries[Find(entries, b[0])].value, s.properties.list[l].schema.value, b[1..], y);
    hide FirstFault;
    PropertyOpens(entries, s.properties.list[k]);
    PropertyOpens(entries, s.properties.list[l]);
  }

  /** Every error pointer extends the base path by a pointer that reads back as tokens, and these lead to a node of
      the payload, once the last of them is dropped if need be. */
  lemma ErrorPointersResolve(v: Value, s: Schema, path: string)
    requires Check(v, s, path).Some?
    ensures var e := Check(v, s, path).value;
      path <= e && Parse(e[|path|..]).Some? && Locates(v, Parse(e[|path|..]).value)
  {
    var e := Check(v, s, path).value;
    var steps, last := ErrorIsFirstFault(v, s, path);
    var tokens := Tokens(steps, last);
    FaultLocates(v, s, steps, last);
    assert e[|path|..] == Render(tokens);
    PointerRoundTrip(tokens);
    assert last.Some? ==> tokens[..|tokens| - 1] == steps;
  }

  // ---------------------------------------------------------------- the check, as it runs

  /** `check_payload`: the pointer it raises, or none. */
  method CheckPayload(v: Value, s: Schema, path: string) returns (error: Option<string>)
    ensures error == Check(v, s, path)
    ensures error.None? <==> Conforms(v, s)
    ensures error.Some? ==> exists steps, last :: PointsToFault(v, s, path, error.value, steps, last)
    decreases s, 2, 0
  {
    CheckExact(v, s, path);
    if Check(v, s, path).Some? {
      ghost var steps, last := ErrorIsFirstFault(v, s, path);
      assert PointsToFault(v, s, path, Check(v, s, path).value, steps, last);
    }
    hide Conforms, PointsToFault;
    if s.unknown != [] {
      return Some(Below(path, Least(s.unknown)));
    }
    var accepted := CheckSelf(v, s);
    if !accepted {
      return Some(path);
    }
    if v.Arr? {
      error := CheckItems(v.items, s, path);
      if error.Some? { return; }
    } else if v.Obj? {
      error := CheckFields(v.entries, s, path);
      if error.Some? { return; }
    }
    error := CheckCombinator(v, s, OneOf, path);
    if error.Some? { return; }
    error := CheckCombinator(v, s, AnyOf, path);
    if error.Some? { return; }
    error := CheckCombinator(v, s, AllOf, path);
  }

  method CheckSelf(v: Value, s: Schema) returns (accepted: bool)
    ensures accepted <==> SelfConforms(v, s)
  {
    if s.constant.Some? && !PyEqual(v, s.constant.value) { return false; }
    if s.enumeration.Some? && !AmongValues(v, s.enumeration.value) { return false; }
    if s.types.Some? && !SomeTypeMatches(v, s.types.value) { return false; }
    if v.Str? {
      if s.minLength.Some? && |v.text| < s.minLength.value { return false; }
      if s.maxLength.Some? && |v.text| > s.maxLength.value { return false; }
    }
    if v.Int? || v.Float? {
      if s.minimum.Some? && Numeric(v).value < s.minimum.value { return false; }
      if s.maximum.Some? && Numeric(v).value > s.maximum.value { return false; }
    }
    if v.Arr? {
      if s.minItems.Some? && |v.items| < s.minItems.value { return false; }
      if s.maxItems.Some? && |v.items| > s.maxItems.value { return false; }
    }
    accepted := true;
  }

  method CheckItems(items: seq<Value>, s: Schema, path: string) returns (error: Option<string>)
    ensures error == ItemError(items, s, path, 0)
    decreases s, 1, 0
  {
    hide Check, Conforms;
    if s.items.Some? {
      for index := 0 to |items|
        invariant ItemError(items, s, path, 0) == ItemError(items, s, path, index)
      {
        error := CheckPayload(items[index], s.items.value, path + "/" + Decimal(index));
        if error.Some? { return; }
      }
    }
    error := None;
  }

  method CheckFields(entries: seq<Entry>, s: Schema, path: string) returns (error: Option<string>)
    ensures error == FieldError(entries, s, path)
    decreases s, 1, 0
  {
    hide Check, Conforms;
    for k := 0 to |s.required|
      invariant MissingKey(entries, s.required) == MissingKey(entries, s.required[k..])
    {
      if Find(entries, s.required[k]) < 0 { return Some(Below(path, s.required[k])); }
      assert s.required[k..][1..] == s.required[k + 1..];
    }
    if s.properties.NoProperties? { return None; }
    for k := 0 to |s.properties.list|
      invariant PropertyError(entries, s, path, 0) == PropertyError(entries, s, path, k)
    {
      var property := s.properties.list[k];
      var i := Find(entries, property.key);
      if i >= 0 && property.schema.Some? {
        error := CheckPayload(entries[i].value, property.schema.value, Below(path, property.key));
        if error.Some? { return; }
      }
    }
    if s.closed {
      for k := 0 to |entries|
        invariant UndeclaredKey(entries, s.properties.list) == UndeclaredKey(entries[k..], s.properties.list)
      {
        if !Declares(s.properties.list, entries[k].key) { return Some(Below(path, entries[k].key)); }
        assert entries[k..][1..] == entries[k + 1..];
      }
    }
    error := None;
  }

  method CheckCombinator(v: Value, s: Schema, c: Combinator, path: string) returns (error: Option<string>)
    ensures error == CombinatorError(v, s, c, path)
    decreases s, 1, 0
  {
    hide Check, Conforms;
    var branches := BranchesOf(s, c);
    if branches.NoBranches? { return None; }
    if branches.list == [] { return Some(path + "/" + Keyword(c)); }
    var matches: nat := 0;
    for k := 0 to |branches.list|
      invariant matches == Matches(v, s, c, path, k)
    {
      var raised := CheckPayload(v, branches.list[k], path);
      if raised.Some? { continue; }
      matches := matches + 1;
    }
    error := if Accepted(c, matches, |branches.list|) then None else Some(path);
  }
}
