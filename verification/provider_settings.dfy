/** Provider settings: accepting a map of settings against a provider's schema, and cutting it down to what may be
    stored. */
module ProviderSettings {
  import opened Text
  import opened Wrappers

  // ----- values

  datatype Float = NaN | Infinite(negative: bool) | Finite(value: real)

  /** Nothing is less than NaN, nor NaN than anything. */
  predicate Less(x: Float, y: Float) {
    match (x, y)
    case (Finite(a), Finite(b)) => a < b
    case (Infinite(negative), Finite(_)) => negative
    case (Finite(_), Infinite(negative)) => !negative
    case (Infinite(a), Infinite(b)) => a && !b
    case _ => false
  }

  /** What a value can be. Whole numbers come signed or unsigned, of any width up to 64 bits, floats in two widths. */
  datatype Value =
    | Text(text: string) | Boolean(flag: bool) | Signed(n: int) | Unsigned(u: nat)
    | Float32(single: Float) | Float64(double: Float) | Unsupported

  datatype ValueType = StringType | BooleanType | IntegerType | NumberType | UnknownType

  const MAX_INT64 := 0x7FFF_FFFF_FFFF_FFFF

  const MIN_INT64 := -0x8000_0000_0000_0000

  /** What the hardware does: rounding a whole number to a float, and converting the one float that passes the range
      check but does not fit. */
  datatype Machine = Machine(round: int -> real, overflowed: int)

  function WholeFloat(m: Machine, x: Float): Option<int> {
    if !x.Finite? || x.value.Floor as real != x.value || x.value < MIN_INT64 as real || x.value > (MAX_INT64 + 1) as real then None
    else if x.value.Floor > MAX_INT64 then Some(m.overflowed)
    else Some(x.value.Floor)
  }

  function NormalizeInteger(m: Machine, v: Value): Option<int> {
    match v
    case Signed(n) => Some(n)
    case Unsigned(u) => if u > MAX_INT64 then None else Some(u)
    case Float32(x) => WholeFloat(m, x)
    case Float64(x) => WholeFloat(m, x)
    case _ => None
  }

  /** Only the wide float is checked for being finite. */
  function NormalizeNumber(m: Machine, v: Value): Option<Float> {
    match v
    case Signed(n) => Some(Finite(m.round(n)))
    case Unsigned(u) => Some(Finite(m.round(u)))
    case Float32(x) => Some(x)
    case Float64(x) => if x.Finite? then Some(x) else None
    case _ => None
  }

  function NormalizeScalar(m: Machine, t: ValueType, v: Value): Option<Value> {
    match t
    case StringType => if v.Text? then Some(v) else None
    case BooleanType => if v.Boolean? then Some(v) else None
    case IntegerType => (match NormalizeInteger(m, v) case Some(n) => Some(Signed(n)) case None => None)
    case NumberType => (match NormalizeNumber(m, v) case Some(x) => Some(Float64(x)) case None => None)
    case UnknownType => None
  }

  datatype Pattern = NoPattern | BadPattern | Matching(accepts: string -> bool)

  datatype Persistence = Profile | Ephemeral | UnknownPersistence

  datatype Property = Property(
    valueType: ValueType,
    choices: seq<Value>,
    minLength: Option<int>,
    maxLength: Option<int>,
    pattern: Pattern,
    minimum: Option<Float>,
    maximum: Option<Float>,
    writeOnly: bool,
    persistence: Persistence)

  /** A choice that does not fit its own type ends the search with an error, unless the value matched before;
      NaN matches nothing. */
  function MatchesChoice(m: Machine, t: ValueType, choices: seq<Value>, v: Value): bool {
    if choices == [] then false else
    match NormalizeScalar(m, t, choices[0])
    case None => false
    case Some(c) => (c == v && c != Float64(NaN)) || MatchesChoice(m, t, choices[1..], v)
  }

  predicate WithinLength(p: Property, s: string) {
    && (p.minLength.Some? ==> |s| >= p.minLength.value)
    && (p.maxLength.Some? ==> |s| <= p.maxLength.value)
    && !p.pattern.BadPattern? && (p.pattern.Matching? ==> p.pattern.accepts(s))
  }

  predicate WithinRange(p: Property, x: Float) {
    (p.minimum.Some? ==> !Less(x, p.minimum.value)) && (p.maximum.Some? ==> !Less(p.maximum.value, x))
  }

  predicate Constrained(m: Machine, p: Property, v: Value) {
    match p.valueType
    case StringType => v.Text? && WithinLength(p, v.text)
    case IntegerType => v.Signed? && WithinRange(p, Finite(m.round(v.n)))
    case NumberType => v.Float64? && WithinRange(p, v.double)
    case _ => true
  }

  function NormalizeValue(m: Machine, p: Property, v: Value): Option<Value> {
    match NormalizeScalar(m, p.valueType, v)
    case None => None
    case Some(w) =>
      if p.choices != [] && !MatchesChoice(m, p.valueType, p.choices, w) then None
      else if Constrained(m, p, w) then Some(w) else None
  }

  /** A narrow float that is not finite passes as a number, and comes out as a wide one, which would not. */
  predicate SlipsThrough(p: Property, v: Value) { p.valueType.NumberType? && v.Float32? && !v.single.Finite? }

  /** Normalising a normalised value changes nothing, except that what slipped through is refused. */
  lemma NormalValuesStay(m: Machine, p: Property, v: Value)
    requires NormalizeValue(m, p, v).Some?
    ensures NormalizeValue(m, p, NormalizeValue(m, p, v).value) == if SlipsThrough(p, v) then None else NormalizeValue(m, p, v)
  {
  }

  // ----- settings

  type Settings = map<string, Value>

  datatype Schema = Schema(properties: map<string, Property>, required: seq<string>)

  datatype Mode = Immediate | PersistedProfile | PersistedProviderConfig

  predicate Persistable(p: Property) { !p.writeOnly && p.persistence.Profile? }

  predicate Admitted(p: Property, mode: Mode) { mode.Immediate? || Persistable(p) }

  /** Keys must not be empty once trimmed, nor coincide. */
  predicate KeysOk(s: Settings) {
    && (forall k :: k in s ==> TrimSpace(k) != "")
    && (forall j, k :: j in s && k in s && TrimSpace(j) == TrimSpace(k) ==> j == k)
  }

  function NormalizeKeys(s: Settings): Settings
    requires KeysOk(s)
  {
    map k | k in s :: TrimSpace(k) := s[k]
  }

  predicate Accepts(m: Machine, properties: map<string, Property>, mode: Mode, k: string, v: Value) {
    k in properties && Admitted(properties[k], mode) && NormalizeValue(m, properties[k], v).Some?
  }

  /** A required key counts if it is declared, literally, and this mode may hold it at all. */
  predicate RequiredMet(schema: Schema, mode: Mode, keys: set<string>) {
    forall k :: k in schema.required && k in schema.properties && Admitted(schema.properties[k], mode) ==> k in keys
  }

  predicate AllAccepted(m: Machine, properties: map<string, Property>, mode: Mode, t: Settings) {
    forall k :: k in t ==> Accepts(m, properties, mode, k, t[k])
  }

  function NormalizeValues(m: Machine, properties: map<string, Property>, t: Settings): Settings
    requires AllAccepted(m, properties, Immediate, t)
  {
    map k | k in t :: NormalizeValue(m, properties[k], t[k]).value
  }

  function NormalizeDeclared(m: Machine, schema: Schema, t: Settings, mode: Mode): Option<Settings> {
    if !AllAccepted(m, schema.properties, mode, t) || !RequiredMet(schema, mode, t.Keys) then None
    else
      assert forall k :: k in t ==> Accepts(m, schema.properties, mode, k, t[k]);
      Some(NormalizeValues(m, schema.properties, t))
  }

  predicate Declares(schema: Option<Schema>) { schema.Some? && schema.value.properties != map[] }

  /** None is an error. No settings and an empty map are the same. */
  function Normalize(m: Machine, schema: Option<Schema>, s: Settings, mode: Mode): Option<Settings> {
    if !KeysOk(s) then None
    else if Declares(schema) then NormalizeDeclared(m, schema.value, NormalizeKeys(s), mode)
    else if NormalizeKeys(s) == map[] then Some(map[]) else None
  }

  function Redact(schema: Option<Schema>, s: Settings): Settings {
    if schema.None? || schema.value.properties == map[] then map[] else
    var properties := schema.value.properties;
    map k | k in s && k in properties && Persistable(properties[k]) :: s[k]
  }

  // ----- accepted settings

  predicate TrimmedKeys(s: Settings) { forall k :: k in s ==> k != "" && TrimSpace(k) == k }

  lemma TrimmedKeysStay(s: Settings)
    requires TrimmedKeys(s)
    ensures KeysOk(s) && NormalizeKeys(s) == s
  {
    forall j, k | j in s && k in s && TrimSpace(j) == TrimSpace(k) ensures j == k {
      assert TrimSpace(j) == j && TrimSpace(k) == k;
    }
    var t := NormalizeKeys(s);
    forall k | k in s ensures k in t && t[k] == s[k] {
      assert TrimSpace(k) == k;
    }
    forall k | k in t ensures k in s {
    }
    assert t.Keys == s.Keys;
  }

  lemma NormalizeTrimmed(m: Machine, schema: Option<Schema>, t: Settings, mode: Mode)
    requires TrimmedKeys(t) && Declares(schema)
    ensures Normalize(m, schema, t, mode) == NormalizeDeclared(m, schema.value, t, mode)
  {
    TrimmedKeysStay(t);
  }

  lemma KeysAreTrimmed(s: Settings)
    requires KeysOk(s)
    ensures TrimmedKeys(NormalizeKeys(s))
  {
    forall k | k in NormalizeKeys(s) ensures k != "" && TrimSpace(k) == k {
      var j :| j in s && TrimSpace(j) == k;
      TrimSpaceIsIdempotent(j);
    }
  }

  /** What acceptance gives: trimmed, declared keys, each with the normal form of the value it came with. */
  lemma AcceptedShape(m: Machine, schema: Option<Schema>, s: Settings, mode: Mode)
    requires Normalize(m, schema, s, mode).Some?
    ensures var n := Normalize(m, schema, s, mode).value;
            && KeysOk(s) && TrimmedKeys(n) && n.Keys == NormalizeKeys(s).Keys
            && (n != map[] ==> Declares(schema))
            && (Declares(schema) ==> RequiredMet(schema.value, mode, n.Keys))
            && (forall k :: k in n ==> Accepts(m, schema.value.properties, mode, k, NormalizeKeys(s)[k])
                                       && NormalizeValue(m, schema.value.properties[k], NormalizeKeys(s)[k]) == Some(n[k]))
  {
    KeysAreTrimmed(s);
    if Declares(schema) {
      assert AllAccepted(m, schema.value.properties, mode, NormalizeKeys(s));
      assert AllAccepted(m, schema.value.properties, Immediate, NormalizeKeys(s));
    }
  }

  /** A trimmed map of normal values is accepted as it is, or not at all. */
  predicate Normal(m: Machine, properties: map<string, Property>, n: Settings) {
    forall k :: k in n && k in properties && NormalizeValue(m, properties[k], n[k]).Some? ==>
      NormalizeValue(m, properties[k], n[k]) == Some(n[k])
  }

  lemma NormalIsKept(m: Machine, schema: Option<Schema>, n: Settings, mode: Mode)
    requires TrimmedKeys(n) && Declares(schema) && RequiredMet(schema.value, mode, n.Keys)
    requires Normal(m, schema.value.properties, n)
    requires forall k :: k in n ==> k in schema.value.properties && Admitted(schema.value.properties[k], mode)
    ensures Normalize(m, schema, n, mode) ==
            if forall k :: k in n ==> NormalizeValue(m, schema.value.properties[k], n[k]).Some? then Some(n) else None
  {
    NormalizeTrimmed(m, schema, n, mode);
    if AllAccepted(m, schema.value.properties, mode, n) {
      assert forall k :: k in n ==> Accepts(m, schema.value.properties, mode, k, n[k]);
      assert AllAccepted(m, schema.value.properties, Immediate, n);
      assert NormalizeValues(m, schema.value.properties, n) == n;
    }
  }

  /** No setting under a declared number key, or under one that may be stored, is a narrow float that is not finite. */
  predicate FiniteNumbers(schema: Option<Schema>, s: Settings, storedOnly: bool) {
    schema.Some? ==> forall k :: k in s && TrimSpace(k) in schema.value.properties ==>
      (storedOnly ==> Persistable(schema.value.properties[TrimSpace(k)])) ==> !SlipsThrough(schema.value.properties[TrimSpace(k)], s[k])
  }

  /** Which accepted values are normal. */
  lemma AcceptedValues(m: Machine, schema: Option<Schema>, s: Settings, mode: Mode, k: string)
    requires Normalize(m, schema, s, mode).Some? && k in s
    ensures var n := Normalize(m, schema, s, mode).value; var key := TrimSpace(k);
            && key in n && Declares(schema) && key in schema.value.properties
            && NormalizeValue(m, schema.value.properties[key], n[key]) ==
               if SlipsThrough(schema.value.properties[key], s[k]) then None else Some(n[key])
  {
    AcceptedShape(m, schema, s, mode);
    assert TrimSpace(k) in NormalizeKeys(s) && NormalizeKeys(s)[TrimSpace(k)] == s[k];
    NormalValuesStay(m, schema.value.properties[TrimSpace(k)], s[k]);
  }

  lemma AcceptedIsNormal(m: Machine, schema: Option<Schema>, s: Settings, mode: Mode)
    requires Normalize(m, schema, s, mode).Some? && Declares(schema)
    ensures var n := Normalize(m, schema, s, mode).value;
            && Normal(m, schema.value.properties, n)
            && (forall k :: k in n ==> k in schema.value.properties)
            && (FiniteNumbers(schema, s, false) <==> forall k :: k in n ==> NormalizeValue(m, schema.value.properties[k], n[k]).Some?)
            && (FiniteNumbers(schema, s, true) <==>
                  forall k :: k in n && Persistable(schema.value.properties[k]) ==> NormalizeValue(m, schema.value.properties[k], n[k]).Some?)
  {
    var n := Normalize(m, schema, s, mode).value;
    AcceptedShape(m, schema, s, mode);
    forall k | k in s
      ensures TrimSpace(k) in n && TrimSpace(k) in schema.value.properties
      ensures NormalizeValue(m, schema.value.properties[TrimSpace(k)], n[TrimSpace(k)]) ==
              if SlipsThrough(schema.value.properties[TrimSpace(k)], s[k]) then None else Some(n[TrimSpace(k)])
    {
      AcceptedValues(m, schema, s, mode, k);
    }
    forall k | k in n ensures exists j :: j in s && TrimSpace(j) == k {
      assert k in NormalizeKeys(s);
    }
  }

  /** Accepting what was accepted changes nothing if and only if every number was finite; otherwise it fails. */
  lemma AcceptedStaysAccepted(m: Machine, schema: Option<Schema>, s: Settings, mode: Mode)
    requires Normalize(m, schema, s, mode).Some?
    ensures var n := Normalize(m, schema, s, mode).value;
            Normalize(m, schema, n, mode) == if FiniteNumbers(schema, s, false) then Some(n) else None
  {
    AcceptedShape(m, schema, s, mode);
    if Declares(schema) {
      AcceptedIsNormal(m, schema, s, mode);
      NormalIsKept(m, schema, Normalize(m, schema, s, mode).value, mode);
    } else {
      assert NormalizeKeys(s) == map[];
    }
  }

  lemma StoredKeys(m: Machine, schema: Option<Schema>, part: Settings, mode: Mode)
    requires TrimmedKeys(part) && !mode.Immediate? && Normalize(m, schema, part, mode).Some?
    ensures forall k :: k in part ==> schema.Some? && k in schema.value.properties && Persistable(schema.value.properties[k])
  {
    TrimmedKeysStay(part);
    if part != map[] {
      assert AllAccepted(m, schema.value.properties, mode, part);
    }
  }

  lemma StoredPartIsKept(m: Machine, schema: Option<Schema>, n: Settings, part: Settings, mode: Mode)
    requires TrimmedKeys(n) && part.Keys <= n.Keys && !mode.Immediate? && Normalize(m, schema, part, mode).Some?
    ensures part.Keys <= Redact(schema, n).Keys
  {
    assert TrimmedKeys(part);
    StoredKeys(m, schema, part, mode);
  }

  lemma RedactKeeps(m: Machine, schema: Schema, n: Settings, mode: Mode)
    requires TrimmedKeys(n) && schema.properties != map[] && RequiredMet(schema, Immediate, n.Keys) && !mode.Immediate?
    requires Normal(m, schema.properties, n)
    ensures var r := Redact(Some(schema), n);
            && TrimmedKeys(r) && RequiredMet(schema, mode, r.Keys) && Normal(m, schema.properties, r)
            && (forall k :: k in r <==> k in n && k in schema.properties && Persistable(schema.properties[k]))
            && (forall k :: k in r ==> r[k] == n[k])
  {
  }

  lemma RedactedShape(m: Machine, schema: Option<Schema>, s: Settings, mode: Mode)
    requires Normalize(m, schema, s, Immediate).Some? && !mode.Immediate?
    ensures var r := Redact(schema, Normalize(m, schema, s, Immediate).value);
            Normalize(m, schema, r, mode) == if FiniteNumbers(schema, s, true) then Some(r) else None
  {
    AcceptedShape(m, schema, s, Immediate);
    if Declares(schema) {
      var n := Normalize(m, schema, s, Immediate).value;
      AcceptedIsNormal(m, schema, s, Immediate);
      RedactKeeps(m, schema.value, n, mode);
      NormalIsKept(m, schema, Redact(schema, n), mode);
    } else {
      assert NormalizeKeys(s) == map[];
    }
  }

  /** For every schema: what redaction leaves of settings accepted for immediate use can be stored, and then
      unchanged, if and only if every number in it was finite. Nothing under any other of their keys can be stored. */
  lemma RedactedCanBeStored(m: Machine, schema: Option<Schema>, s: Settings, mode: Mode)
    requires Normalize(m, schema, s, Immediate).Some? && !mode.Immediate?
    ensures var n := Normalize(m, schema, s, Immediate).value;
            && Normalize(m, schema, Redact(schema, n), mode) ==
               (if FiniteNumbers(schema, s, true) then Some(Redact(schema, n)) else None)
            && (forall part: Settings :: part.Keys <= n.Keys && Normalize(m, schema, part, mode).Some? ==>
                  part.Keys <= Redact(schema, n).Keys)
  {
    var n := Normalize(m, schema, s, Immediate).value;
    AcceptedShape(m, schema, s, Immediate);
    RedactedShape(m, schema, s, mode);
    forall part: Settings | part.Keys <= n.Keys && Normalize(m, schema, part, mode).Some?
      ensures part.Keys <= Redact(schema, n).Keys
    {
      StoredPartIsKept(m, schema, n, part, mode);
    }
  }

  const PLAIN_NUMBER := Property(NumberType, [], None, None, NoPattern, None, None, false, Profile)

  function NumberSchema(key: string): Schema { Schema(map[key := PLAIN_NUMBER], []) }

  /** What a schema with one key makes of one setting. */
  lemma OneSetting(m: Machine, schema: Schema, key: string, v: Value, mode: Mode)
    requires schema.properties.Keys == {key} && schema.required == [] && Admitted(schema.properties[key], mode)
    ensures NormalizeDeclared(m, schema, map[key := v], mode) ==
            match NormalizeValue(m, schema.properties[key], v)
            case Some(w) => Some(map[key := w])
            case None => None
  {
    var t := map[key := v];
    assert key in t && forall k :: k in t ==> k == key && t[k] == v;
    assert AllAccepted(m, schema.properties, mode, t) <==> Accepts(m, schema.properties, mode, key, v);
    if NormalizeValue(m, schema.properties[key], v).Some? {
      assert AllAccepted(m, schema.properties, Immediate, t);
      assert NormalizeValues(m, schema.properties, t) == map[key := NormalizeValue(m, schema.properties[key], v).value];
    }
  }

  lemma OneNumber(m: Machine, key: string, v: Value, mode: Mode)
    requires key != "" && TrimSpace(key) == key
    ensures Normalize(m, Some(NumberSchema(key)), map[key := v], mode) ==
            match NormalizeValue(m, PLAIN_NUMBER, v)
            case Some(w) => Some(map[key := w])
            case None => None
  {
    assert key in NumberSchema(key).properties;
    NormalizeTrimmed(m, Some(NumberSchema(key)), map[key := v], mode);
    OneSetting(m, NumberSchema(key), key, v, mode);
  }

  lemma PlainNumber(m: Machine, x: Float)
    requires !x.Finite?
    ensures NormalizeValue(m, PLAIN_NUMBER, Float32(x)) == Some(Float64(x))
    ensures NormalizeValue(m, PLAIN_NUMBER, Float64(x)) == None
  {
  }

  lemma RedactsNothing(key: string, v: Value)
    ensures Redact(Some(NumberSchema(key)), map[key := v]) == map[key := v]
  {
    assert key in NumberSchema(key).properties;
  }

  /** A narrow float that is not finite is accepted, survives redaction, and can then be neither stored nor accepted
      again. */
  lemma NonFiniteNumberCannotBeStored(m: Machine, key: string, x: Float, mode: Mode)
    requires !x.Finite? && key != "" && TrimSpace(key) == key
    ensures var schema := Some(NumberSchema(key));
            && Normalize(m, schema, map[key := Float32(x)], Immediate) == Some(map[key := Float64(x)])
            && Redact(schema, map[key := Float64(x)]) == map[key := Float64(x)]
            && Normalize(m, schema, map[key := Float64(x)], mode) == None
  {
    PlainNumber(m, x);
    OneNumber(m, key, Float32(x), Immediate);
    OneNumber(m, key, Float64(x), mode);
    RedactsNothing(key, Float64(x));
  }

  /** Nothing that may only be prompted for is ever stored, and redaction leaves stored settings alone. */
  lemma StoredSettingsHideNothing(m: Machine, schema: Option<Schema>, s: Settings, mode: Mode)
    requires Normalize(m, schema, s, mode).Some? && !mode.Immediate?
    ensures var n := Normalize(m, schema, s, mode).value;
            && Redact(schema, n) == n
            && (forall k :: k in n ==> schema.Some? && k in schema.value.properties && Persistable(schema.value.properties[k]))
  {
    AcceptedShape(m, schema, s, mode);
  }

  // ----- what is accepted

  /** The value is one of the choices, if there are any, and those before it are values of the type. */
  ghost predicate Chosen(m: Machine, p: Property, w: Value) {
    p.choices == [] || exists i :: ChosenAt(m, p.valueType, p.choices, w, i)
  }

  predicate ChosenAt(m: Machine, t: ValueType, choices: seq<Value>, w: Value, i: int) {
    && 0 <= i < |choices| && w != Float64(NaN) && NormalizeScalar(m, t, choices[i]) == Some(w)
    && forall j :: 0 <= j < i ==> NormalizeScalar(m, t, choices[j]).Some?
  }

  lemma {:induction false} MatchesWhatIsChosen(m: Machine, t: ValueType, choices: seq<Value>, w: Value)
    ensures MatchesChoice(m, t, choices, w) <==> exists i :: ChosenAt(m, t, choices, w, i)
  {
    if choices != [] {
      MatchesWhatIsChosen(m, t, choices[1..], w);
      if i :| ChosenAt(m, t, choices, w, i) {
        ChosenTail(m, t, choices, w, i);
      }
      if i :| ChosenAt(m, t, choices[1..], w, i) {
        ChosenTail(m, t, choices, w, i + 1);
      }
      if NormalizeScalar(m, t, choices[0]) == Some(w) && w != Float64(NaN) {
        assert ChosenAt(m, t, choices, w, 0);
      }
    }
  }

  lemma ChosenTail(m: Machine, t: ValueType, choices: seq<Value>, w: Value, i: int)
    requires choices != []
    ensures i > 0 ==> (ChosenAt(m, t, choices, w, i) <==> NormalizeScalar(m, t, choices[0]).Some? && ChosenAt(m, t, choices[1..], w, i - 1))
  {
    assert forall j :: 0 < j < |choices| ==> choices[j] == choices[1..][j - 1];
    if i > 0 && NormalizeScalar(m, t, choices[0]).Some? && ChosenAt(m, t, choices[1..], w, i - 1) {
      forall j | 0 <= j < i ensures NormalizeScalar(m, t, choices[j]).Some? {
        assert j > 0 ==> choices[j] == choices[1..][j - 1];
      }
    }
    if ChosenAt(m, t, choices, w, i) && i > 0 {
      forall j | 0 <= j < i - 1 ensures NormalizeScalar(m, t, choices[1..][j]).Some? {
        assert choices[1..][j] == choices[j + 1];
      }
    }
  }

  /** The whole number a value stands for. */
  predicate StandsForInteger(m: Machine, v: Value, n: int) {
    match v
    case Signed(i) => n == i
    case Unsigned(u) => n == u && u <= MAX_INT64
    case Float32(x) => StandsForFloat(m, x, n)
    case Float64(x) => StandsForFloat(m, x, n)
    case _ => false
  }

  predicate StandsForFloat(m: Machine, x: Float, n: int) {
    (x == Finite(n as real) && MIN_INT64 <= n <= MAX_INT64) || (x == Finite((MAX_INT64 + 1) as real) && n == m.overflowed)
  }

  /** The number a value stands for. */
  predicate StandsForNumber(m: Machine, v: Value, x: Float) {
    match v
    case Signed(n) => x == Finite(m.round(n))
    case Unsigned(u) => x == Finite(m.round(u))
    case Float32(y) => x == y
    case Float64(y) => x == y && x != NaN && x != Infinite(true) && x != Infinite(false)
    case _ => false
  }

  /** A bound that is not a number bounds nothing, and none bounds what is not a number. */
  predicate AtLeast(x: Float, bound: Option<Float>) {
    bound.Some? ==>
      match (bound.value, x)
      case (Finite(a), Finite(b)) => a <= b
      case (Infinite(below), Finite(_)) => below
      case (Finite(_), Infinite(below)) => !below
      case (Infinite(a), Infinite(b)) => a || !b
      case _ => true
  }

  predicate AtMost(x: Float, bound: Option<Float>) {
    bound.Some? ==>
      match (x, bound.value)
      case (Finite(a), Finite(b)) => a <= b
      case (Infinite(below), Finite(_)) => below
      case (Finite(_), Infinite(below)) => !below
      case (Infinite(a), Infinite(b)) => a || !b
      case _ => true
  }

  lemma RangeIsBetween(p: Property, x: Float)
    ensures WithinRange(p, x) <==> AtLeast(x, p.minimum) && AtMost(x, p.maximum)
  {
  }

  lemma IntegersStand(m: Machine, v: Value, n: int)
    ensures NormalizeInteger(m, v) == Some(n) <==> StandsForInteger(m, v, n)
  {
  }

  /** What a value must be, type by type. */
  ghost predicate ValueOk(m: Machine, p: Property, v: Value, w: Value) {
    && Chosen(m, p, w)
    && match p.valueType
       case StringType =>
         && v.Text? && w == v
         && (p.minLength.Some? ==> p.minLength.value <= |v.text|) && (p.maxLength.Some? ==> |v.text| <= p.maxLength.value)
         && p.pattern != BadPattern && (p.pattern.Matching? ==> p.pattern.accepts(v.text))
       case BooleanType => v.Boolean? && w == v
       case IntegerType =>
         && w.Signed? && StandsForInteger(m, v, w.n)
         && AtLeast(Finite(m.round(w.n)), p.minimum) && AtMost(Finite(m.round(w.n)), p.maximum)
       case NumberType =>
         && w.Float64? && StandsForNumber(m, v, w.double)
         && AtLeast(w.double, p.minimum) && AtMost(w.double, p.maximum)
       case UnknownType => false
  }

  lemma ScalarsStand(m: Machine, t: ValueType, v: Value, w: Value)
    ensures NormalizeScalar(m, t, v) == Some(w) <==>
            match t
            case StringType => v.Text? && w == v
            case BooleanType => v.Boolean? && w == v
            case IntegerType => w.Signed? && StandsForInteger(m, v, w.n)
            case NumberType => w.Float64? && StandsForNumber(m, v, w.double)
            case UnknownType => false
  {
    if t.IntegerType? && w.Signed? {
      IntegersStand(m, v, w.n);
    }
  }

  lemma ValuesAreAccepted(m: Machine, p: Property, v: Value, w: Value)
    ensures NormalizeValue(m, p, v) == Some(w) <==> ValueOk(m, p, v, w)
  {
    ScalarsStand(m, p.valueType, v, w);
    MatchesWhatIsChosen(m, p.valueType, p.choices, w);
    if w.Signed? {
      RangeIsBetween(p, Finite(m.round(w.n)));
    } else if w.Float64? {
      RangeIsBetween(p, w.double);
    }
  }

  /** A setting with this trimmed key and value may be held. */
  ghost predicate SettingOk(m: Machine, schema: Schema, mode: Mode, key: string, v: Value) {
    key in schema.properties && MayHold(schema.properties[key], mode) && exists w :: ValueOk(m, schema.properties[key], v, w)
  }

  predicate MayHold(p: Property, mode: Mode) { mode == Immediate || (!p.writeOnly && p.persistence == Profile) }

  lemma AcceptedSettings(m: Machine, schema: Schema, s: Settings, mode: Mode)
    requires KeysOk(s)
    ensures AllAccepted(m, schema.properties, mode, NormalizeKeys(s)) <==> forall k :: k in s ==> SettingOk(m, schema, mode, TrimSpace(k), s[k])
  {
    var t := NormalizeKeys(s);
    forall k | k in s
      ensures TrimSpace(k) in t && t[TrimSpace(k)] == s[k]
      ensures Accepts(m, schema.properties, mode, TrimSpace(k), s[k]) <==> SettingOk(m, schema, mode, TrimSpace(k), s[k])
    {
      if TrimSpace(k) in schema.properties {
        SomeValueIsAccepted(m, schema.properties[TrimSpace(k)], s[k]);
      }
    }
    if AllAccepted(m, schema.properties, mode, t) {
      forall k | k in s ensures SettingOk(m, schema, mode, TrimSpace(k), s[k]) {
        assert Accepts(m, schema.properties, mode, TrimSpace(k), t[TrimSpace(k)]);
      }
    }
  }

  ghost predicate RequiredGiven(schema: Schema, mode: Mode, s: Settings) {
    forall r :: r in schema.required && r in schema.properties && MayHold(schema.properties[r], mode) ==> exists k :: k in s && TrimSpace(k) == r
  }

  lemma RequiredIsGiven(schema: Schema, s: Settings, mode: Mode)
    requires KeysOk(s)
    ensures RequiredMet(schema, mode, NormalizeKeys(s).Keys) <==> RequiredGiven(schema, mode, s)
  {
    forall r ensures r in NormalizeKeys(s).Keys <==> exists k :: k in s && TrimSpace(k) == r {
    }
  }

  /** Settings are accepted exactly if their trimmed keys are distinct and not empty, each is declared and may be held in
      this mode, each value is what its property asks for, and every key required as written that may be held is given. */
  lemma SettingsAreAccepted(m: Machine, schema: Schema, s: Settings, mode: Mode)
    requires schema.properties != map[]
    ensures Normalize(m, Some(schema), s, mode).Some? <==>
            && (forall k :: k in s ==> TrimSpace(k) != "" && SettingOk(m, schema, mode, TrimSpace(k), s[k]))
            && (forall j, k :: j in s && k in s && TrimSpace(j) == TrimSpace(k) ==> j == k)
            && RequiredGiven(schema, mode, s)
  {
    if KeysOk(s) {
      AcceptedSettings(m, schema, s, mode);
      RequiredIsGiven(schema, s, mode);
    }
  }

  lemma SomeValueIsAccepted(m: Machine, p: Property, v: Value)
    ensures NormalizeValue(m, p, v).Some? <==> exists w :: ValueOk(m, p, v, w)
  {
    if NormalizeValue(m, p, v).Some? {
      ValuesAreAccepted(m, p, v, NormalizeValue(m, p, v).value);
    }
    if w :| ValueOk(m, p, v, w) {
      ValuesAreAccepted(m, p, v, w);
    }
  }

  // ----- required keys

  /** What the validation of a schema asks of its keys. */
  predicate SchemaKeysOk(schema: Schema) {
    && (forall k :: k in schema.properties ==> k != "" && TrimSpace(k) == k)
    && (forall k :: k in schema.required ==> TrimSpace(k) != "" && TrimSpace(k) in schema.properties)
  }

  /** The keys a schema means to require, in a mode that may hold them. */
  predicate Means(schema: Schema, mode: Mode, key: string) {
    key in schema.properties && Admitted(schema.properties[key], mode) && exists k :: k in schema.required && TrimSpace(k) == key
  }

  /** Every key that is meant is also listed as it is, without surrounding space. */
  ghost predicate RequiredAsWritten(schema: Schema, mode: Mode) {
    forall key :: Means(schema, mode, key) ==> key in schema.required
  }

  ghost predicate HasAllMeant(schema: Schema, mode: Mode, keys: set<string>) {
    forall key :: Means(schema, mode, key) ==> key in keys
  }

  lemma RequiredKeys(schema: Schema, mode: Mode)
    requires SchemaKeysOk(schema)
    ensures (forall keys :: keys <= schema.properties.Keys && RequiredMet(schema, mode, keys) ==> HasAllMeant(schema, mode, keys)) <==>
            RequiredAsWritten(schema, mode)
  {
    if key :| Means(schema, mode, key) && key !in schema.required {
      var keys := schema.properties.Keys - {key};
      assert RequiredMet(schema, mode, keys) && !HasAllMeant(schema, mode, keys);
    }
  }

  function Without(s: Settings, key: string): Settings { map k | k in s && TrimSpace(k) != key :: s[k] }

  lemma WithoutTrims(s: Settings, key: string)
    requires KeysOk(s)
    ensures KeysOk(Without(s, key)) && NormalizeKeys(Without(s, key)) == NormalizeKeys(s) - {key}
  {
    assert KeysOk(Without(s, key));
    var a, b := NormalizeKeys(Without(s, key)), NormalizeKeys(s) - {key};
    forall t | t in b ensures t in a && a[t] == b[t] {
      StaysWithout(s, key, t);
    }
    assert a.Keys == b.Keys;
  }

  lemma StaysWithout(s: Settings, key: string, t: string)
    requires KeysOk(s) && KeysOk(Without(s, key)) && t in NormalizeKeys(s) && t != key
    ensures t in NormalizeKeys(Without(s, key)) && NormalizeKeys(Without(s, key))[t] == NormalizeKeys(s)[t]
  {
    var k :| k in s && TrimSpace(k) == t;
    assert k in Without(s, key);
  }

  lemma DroppedDeclared(m: Machine, schema: Schema, t: Settings, mode: Mode, key: string)
    requires NormalizeDeclared(m, schema, t, mode).Some? && key in schema.properties && Admitted(schema.properties[key], mode)
    ensures NormalizeDeclared(m, schema, t - {key}, mode) ==
            if key in schema.required then None else Some(NormalizeDeclared(m, schema, t, mode).value - {key})
  {
    assert AllAccepted(m, schema.properties, mode, t - {key}) && AllAccepted(m, schema.properties, Immediate, t - {key}) by {
      assert forall k :: k in t ==> Accepts(m, schema.properties, mode, k, t[k]);
    }
    if key !in schema.required {
      assert RequiredMet(schema, mode, (t - {key}).Keys);
      assert NormalizeValues(m, schema.properties, t - {key}) == NormalizeValues(m, schema.properties, t) - {key};
    }
  }

  /** Taking a key out of accepted settings is noticed exactly if it is required as written. */
  lemma DroppedKey(m: Machine, schema: Schema, s: Settings, mode: Mode, key: string)
    requires Normalize(m, Some(schema), s, mode).Some? && Means(schema, mode, key)
    ensures Normalize(m, Some(schema), Without(s, key), mode) ==
            if key in schema.required then None else Some(Normalize(m, Some(schema), s, mode).value - {key})
  {
    WithoutTrims(s, key);
    DroppedDeclared(m, schema, NormalizeKeys(s), mode, key);
  }

  /** Validation trims a required key, acceptance does not: all accepted settings have all the keys that are meant if
      and only if these are listed without surrounding space, or no settings are accepted at all. */
  lemma RequiredIsEnforced(m: Machine, schema: Schema, mode: Mode)
    requires SchemaKeysOk(schema)
    ensures (forall s :: Normalize(m, Some(schema), s, mode).Some? ==>
               HasAllMeant(schema, mode, Normalize(m, Some(schema), s, mode).value.Keys)) <==>
            (RequiredAsWritten(schema, mode) || forall s :: Normalize(m, Some(schema), s, mode).None?)
  {
    forall s | Normalize(m, Some(schema), s, mode).Some?
      ensures RequiredAsWritten(schema, mode) ==> HasAllMeant(schema, mode, Normalize(m, Some(schema), s, mode).value.Keys)
    {
      AcceptedShape(m, Some(schema), s, mode);
    }
    if !RequiredAsWritten(schema, mode) {
      var key :| Means(schema, mode, key) && key !in schema.required;
      if s :| Normalize(m, Some(schema), s, mode).Some? {
        DroppedKey(m, schema, s, mode, key);
        assert !HasAllMeant(schema, mode, Normalize(m, Some(schema), Without(s, key), mode).value.Keys);
      }
    }
  }

  lemma EmptyIsAccepted(m: Machine, schema: Schema, mode: Mode)
    requires schema.properties != map[] && forall k :: k in schema.required ==> k !in schema.properties
    ensures Normalize(m, Some(schema), map[], mode) == Some(map[])
  {
    NormalizeTrimmed(m, Some(schema), map[], mode);
    assert NormalizeValues(m, schema.properties, map[]) == map[];
  }

  lemma PaddedSchema(schema: Schema, key: string, padded: string)
    requires schema.properties.Keys == {key} && schema.required == [padded]
    requires key != "" && TrimSpace(key) == key == TrimSpace(padded)
    ensures SchemaKeysOk(schema) && Means(schema, Immediate, key)
  {
    assert padded in schema.required && key in schema.properties;
  }

  /** A required key with white space around it passes validation, and settings without it are accepted. */
  lemma PaddedKeyIsNotRequired(m: Machine, schema: Schema, key: string, padded: string)
    requires schema.properties.Keys == {key} && schema.required == [padded]
    requires key != "" && TrimSpace(key) == key == TrimSpace(padded) && padded != key
    ensures SchemaKeysOk(schema) && Means(schema, Immediate, key)
    ensures Normalize(m, Some(schema), map[], Immediate) == Some(map[])
  {
    PaddedSchema(schema, key, padded);
    assert key in schema.properties;
    EmptyIsAccepted(m, schema, Immediate);
  }

  /** There are such keys. */
  lemma PaddedKeysExist()
    ensures TrimSpace("a") == "a" == TrimSpace(" a ")
  {
    assert " a "[1..] == "a " && "a "[..1] == "a";
  }

  // ----- the loops

  /** The trimmed form of the keys in `done`. */
  ghost predicate KeysDone(s: Settings, done: set<string>, normalized: Settings) {
    && done <= s.Keys
    && (forall k :: k in done ==> TrimSpace(k) != "" && TrimSpace(k) in normalized && normalized[TrimSpace(k)] == s[k])
    && (forall t :: t in normalized ==> exists k :: k in done && TrimSpace(k) == t)
    && (forall j, k :: j in done && k in done && TrimSpace(j) == TrimSpace(k) ==> j == k)
  }

  lemma OneMoreKey(s: Settings, done: set<string>, normalized: Settings, k: string)
    requires KeysDone(s, done, normalized) && k in s && k !in done && TrimSpace(k) != "" && TrimSpace(k) !in normalized
    ensures KeysDone(s, done + {k}, normalized[TrimSpace(k) := s[k]])
  {
    var n := normalized[TrimSpace(k) := s[k]];
    forall t | t in n ensures exists j :: j in done + {k} && TrimSpace(j) == t {
      if t in normalized {
        var j :| j in done && TrimSpace(j) == t;
        assert j in done + {k};
      } else {
        assert k in done + {k} && TrimSpace(k) == t;
      }
    }
  }

  lemma AllKeysDone(s: Settings, normalized: Settings)
    requires KeysDone(s, s.Keys, normalized)
    ensures KeysOk(s) && normalized == NormalizeKeys(s)
  {
    DoneKeysOk(s, normalized);
    var n := NormalizeKeys(s);
    forall t | t in normalized ensures t in n && n[t] == normalized[t] {
      var k :| k in s.Keys && TrimSpace(k) == t;
    }
    forall t | t in n ensures t in normalized {
      var k :| k in s && TrimSpace(k) == t;
      assert k in s.Keys;
    }
  }

  lemma DoneKeysOk(s: Settings, normalized: Settings)
    requires KeysDone(s, s.Keys, normalized)
    ensures KeysOk(s)
  {
    forall k | k in s ensures TrimSpace(k) != "" {
      assert k in s.Keys;
    }
    forall j, k | j in s && k in s && TrimSpace(j) == TrimSpace(k) ensures j == k {
      assert j in s.Keys && k in s.Keys;
    }
  }

  method NormalizeProviderSettingsKeys(s: Settings) returns (r: Option<Settings>)
    ensures r == if KeysOk(s) then Some(NormalizeKeys(s)) else None
  {
    var normalized: Settings := map[];
    var rest := s.Keys;
    while rest != {}
      invariant rest <= s.Keys && KeysDone(s, s.Keys - rest, normalized)
      decreases |rest|
    {
      var k :| k in rest;
      var trimmed := TrimSpace(k);
      if trimmed == "" {
        return None;
      }
      if trimmed in normalized {
        return None;
      }
      OneMoreKey(s, s.Keys - rest, normalized, k);
      assert s.Keys - (rest - {k}) == s.Keys - rest + {k};
      normalized := normalized[trimmed := s[k]];
      rest := rest - {k};
    }
    assert s.Keys - rest == s.Keys;
    AllKeysDone(s, normalized);
    return Some(normalized);
  }

  method RedactForOrdinaryRead(schema: Option<Schema>, s: Settings) returns (redacted: Settings)
    ensures redacted == Redact(schema, s)
  {
    redacted := map[];
    if schema.None? || |schema.value.properties| == 0 {
      return;
    }
    var properties := schema.value.properties;
    var rest := s.Keys;
    while rest != {}
      invariant rest <= s.Keys
      invariant forall k :: k in redacted <==> k in s && k !in rest && k in properties && Persistable(properties[k])
      invariant forall k :: k in redacted ==> redacted[k] == s[k]
      decreases |rest|
    {
      var k :| k in rest;
      rest := rest - {k};
      if k !in properties || !Persistable(properties[k]) {
        continue;
      }
      redacted := redacted[k := s[k]];
    }
  }

  method NormalizeEach(m: Machine, properties: map<string, Property>, t: Settings, mode: Mode) returns (r: Option<Settings>)
    ensures r.Some? <==> AllAccepted(m, properties, mode, t)
    ensures r.Some? ==> r.value.Keys == t.Keys
    ensures r.Some? ==> forall k :: k in t ==> NormalizeValue(m, properties[k], t[k]) == Some(r.value[k])
  {
    var normalized: Settings := map[];
    var rest := t.Keys;
    while rest != {}
      invariant rest <= t.Keys && normalized.Keys == t.Keys - rest
      invariant forall k :: k in normalized ==>
                  Accepts(m, properties, mode, k, t[k]) && NormalizeValue(m, properties[k], t[k]) == Some(normalized[k])
      decreases |rest|
    {
      var k :| k in rest;
      if k !in properties || !Admitted(properties[k], mode) {
        return None;
      }
      var v := NormalizeValue(m, properties[k], t[k]);
      if v.None? {
        return None;
      }
      normalized := normalized[k := v.value];
      rest := rest - {k};
    }
    return Some(normalized);
  }

  method CheckRequired(schema: Schema, mode: Mode, keys: set<string>) returns (ok: bool)
    ensures ok == RequiredMet(schema, mode, keys)
  {
    var required := schema.required;
    for i := 0 to |required|
      invariant forall j :: 0 <= j < i && required[j] in schema.properties && Admitted(schema.properties[required[j]], mode) ==>
                  required[j] in keys
    {
      if required[i] !in schema.properties || !Admitted(schema.properties[required[i]], mode) {
        continue;
      }
      if required[i] !in keys {
        return false;
      }
    }
    return true;
  }

  lemma NormalizedEach(m: Machine, properties: map<string, Property>, t: Settings, n: Settings, mode: Mode)
    requires AllAccepted(m, properties, mode, t) && n.Keys == t.Keys
    requires forall k :: k in t ==> NormalizeValue(m, properties[k], t[k]) == Some(n[k])
    ensures AllAccepted(m, properties, Immediate, t) && n == NormalizeValues(m, properties, t)
  {
    assert AllAccepted(m, properties, Immediate, t);
    assert n == NormalizeValues(m, properties, t);
  }

  method NormalizeForDescriptor(m: Machine, schema: Option<Schema>, s: Settings, mode: Mode) returns (r: Option<Settings>)
    ensures r == Normalize(m, schema, s, mode)
  {
    var input := NormalizeProviderSettingsKeys(s);
    if input.None? {
      return None;
    }
    var t := input.value;
    if schema.None? || |schema.value.properties| == 0 {
      return if |t| == 0 then Some(map[]) else None;
    }
    r := NormalizeEach(m, schema.value.properties, t, mode);
    if r.None? {
      return None;
    }
    var met := CheckRequired(schema.value, mode, r.value.Keys);
    if !met {
      return None;
    }
    NormalizedEach(m, schema.value.properties, t, r.value, mode);
  }
}
