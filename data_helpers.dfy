/** The raw-record normaliser of src/app/analysis/utils/dataHelpers.ts: a total
    map from a loosely typed uploaded row to a `PitchRecord`. */
module DataHelpers {
  import opened Options
  import opened Text
  import opened Records
  import Seqs

  /** A stored value of an uploaded row. A key that is not in the map is
      JavaScript's `undefined`. */
  datatype RawValue = Str(s: string) | Null

  type RawRecord = map<string, RawValue>

  /** `parseFloat`, left abstract: `None` is `NaN`. */
  type FloatParser = string -> Option<real>

  const IdKey := "id"
  const DocumentIdKey := "documentId"
  const DateKey := "日付"
  const SpeedKey := "速度(kph)"
  const SpinKey := "SPIN"
  const TrueSpinKey := "TRUE SPIN"
  const SpinEffKey := "SPIN EFF."
  const SpinDirectionKey := "SPIN DIRECTION"
  const VerticalMovementKey := "線の変化量(cm)"
  const HorizontalMovementKey := "軸の変化量(cm)"
  const StrikeKey := "ストライク"
  const ReleasePointKey := "リリースポイントの高さ(m)"
  const AbsorptionKey := "absorption"

  /** The affirmative token of the strike column. */
  const StrikeYes := "はい"

  /** `rawData[key]`, with `None` for `undefined`. */
  function Get(raw: RawRecord, key: string): Option<RawValue> {
    if key in raw then Some(raw[key]) else None
  }

  /** `safeToString`: `null` and `undefined` become "", anything else its text. */
  function SafeToString(v: Option<RawValue>): (r: string)
    ensures v.None? || v == Some(Null) ==> r == ""
    ensures v.Some? && v.value.Str? ==> r == v.value.s
  {
    match v
    case Some(Str(s)) => s
    case _ => ""
  }

  /** A stored value JavaScript treats as true: non-empty text. The falsy
      ones are `undefined`, `null` and "". */
  predicate TruthyText(v: Option<RawValue>) {
    v.Some? && v.value.Str? && v.value.s != ""
  }

  /** `rawData[key] || fallback` for a text field: falsy values are
      `undefined`, `null` and "". */
  function TextOr(v: Option<RawValue>, fallback: string): (r: string)
    ensures fallback != "" ==> r != ""
    ensures !TruthyText(v) ==> r == fallback
    ensures TruthyText(v) ==> r == v.value.s
  {
    match v
    case Some(Str(s)) => if s != "" then s else fallback
    case _ => fallback
  }

  // ---------------------------------------------------------------------
  // The spin-direction table, and how JavaScript looks a key up in it.

  /** The twelve entries of `convertSpinDirection`'s table: each clock label maps to itself. */
  const SpinDirectionTable: map<string, string> := map[
    "1:00" := "1:00", "2:00" := "2:00", "3:00" := "3:00", "4:00" := "4:00",
    "5:00" := "5:00", "6:00" := "6:00", "7:00" := "7:00", "8:00" := "8:00",
    "9:00" := "9:00", "10:00" := "10:00", "11:00" := "11:00", "12:00" := "12:00"]

  /** The property names every object literal inherits from `Object.prototype`. */
  const ObjectPrototypeNames: set<string> := {
    "constructor", "hasOwnProperty", "isPrototypeOf", "propertyIsEnumerable",
    "toLocaleString", "toString", "valueOf", "__proto__",
    "__defineGetter__", "__defineSetter__", "__lookupGetter__", "__lookupSetter__"}

  /** The outcome of `table[key]` on an object literal. */
  datatype PropertyLookup = Own(value: string) | Inherited(name: string) | Undefined

  /** The value an expression `table[key] || key` evaluates to: a string, or
      (for an inherited member) a function or object that is not a string. */
  datatype JsValue = JsString(s: string) | JsObject(name: string)

  /** Property access on an object literal built from `table`: own keys
      first, then the prototype chain, then `undefined`. */
  function LiteralLookup(table: map<string, string>, key: string): (r: PropertyLookup)
    ensures key in table ==> r == Own(table[key])
    ensures key !in table && key !in ObjectPrototypeNames ==> r == Undefined
  {
    if key in table then Own(table[key])
    else if key in ObjectPrototypeNames then Inherited(key)
    else Undefined
  }

  /** `table[key] || key` as written: an inherited member is truthy and is returned. */
  function LookupOrKeyAsWritten(table: map<string, string>, key: string): JsValue {
    match LiteralLookup(table, key)
    case Own(v) => if v != "" then JsString(v) else JsString(key)
    case Inherited(name) => JsObject(name)
    case Undefined => JsString(key)
  }

  /** `convertSpinDirection` as written. */
  function ConvertSpinDirectionAsWritten(direction: string): (r: JsValue)
    ensures direction !in ObjectPrototypeNames ==> r == JsString(direction)
  {
    LookupOrKeyAsWritten(SpinDirectionTable, direction)
  }

  /** The label "toString" comes back as `Object.prototype.toString`, not as a string. */
  lemma ConvertSpinDirectionAsWrittenReturnsFunction()
    ensures ConvertSpinDirectionAsWritten("toString") == JsObject("toString")
    ensures !ConvertSpinDirectionAsWritten("toString").JsString?
  {
    assert "toString" !in SpinDirectionTable;
  }

  /** `convertSpinDirection` as intended: only the table's own entries are
      consulted, so every label, listed or not, comes back unchanged. */
  function ConvertSpinDirection(direction: string): (r: string)
    ensures r == direction
  {
    if direction in SpinDirectionTable && SpinDirectionTable[direction] != ""
    then SpinDirectionTable[direction]
    else direction
  }

  /** The two versions differ only on the inherited property names. */
  lemma ConvertSpinDirectionAgreesOffPrototype(direction: string)
    requires direction !in ObjectPrototypeNames
    ensures ConvertSpinDirectionAsWritten(direction) == JsString(ConvertSpinDirection(direction))
  {
  }

  // ---------------------------------------------------------------------
  // The normaliser.

  /** `parseFloat(safeToString(rawData[key]))`, with 0 for `NaN` (both the
      `isNaN(x) ? 0 : x` and the `x || 0` forms). */
  function FloatField(raw: RawRecord, key: string, parseFloat: FloatParser): real {
    parseFloat(SafeToString(Get(raw, key))).GetOr(0.0)
  }

  /** `parseInt(safeToString(rawData[key]), 10)`, with 0 for `NaN`. */
  function IntField(raw: RawRecord, key: string): int {
    ParseInt10(SafeToString(Get(raw, key))).GetOr(0)
  }

  function SpinEffField(raw: RawRecord, parseFloat: FloatParser): real {
    parseFloat(RemoveFirst(SafeToString(Get(raw, SpinEffKey)), '%')).GetOr(0.0)
  }

  function SpinDirectionField(raw: RawRecord): (r: Option<string>)
    ensures forall s :: r == Some(s) <==> Get(raw, SpinDirectionKey) == Some(Str(s))
  {
    match Get(raw, SpinDirectionKey)
    case Some(Str(s)) => Some(ConvertSpinDirection(s))
    case _ => None
  }

  function DocumentIdField(raw: RawRecord): Option<string> {
    match Get(raw, DocumentIdKey)
    case Some(Str(s)) => if s != "" then Some(s) else None
    case _ => None
  }

  function StrikeField(raw: RawRecord): (r: int)
    ensures r == 0 || r == 1
    ensures r == 1 <==> Get(raw, StrikeKey) == Some(Str(StrikeYes))
  {
    if Get(raw, StrikeKey) == Some(Str(StrikeYes)) then 1 else 0
  }

  /** `mapRawDataToPlayerData`. Never fails: every missing or unparseable
      value has a default. */
  function MapRawDataToPlayerData(raw: RawRecord, parseFloat: FloatParser): (r: PitchRecord)
    ensures r.id != "" && r.date != "" && r.absorption != ""
    ensures r.strike == 0 || r.strike == 1
    ensures r.strike == 1 <==> Get(raw, StrikeKey) == Some(Str(StrikeYes))
    ensures forall s :: r.spinDirection == Some(s) <==> Get(raw, SpinDirectionKey) == Some(Str(s))
  {
    PitchRecord(
      id := TextOr(Get(raw, IdKey), "unknown-id"),
      documentId := DocumentIdField(raw),
      date := TextOr(Get(raw, DateKey), "unknown-date"),
      speed := FloatField(raw, SpeedKey, parseFloat),
      spin := IntField(raw, SpinKey),
      trueSpin := IntField(raw, TrueSpinKey),
      spinEff := SpinEffField(raw, parseFloat),
      spinDirection := SpinDirectionField(raw),
      verticalMovement := FloatField(raw, VerticalMovementKey, parseFloat),
      horizontalMovement := FloatField(raw, HorizontalMovementKey, parseFloat),
      strike := StrikeField(raw),
      releasePoint := FloatField(raw, ReleasePointKey, parseFloat),
      absorption := TextOr(Get(raw, AbsorptionKey), "unknown"))
  }

  /** The diagnostics the normaliser writes to the console. */
  datatype Diagnostic = InvalidSpeed(speed: Option<RawValue>) | InvalidSpin(spin: Option<RawValue>)

  function NormaliserDiagnostics(raw: RawRecord, parseFloat: FloatParser): seq<Diagnostic> {
    (if parseFloat(SafeToString(Get(raw, SpeedKey))).None? then [InvalidSpeed(Get(raw, SpeedKey))] else [])
    + (if ParseInt10(SafeToString(Get(raw, SpinKey))).None? then [InvalidSpin(Get(raw, SpinKey))] else [])
  }

  /** The speed is the parsed value; it falls back to 0 exactly when the
      parse fails, and that failure is reported with the raw value. */
  lemma SpeedDiagnostics(raw: RawRecord, parseFloat: FloatParser)
    ensures var speed := parseFloat(SafeToString(Get(raw, SpeedKey)));
            speed.Some? ==> MapRawDataToPlayerData(raw, parseFloat).speed == speed.value
    ensures var speed := parseFloat(SafeToString(Get(raw, SpeedKey)));
            speed.None? ==> MapRawDataToPlayerData(raw, parseFloat).speed == 0.0
    ensures var speed := parseFloat(SafeToString(Get(raw, SpeedKey)));
            InvalidSpeed(Get(raw, SpeedKey)) in NormaliserDiagnostics(raw, parseFloat) <==> speed.None?
  {
  }

  /** The same for the spin, parsed with `parseInt(..., 10)`. */
  lemma SpinDiagnostics(raw: RawRecord, parseFloat: FloatParser)
    ensures var spin := ParseInt10(SafeToString(Get(raw, SpinKey)));
            spin.Some? ==> MapRawDataToPlayerData(raw, parseFloat).spin == spin.value
    ensures var spin := ParseInt10(SafeToString(Get(raw, SpinKey)));
            spin.None? ==> MapRawDataToPlayerData(raw, parseFloat).spin == 0
    ensures var spin := ParseInt10(SafeToString(Get(raw, SpinKey)));
            InvalidSpin(Get(raw, SpinKey)) in NormaliserDiagnostics(raw, parseFloat) <==> spin.None?
    ensures |NormaliserDiagnostics(raw, parseFloat)| <= 2
  {
    SpinValue(raw, parseFloat);
    SpinReport(raw, parseFloat);
  }

  lemma SpinValue(raw: RawRecord, parseFloat: FloatParser)
    ensures MapRawDataToPlayerData(raw, parseFloat).spin == ParseInt10(SafeToString(Get(raw, SpinKey))).GetOr(0)
  {
  }

  lemma SpinReport(raw: RawRecord, parseFloat: FloatParser)
    ensures InvalidSpin(Get(raw, SpinKey)) in NormaliserDiagnostics(raw, parseFloat)
            <==> ParseInt10(SafeToString(Get(raw, SpinKey))).None?
    ensures |NormaliserDiagnostics(raw, parseFloat)| <= 2
  {
  }

  /** The integer spin is the base-10 integer prefix of the SPIN text: for
      the digits of `n` followed by anything that does not start with a
      digit, the spin is `n`. */
  lemma SpinIsIntegerPrefix(raw: RawRecord, parseFloat: FloatParser, n: nat, rest: string)
    requires rest == [] || !IsDigit(rest[0])
    requires Get(raw, SpinKey) == Some(Str(NatToString(n) + rest))
    ensures MapRawDataToPlayerData(raw, parseFloat).spin == n
  {
    assert SafeToString(Get(raw, SpinKey)) == NatToString(n) + rest;
    ParseIntOfDigitsThen(n, rest);
    SpinValue(raw, parseFloat);
  }

  /** The key has no value: absent (`undefined`) or `null`. */
  predicate Absent(raw: RawRecord, key: string) {
    key !in raw || raw[key] == Null
  }

  lemma AbsentFloatFieldIsZero(raw: RawRecord, key: string, parseFloat: FloatParser)
    requires parseFloat("") == None
    requires Absent(raw, key)
    ensures FloatField(raw, key, parseFloat) == 0.0
  {
  }

  lemma AbsentIntFieldIsZero(raw: RawRecord, key: string)
    requires Absent(raw, key)
    ensures IntField(raw, key) == 0
  {
    assert ParseInt10("") == None;
  }

  lemma AbsentSpinEffIsZero(raw: RawRecord, parseFloat: FloatParser)
    requires parseFloat("") == None
    requires Absent(raw, SpinEffKey)
    ensures SpinEffField(raw, parseFloat) == 0.0
  {
    assert RemoveFirst("", '%') == "";
  }

  /** A row without any value for the numeric columns normalises every
      numeric field to 0, given that `parseFloat("")` is `NaN`. */
  lemma AbsentNumericFieldsAreZero(raw: RawRecord, parseFloat: FloatParser)
    requires parseFloat("") == None
    requires Absent(raw, SpeedKey) && Absent(raw, SpinKey) && Absent(raw, TrueSpinKey)
    requires Absent(raw, SpinEffKey) && Absent(raw, VerticalMovementKey)
    requires Absent(raw, HorizontalMovementKey) && Absent(raw, ReleasePointKey)
    ensures MapRawDataToPlayerData(raw, parseFloat).speed == 0.0
    ensures MapRawDataToPlayerData(raw, parseFloat).spin == 0
    ensures MapRawDataToPlayerData(raw, parseFloat).trueSpin == 0
    ensures MapRawDataToPlayerData(raw, parseFloat).spinEff == 0.0
    ensures MapRawDataToPlayerData(raw, parseFloat).verticalMovement == 0.0
    ensures MapRawDataToPlayerData(raw, parseFloat).horizontalMovement == 0.0
    ensures MapRawDataToPlayerData(raw, parseFloat).releasePoint == 0.0
  {
    AbsentFloatFieldIsZero(raw, SpeedKey, parseFloat);
    AbsentIntFieldIsZero(raw, SpinKey);
    AbsentIntFieldIsZero(raw, TrueSpinKey);
    AbsentSpinEffIsZero(raw, parseFloat);
    AbsentFloatFieldIsZero(raw, VerticalMovementKey, parseFloat);
    AbsentFloatFieldIsZero(raw, HorizontalMovementKey, parseFloat);
    AbsentFloatFieldIsZero(raw, ReleasePointKey, parseFloat);
  }

  /** A trailing "%" does not change the spin efficiency: "85%" and "85" normalise alike. */
  lemma SpinEffIgnoresPercent(raw: RawRecord, parseFloat: FloatParser, s: string)
    requires '%' !in s
    ensures MapRawDataToPlayerData(raw[SpinEffKey := Str(s + "%")], parseFloat).spinEff
         == MapRawDataToPlayerData(raw[SpinEffKey := Str(s)], parseFloat).spinEff
  {
    var withPercent, without := raw[SpinEffKey := Str(s + "%")], raw[SpinEffKey := Str(s)];
    SpinEffOf(withPercent, parseFloat);
    SpinEffOf(without, parseFloat);
    assert SafeToString(Get(withPercent, SpinEffKey)) == s + "%";
    assert SafeToString(Get(without, SpinEffKey)) == s;
    RemovePercentSuffix(s);
  }

  /** The id, date and absorption fall back to "unknown-id", "unknown-date"
      and "unknown" exactly when the stored value is falsy, and otherwise
      keep the stored text. */
  lemma TextFieldFallbacks(raw: RawRecord, parseFloat: FloatParser)
    ensures !TruthyText(Get(raw, IdKey)) ==> MapRawDataToPlayerData(raw, parseFloat).id == "unknown-id"
    ensures TruthyText(Get(raw, IdKey)) ==> MapRawDataToPlayerData(raw, parseFloat).id == Get(raw, IdKey).value.s
    ensures !TruthyText(Get(raw, DateKey)) ==> MapRawDataToPlayerData(raw, parseFloat).date == "unknown-date"
    ensures TruthyText(Get(raw, DateKey)) ==> MapRawDataToPlayerData(raw, parseFloat).date == Get(raw, DateKey).value.s
    ensures !TruthyText(Get(raw, AbsorptionKey)) ==> MapRawDataToPlayerData(raw, parseFloat).absorption == "unknown"
    ensures TruthyText(Get(raw, AbsorptionKey)) ==>
              MapRawDataToPlayerData(raw, parseFloat).absorption == Get(raw, AbsorptionKey).value.s
  {
    var r := MapRawDataToPlayerData(raw, parseFloat);
    TextFieldsOf(raw, parseFloat);
    TextOrOf(Get(raw, IdKey), "unknown-id", r.id);
    TextOrOf(Get(raw, DateKey), "unknown-date", r.date);
    TextOrOf(Get(raw, AbsorptionKey), "unknown", r.absorption);
  }

  lemma TextOrOf(v: Option<RawValue>, fallback: string, r: string)
    requires r == TextOr(v, fallback)
    ensures !TruthyText(v) ==> r == fallback
    ensures TruthyText(v) ==> r == v.value.s
  {
  }

  lemma TextFieldsOf(raw: RawRecord, parseFloat: FloatParser)
    ensures MapRawDataToPlayerData(raw, parseFloat).id == TextOr(Get(raw, IdKey), "unknown-id")
    ensures MapRawDataToPlayerData(raw, parseFloat).date == TextOr(Get(raw, DateKey), "unknown-date")
    ensures MapRawDataToPlayerData(raw, parseFloat).absorption == TextOr(Get(raw, AbsorptionKey), "unknown")
  {
    MappedFields(raw, parseFloat);
  }

  lemma SpinEffOf(raw: RawRecord, parseFloat: FloatParser)
    ensures MapRawDataToPlayerData(raw, parseFloat).spinEff == SpinEffField(raw, parseFloat)
  {
    MappedFields(raw, parseFloat);
  }

  lemma RemovePercentSuffix(s: string)
    requires '%' !in s
    ensures RemoveFirst(s + "%", '%') == s
  {
    var t := s + "%";
    assert t[|s|] == '%' && t[..|s|] == s;
    assert Seqs.FirstIndex(t, '%') == |s|;
  }

  /** Each output field is computed from the record by its own field rule. */
  lemma MappedFields(raw: RawRecord, parseFloat: FloatParser)
    ensures MapRawDataToPlayerData(raw, parseFloat) == PitchRecord(
              TextOr(Get(raw, IdKey), "unknown-id"), DocumentIdField(raw), TextOr(Get(raw, DateKey), "unknown-date"),
              FloatField(raw, SpeedKey, parseFloat), IntField(raw, SpinKey), IntField(raw, TrueSpinKey),
              SpinEffField(raw, parseFloat), SpinDirectionField(raw),
              FloatField(raw, VerticalMovementKey, parseFloat), FloatField(raw, HorizontalMovementKey, parseFloat),
              StrikeField(raw), FloatField(raw, ReleasePointKey, parseFloat), TextOr(Get(raw, AbsorptionKey), "unknown"))
  {
  }

  predicate AgreeOn(raw1: RawRecord, raw2: RawRecord, key: string) {
    Get(raw1, key) == Get(raw2, key)
  }

  /** Each output field is determined by its own input key alone. */
  lemma NormaliserLocality(raw1: RawRecord, raw2: RawRecord, parseFloat: FloatParser)
    ensures var r1, r2 := MapRawDataToPlayerData(raw1, parseFloat), MapRawDataToPlayerData(raw2, parseFloat);
            && (AgreeOn(raw1, raw2, IdKey) ==> r1.id == r2.id)
            && (AgreeOn(raw1, raw2, DocumentIdKey) ==> r1.documentId == r2.documentId)
            && (AgreeOn(raw1, raw2, DateKey) ==> r1.date == r2.date)
            && (AgreeOn(raw1, raw2, SpeedKey) ==> r1.speed == r2.speed)
            && (AgreeOn(raw1, raw2, SpinKey) ==> r1.spin == r2.spin)
            && (AgreeOn(raw1, raw2, TrueSpinKey) ==> r1.trueSpin == r2.trueSpin)
            && (AgreeOn(raw1, raw2, SpinEffKey) ==> r1.spinEff == r2.spinEff)
            && (AgreeOn(raw1, raw2, SpinDirectionKey) ==> r1.spinDirection == r2.spinDirection)
            && (AgreeOn(raw1, raw2, VerticalMovementKey) ==> r1.verticalMovement == r2.verticalMovement)
            && (AgreeOn(raw1, raw2, HorizontalMovementKey) ==> r1.horizontalMovement == r2.horizontalMovement)
            && (AgreeOn(raw1, raw2, StrikeKey) ==> r1.strike == r2.strike)
            && (AgreeOn(raw1, raw2, ReleasePointKey) ==> r1.releasePoint == r2.releasePoint)
            && (AgreeOn(raw1, raw2, AbsorptionKey) ==> r1.absorption == r2.absorption)
  {
    MappedFields(raw1, parseFloat);
    MappedFields(raw2, parseFloat);
  }
}
