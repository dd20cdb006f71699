/** From a stored record to form values and back to the payload that is saved. */
module FormPayload {
  import opened Sequences
  import opened ResourceForm
  import Text
  import Money

  /** A JSON value of a record or payload; an absent member is `undefined`. */
  datatype Value =
    | Null
    | Bool(flag: bool)
    | Num(number: real)
    | Txt(text: string)
    | Arr(items: seq<Value>)
    | Obj(members: map<string, Value>)

  type Members = map<string, Value>

  datatype Mode = Create | Edit

  /** Platform conversions: `String(x)`, `BigInt(s)`, `JSON.stringify`, `JSON.parse`, `Number(s)`, and the percentage and
      date conversions, which this model does not look into. */
  datatype Codecs = Codecs(
    show: Value -> string,
    bigInt: string -> Option<int>,
    stringify: Value -> string,
    parseJson: string -> Option<Value>,
    number: Option<FormValue> -> Option<real>,
    showPercent: Value -> string,
    parsePercent: string -> Option<real>,
    localTime: Option<Value> -> string,
    isoTime: string -> Option<string>)

  function Amount(m: int): Value {
    Num(m as real)
  }

  predicate Safe(m: int) {
    -Text.MAX_SAFE_INTEGER <= m <= Text.MAX_SAFE_INTEGER
  }

  /** Text prints as itself and a safe integer as its digits. */
  ghost predicate PrintsDigits(codecs: Codecs) {
    && (forall s: string :: codecs.show(Txt(s)) == s)
    && (forall m: int :: Safe(m) ==> codecs.show(Amount(m)) == Text.Number(m))
  }

  /** Digits are read as the number they write. */
  ghost predicate ReadsDigits(codecs: Codecs) {
    && (forall m: int :: codecs.bigInt(Text.Number(m)) == Some(m))
    && (forall m: int :: Safe(m) ==> codecs.number(Some(Str(Text.Number(m)))) == Some(m as real))
  }

  /** A number whose text is read as a safe integer is that integer; the text of a larger one may read as another. */
  ghost predicate ReadsBack(codecs: Codecs) {
    forall r: real, m: int :: Safe(m) && codecs.bigInt(codecs.show(Num(r))) == Some(m) ==> m as real == r
  }

  ghost predicate Faithful(codecs: Codecs) {
    PrintsDigits(codecs) && ReadsDigits(codecs) && ReadsBack(codecs)
  }

  lemma NumberInjective(m: int, n: int)
    requires Text.Number(m) == Text.Number(n)
    ensures m == n
  {
    Text.NumberPrefix(m, n, ",", ",");
  }

  /** The integer that `s` writes, if it writes one. */
  ghost function Reading(s: string): Option<int> {
    if exists m :: Text.Number(m) == s then
      var m :| Text.Number(m) == s;
      Some(m)
    else None
  }

  lemma ReadingOf(m: int)
    ensures Reading(Text.Number(m)) == Some(m)
  {
    NumberInjective(m, Reading(Text.Number(m)).value);
  }

  ghost function NumberReading(value: Option<FormValue>): Option<real> {
    if value.Some? && value.value.Str? && Reading(value.value.text).Some? then Some(Reading(value.value.text).value as real) else None
  }

  const TWO_TO_THE_57: int := 0x200_0000_0000_0000

  /** Digits of an integer; from 2^57 on the last one is lost. */
  function Rounded(m: int): int {
    if -TWO_TO_THE_57 < m < TWO_TO_THE_57 then m else m - m % 10
  }

  function Printed(v: Value): string {
    match v
    case Num(r) => if r.Floor as real == r then Text.Number(Rounded(r.Floor)) else "fraction"
    case Txt(s) => s
    case _ => "other"
  }

  ghost function PlainCodecs(): Codecs {
    Codecs(v => Printed(v), s => Reading(s), v => "", s => None, value => NumberReading(value), v => "", s => None, v => "", s => None)
  }

  lemma PrintedInteger(m: int)
    ensures Safe(m) ==> Printed(Amount(m)) == Text.Number(m)
    ensures NumberReading(Some(Str(Text.Number(m)))) == Some(m as real)
  {
    ReadingOf(m);
    assert (m as real).Floor == m;
  }

  lemma NoFraction(m: int)
    ensures Text.Number(m) != "fraction"
  {
    assert Text.Number(m)[0] == '-' || Text.IsDigit(Text.Number(m)[0]);
  }

  lemma ReadNumber(r: real, m: int)
    ensures Safe(m) && Reading(Printed(Num(r))) == Some(m) ==> m as real == r
  {
    if r.Floor as real == r {
      ReadingOf(Rounded(r.Floor));
    } else {
      NoFraction(m);
    }
  }

  lemma LargeMisread()
    ensures Reading(Printed(Amount(TWO_TO_THE_57))) == Some(TWO_TO_THE_57 - 2)
  {
    assert (TWO_TO_THE_57 as real).Floor == TWO_TO_THE_57 && Rounded(TWO_TO_THE_57) == TWO_TO_THE_57 - 2;
    ReadingOf(TWO_TO_THE_57 - 2);
  }

  /** The assumptions on the conversions have an instance, one in which 2^57 prints as an integer it is not. */
  lemma FaithfulIsConsistent()
    ensures Faithful(PlainCodecs())
    ensures PlainCodecs().bigInt(PlainCodecs().show(Amount(TWO_TO_THE_57))) == Some(TWO_TO_THE_57 - 2)
  {
    PlainPrints();
    PlainReads();
    PlainReadsBack();
    LargeMisread();
  }

  lemma PlainPrints()
    ensures PrintsDigits(PlainCodecs())
  {
    forall m: int | Safe(m) ensures PlainCodecs().show(Amount(m)) == Text.Number(m) {
      PrintedInteger(m);
    }
  }

  lemma PlainReads()
    ensures ReadsDigits(PlainCodecs())
  {
    forall m: int
      ensures PlainCodecs().bigInt(Text.Number(m)) == Some(m)
      ensures PlainCodecs().number(Some(Str(Text.Number(m)))) == Some(m as real)
    {
      ReadingOf(m);
      PrintedInteger(m);
    }
  }

  lemma PlainReadsBack()
    ensures ReadsBack(PlainCodecs())
  {
    forall r: real, m: int
      ensures Safe(m) && PlainCodecs().bigInt(PlainCodecs().show(Num(r))) == Some(m) ==> m as real == r
    {
      ReadNumber(r, m);
    }
  }

  /** The JSON text of `v` parses back to it, and is not empty. */
  predicate Representable(codecs: Codecs, v: Value) {
    codecs.parseJson(codecs.stringify(v)) == Some(v) && codecs.stringify(v) != ""
  }

  // ---- valuesFromRecord ----

  function SourceValue(record: Members, f: Field): Option<Value> {
    match f.payloadGroup
    case Some(group) =>
      if group.key in record && record[group.key].Obj? then Get(record[group.key].members, group.property) else None
    case None => Get(record, if f.sourceKey.Some? then f.sourceKey.value else f.key)
  }

  function Raw(f: Field, record: Option<Members>, defaults: Members): Option<Value> {
    var recordValue := if record.Some? then SourceValue(record.value, f) else None;
    if recordValue.None? then Get(defaults, f.key) else recordValue
  }

  function Nullish(raw: Option<Value>): bool {
    raw.None? || raw.value.Null?
  }

  function Truthy(raw: Option<Value>): bool {
    match raw
    case None => false
    case Some(v) =>
      match v
      case Null => false
      case Bool(flag) => flag
      case Num(r) => r != 0.0
      case Txt(s) => s != ""
      case Arr(_) => true
      case Obj(_) => true
  }

  function Join(items: seq<string>, separator: string): string {
    if items == [] then ""
    else if |items| == 1 then items[0]
    else items[0] + separator + Join(items[1..], separator)
  }

  function Without(members: Members, keys: seq<string>): Members {
    map k | k in members && k !in keys :: members[k]
  }

  /** What a JSON editor shows of a stored value. */
  function Editable(f: Field, raw: Option<Value>): Option<Value> {
    if raw.Some? && raw.value.Obj? then Some(Obj(Without(raw.value.members, f.excludeKeys))) else raw
  }

  /** `microUsdToUsd`. */
  function ShowMoney(codecs: Codecs, raw: Option<Value>): string {
    match codecs.bigInt(codecs.show(if Nullish(raw) then Num(0.0) else raw.value))
    case None => ""
    case Some(m) => Money.PrintUsd(m)
  }

  function CapabilityOn(raw: Option<Value>, name: string): bool {
    raw.Some? && raw.value.Obj? && Truthy(Get(raw.value.members, name))
  }

  function InitialValue(codecs: Codecs, f: Field, raw: Option<Value>, mode: Mode): FormValue {
    match f.control
    case Switch => Flag(Truthy(raw))
    case MultiSelect => List(Shown(codecs, raw))
    case RelationMulti => List(Shown(codecs, raw))
    case Tags => Str(Join(Shown(codecs, raw), ", "))
    case Capabilities => List(MapRows(Filter(f.options, (o: Choice) => CapabilityOn(raw, o.value)), (o: Choice) => o.value))
    case JsonEditor =>
      var shown := Editable(f, raw);
      Str(if Truthy(shown) then codecs.stringify(shown.value) else "{}")
    case DateTime => Str(codecs.localTime(raw))
    case MoneyInput => Str(if f.nullable && Nullish(raw) then "" else ShowMoney(codecs, raw))
    case Percentage => Str(if Nullish(raw) then "" else codecs.showPercent(raw.value))
    case _ =>
      if f.control.Password? && mode.Edit? then Str("")
      else Str(if Nullish(raw) then "" else codecs.show(raw.value))
  }

  function Shown(codecs: Codecs, raw: Option<Value>): seq<string> {
    if raw.Some? && raw.value.Arr? then MapRows(raw.value.items, v => codecs.show(v)) else []
  }

  function Initial(codecs: Codecs, fields: seq<Field>, record: Option<Members>, defaults: Members, mode: Mode): FormValues {
    if fields == [] then map[]
    else
      var f := fields[|fields| - 1];
      Initial(codecs, fields[..|fields| - 1], record, defaults, mode)
        [f.key := InitialValue(codecs, f, Raw(f, record, defaults), mode)]
  }

  function ValuesFromRecord(codecs: Codecs, fields: seq<Field>, record: Option<Members>, defaults: Members, mode: Mode): FormValues {
    Normalized(fields, Initial(codecs, fields, record, defaults, mode))
  }

  // ---- buildPayload ----

  datatype Fault =
    | NotAnInteger
    | BelowMinimum
    | AboveMaximum
    | NotANumber
    | MoneyRejected(reason: Money.Rejection)
    | PercentRejected
    | InvalidJson
    | InvalidDate

  /** What a field contributes: an assignment, nothing, or an error. */
  type Written = Result<Option<Value>, Fault>

  function FormText(value: Option<FormValue>): string {
    match value
    case None => ""
    case Some(Str(s)) => s
    case Some(Flag(on)) => if on then "true" else "false"
    case Some(List(items)) => Join(items, ",")
  }

  function FormTruthy(value: Option<FormValue>): bool {
    match value
    case None => false
    case Some(Str(s)) => s != ""
    case Some(Flag(on)) => on
    case Some(List(_)) => true
  }

  function Items(value: Option<FormValue>): seq<string> {
    if value.Some? && value.value.List? then value.value.items else []
  }

  function AsValue(value: FormValue): Value {
    match value
    case Str(s) => Txt(s)
    case Flag(on) => Bool(on)
    case List(items) => Arr(MapRows(items, (s: string) => Txt(s)))
  }

  function CutAt(s: string, separator: char): seq<string> {
    if s == [] then [""]
    else
      var rest := CutAt(s[1..], separator);
      if s[0] == separator then [""] + rest
      else if rest == [] then [[s[0]]] else [[s[0]] + rest[0]] + rest[1..]
  }

  function TagItems(s: string): seq<Value> {
    MapRows(Filter(MapRows(CutAt(s, ','), (item: string) => Text.Trim(item)), (item: string) => item != ""),
            (item: string) => Txt(item))
  }

  function SafeInteger(value: Option<real>): bool {
    value.Some? && value.value.Floor as real == value.value
    && Safe(value.value.Floor)
  }

  function WriteNumber(codecs: Codecs, f: Field, value: Option<FormValue>): Written {
    var number := codecs.number(value);
    if !SafeInteger(number) then Failure(NotAnInteger)
    else if f.min.Some? && number.value < f.min.value then Failure(BelowMinimum)
    else if f.max.Some? && number.value > f.max.value then Failure(AboveMaximum)
    else Success(Some(Num(number.value)))
  }

  function WriteMoney(f: Field, value: Option<FormValue>): Written {
    if f.nullable && value == Some(Str("")) then Success(Some(Null))
    else
      match Money.ParseUsd(FormText(value))
      case Failure(reason) => Failure(MoneyRejected(reason))
      case Success(m) => Success(Some(Amount(m)))
  }

  function WriteJson(codecs: Codecs, value: Option<FormValue>): Written {
    match codecs.parseJson(if FormTruthy(value) then FormText(value) else "{}")
    case None => Failure(InvalidJson)
    case Some(v) => Success(Some(v))
  }

  function WriteCapabilities(f: Field, value: Option<FormValue>): Written {
    Success(Some(Obj(map o | o in f.options :: o.value := Bool(o.value in Items(value)))))
  }

  /** The controls without a conversion of their own; assigning `undefined` writes no member. */
  function WritePlain(f: Field, value: Option<FormValue>, mode: Mode): Written {
    if f.control.Hidden? && value == Some(Str("")) then Success(None)
    else if value == Some(Str("")) && f.nullable then Success(Some(Null))
    else if value.Some? && (value != Some(Str("")) || f.required || mode.Create?) then Success(Some(AsValue(value.value)))
    else Success(None)
  }

  function Blank(f: Field): Written {
    Success(if f.nullable then Some(Null) else None)
  }

  function WriteControl(codecs: Codecs, f: Field, value: Option<FormValue>, mode: Mode): Written {
    match f.control
    case Switch => Success(Some(Bool(FormTruthy(value))))
    case NumberInput =>
      if value == Some(Str("")) then Blank(f)
      else if codecs.number(value).None? then Failure(NotANumber)
      else Success(Some(Num(codecs.number(value).value)))
    case MoneyInput => WriteMoney(f, value)
    case Percentage =>
      if codecs.parsePercent(FormText(value)).None? then Failure(PercentRejected)
      else Success(Some(Num(codecs.parsePercent(FormText(value)).value)))
    case JsonEditor => WriteJson(codecs, value)
    case MultiSelect => Success(Some(Arr(MapRows(Items(value), (s: string) => Txt(s)))))
    case RelationMulti => Success(Some(Arr(MapRows(Items(value), (s: string) => Txt(s)))))
    case Tags => Success(Some(Arr(TagItems(FormText(value)))))
    case Capabilities => WriteCapabilities(f, value)
    case DateTime =>
      if value == Some(Str("")) then Blank(f)
      else if codecs.isoTime(FormText(value)).None? then Failure(InvalidDate)
      else Success(Some(Txt(codecs.isoTime(FormText(value)).value)))
    case _ => WritePlain(f, value, mode)
  }

  predicate Skipped(f: Field, values: FormValues, mode: Mode) {
    || (f.control.Hidden? && f.key !in values)
    || (mode.Create? && f.updateOnly)
    || (mode.Edit? && (f.createOnly || f.readOnlyOnEdit))
  }

  /** One field's turn: `values` as submitted, `normalized` with its conditional options settled. */
  function Write(codecs: Codecs, f: Field, values: FormValues, normalized: FormValues, mode: Mode): Written {
    var value := Get(normalized, f.key);
    if Skipped(f, values, mode) then Success(None)
    else if f.serializeAsNumber then WriteNumber(codecs, f, value)
    else if mode.Edit? && f.omitEmptyOnUpdate && (value.None? || value == Some(Str(""))) then Success(None)
    else WriteControl(codecs, f, value, mode)
  }

  function FaultOf(written: Written): Option<Fault> {
    match written
    case Failure(fault) => Some(fault)
    case Success(_) => None
  }

  /** The payload under construction. */
  datatype Draft = Draft(payload: Members, grouped: map<string, Members>)

  function Assign(d: Draft, f: Field, value: Value): Draft {
    match f.payloadGroup
    case None => d.(payload := d.payload[f.key := value])
    case Some(group) =>
      var was := if group.key in d.grouped then d.grouped[group.key] else map[];
      d.(grouped := d.grouped[group.key := was[group.property := value]])
  }

  function Entered(d: Draft, f: Field, written: Written): Draft {
    if written.Success? && written.value.Some? then Assign(d, f, written.value.value) else d
  }

  const BLANK := Draft(map[], map[])

  function Drafted(fields: seq<Field>, write: Field -> Written): Draft {
    if fields == [] then BLANK
    else Entered(Drafted(fields[..|fields| - 1], write), fields[|fields| - 1], write(fields[|fields| - 1]))
  }

  lemma DraftStep(fields: seq<Field>, write: Field -> Written, i: nat)
    requires i < |fields|
    ensures Drafted(fields[..i + 1], write) == Entered(Drafted(fields[..i], write), fields[i], write(fields[i]))
  {
    assert fields[..i + 1][..i] == fields[..i];
  }

  function Merged(d: Draft, key: string): Value
    requires key in d.payload || key in d.grouped
  {
    if key !in d.grouped then d.payload[key]
    else
      var base := if key in d.payload && d.payload[key].Obj? then d.payload[key].members else map[];
      Obj(base + d.grouped[key])
  }

  function Merge(d: Draft): Members {
    map key | key in d.payload.Keys + d.grouped.Keys :: Merged(d, key)
  }

  ghost function Build(codecs: Codecs, fields: seq<Field>, values: FormValues, mode: Mode): Result<Members, Fault> {
    Collected(fields, f => Write(codecs, f, values, Normalized(fields, values), mode))
  }

  ghost function Collected(fields: seq<Field>, write: Field -> Written): Result<Members, Fault> {
    match FirstFault(fields, f => FaultOf(write(f)))
    case Some(fault) => Failure(fault)
    case None => Success(Merge(Drafted(fields, write)))
  }

  /** `buildPayload`. */
  method BuildPayload(codecs: Codecs, fields: seq<Field>, values: FormValues, mode: Mode) returns (result: Result<Members, Fault>)
    ensures result == Build(codecs, fields, values, mode)
  {
    var normalized := NormalizeConditionalOptions(fields, values);
    result := Collect(fields, f => Write(codecs, f, values, normalized, mode));
  }

  /** The loop over the fields: each assigns to the payload or to its group, or stops the form with its error. */
  method Collect(fields: seq<Field>, write: Field -> Written) returns (result: Result<Members, Fault>)
    ensures result == Collected(fields, write)
  {
    ghost var check := f => FaultOf(write(f));
    var draft := BLANK;
    for i := 0 to |fields|
      invariant FirstFault(fields[..i], check).None?
      invariant draft == Drafted(fields[..i], write)
    {
      var f := fields[i];
      var written := write(f);
      FaultStep(fields, check, i);
      DraftStep(fields, write, i);
      if written.Failure? {
        return Failure(written.error);
      }
      if written.value.Some? {
        draft := Assign(draft, f, written.value.value);
      }
    }
    assert fields[..|fields|] == fields;
    result := Success(Merge(draft));
  }
}
