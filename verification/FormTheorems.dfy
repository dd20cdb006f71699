/** What opening a form and saving it untouched keeps, and when it saves at all. */
module FormTheorems {
  import opened Sequences
  import opened ResourceForm
  import opened FormPayload
  import Text
  import Money

  /** A form as it is opened: on a record or on defaults alone, to create or to edit. */
  datatype Form = Form(codecs: Codecs, fields: seq<Field>, record: Option<Members>, defaults: Members, mode: Mode) {
    function Stored(f: Field): Option<Value> {
      Raw(f, record, defaults)
    }

    /** What `f` shows when the form opens. */
    function Shows(f: Field): FormValue {
      InitialValue(codecs, f, Stored(f), mode)
    }

    function Values(): FormValues {
      ValuesFromRecord(codecs, fields, record, defaults, mode)
    }

    /** What `f` holds when the payload is built. */
    function Holds(f: Field): Option<FormValue> {
      Get(Normalized(fields, Values()), f.key)
    }

    function Writing(): Field -> Written {
      f => Write(codecs, f, Values(), Normalized(fields, Values()), mode)
    }

    /** Submitting the values as they are. */
    ghost function Saved(): Result<Members, Fault> {
      Build(codecs, fields, Values(), mode)
    }
  }

  /** The mode writes this field back. */
  predicate WrittenIn(f: Field, mode: Mode) {
    if mode.Create? then !f.updateOnly else !f.createOnly && !f.readOnlyOnEdit
  }

  /** Written back by its own control, and not one of the conditional selects. */
  predicate Writable(f: Field, mode: Mode) {
    WrittenIn(f, mode) && !f.serializeAsNumber && !Conditional(f)
  }

  /** Shown blank, and left out of an update for that. */
  predicate Omitted(o: Form, f: Field) {
    o.mode.Edit? && f.omitEmptyOnUpdate && o.Shows(f) == Str("")
  }

  /** Where `f` is sent, mirroring where it is read from. */
  function Sent(payload: Members, f: Field): Option<Value> {
    SourceValue(payload, f.(sourceKey := None))
  }

  /** No other field writes to the place `f` writes to. */
  ghost predicate Alone(fields: seq<Field>, f: Field) {
    match f.payloadGroup
    case None => forall g :: g in fields && g.payloadGroup.Some? ==> g.payloadGroup.value.key != f.key
    case Some(group) => forall g :: g in fields && g.payloadGroup == f.payloadGroup ==> g == f
  }

  // ---- Values ----

  lemma {:induction false} NormalizedElsewhere(fields: seq<Field>, values: FormValues, key: string)
    requires forall g :: g in fields && Conditional(g) ==> g.key != key
    ensures Get(Normalized(fields, values), key) == Get(values, key)
  {
    if fields != [] {
      NormalizedElsewhere(fields[..|fields| - 1], values, key);
      assert fields[|fields| - 1] in fields;
    }
  }

  lemma {:induction false} InitialAt(codecs: Codecs, fields: seq<Field>, record: Option<Members>, defaults: Members, mode: Mode,
    f: Field)
    requires UniqueBy(fields, FieldKey) && f in fields
    ensures Get(Initial(codecs, fields, record, defaults, mode), f.key)
         == Some(InitialValue(codecs, f, Raw(f, record, defaults), mode))
  {
    var front, last := fields[..|fields| - 1], fields[|fields| - 1];
    if f != last {
      assert f in front && f.key != last.key by {
        assert fields == front + [last];
        UniqueRowKey(fields, f, last);
      }
      UniqueExtend(fields, FieldKey);
      InitialAt(codecs, front, record, defaults, mode, f);
    }
  }

  lemma UniqueRowKey(fields: seq<Field>, f: Field, g: Field)
    requires UniqueBy(fields, FieldKey) && f in fields && g in fields && f != g
    ensures f.key != g.key
  {
    if f.key == g.key {
      UniqueRow(fields, FieldKey, f, g);
    }
  }

  /** The value the payload is built from is the one the form was opened with. */
  lemma UntouchedValue(o: Form, f: Field)
    requires UniqueBy(o.fields, FieldKey) && f in o.fields && !Conditional(f)
    ensures o.Holds(f) == Some(o.Shows(f))
  {
    forall g | g in o.fields && Conditional(g) ensures g.key != f.key {
      UniqueRowKey(o.fields, f, g);
    }
    var initial := Initial(o.codecs, o.fields, o.record, o.defaults, o.mode);
    InitialAt(o.codecs, o.fields, o.record, o.defaults, o.mode, f);
    NormalizedElsewhere(o.fields, initial, f.key);
    NormalizedElsewhere(o.fields, Normalized(o.fields, initial), f.key);
  }

  lemma {:induction false} NormalizedKeeps(fields: seq<Field>, values: FormValues, key: string)
    requires key in values
    ensures key in Normalized(fields, values)
  {
    if fields != [] {
      NormalizedKeeps(fields[..|fields| - 1], values, key);
    }
  }

  lemma {:induction false} InitialHas(codecs: Codecs, fields: seq<Field>, record: Option<Members>, defaults: Members, mode: Mode,
    f: Field)
    requires f in fields
    ensures f.key in Initial(codecs, fields, record, defaults, mode)
  {
    var front, last := fields[..|fields| - 1], fields[|fields| - 1];
    assert fields == front + [last];
    if f in front {
      InitialHas(codecs, front, record, defaults, mode, f);
    }
  }

  /** Every field of an opened form has a value, so only its flags decide whether it is skipped. */
  lemma NeverMissing(o: Form, f: Field)
    requires f in o.fields
    ensures f.key in o.Values() && (Skipped(f, o.Values(), o.mode) <==> !WrittenIn(f, o.mode))
  {
    InitialHas(o.codecs, o.fields, o.record, o.defaults, o.mode, f);
    NormalizedKeeps(o.fields, Initial(o.codecs, o.fields, o.record, o.defaults, o.mode), f.key);
  }

  // ---- The draft ----

  ghost predicate Writes(write: Field -> Written, g: Field) {
    write(g).Success? && write(g).value.Some?
  }

  lemma {:induction false} DraftDirect(fields: seq<Field>, write: Field -> Written, f: Field)
    requires UniqueBy(fields, FieldKey) && f in fields && f.payloadGroup.None? && Writes(write, f)
    ensures Get(Drafted(fields, write).payload, f.key) == write(f).value
  {
    var front, last := fields[..|fields| - 1], fields[|fields| - 1];
    if f != last {
      assert fields == front + [last];
      UniqueRowKey(fields, f, last);
      DraftDirect(front, write, f);
    }
  }

  /** What the fields have written under one group key. */
  ghost function GroupOf(d: Draft, key: string): Members {
    if key in d.grouped then d.grouped[key] else map[]
  }

  lemma {:induction false} DraftGrouped(fields: seq<Field>, write: Field -> Written, f: Field)
    requires f in fields && f.payloadGroup.Some? && Writes(write, f)
    requires forall g :: g in fields && g.payloadGroup == f.payloadGroup ==> g == f
    ensures var group := f.payloadGroup.value; Get(GroupOf(Drafted(fields, write), group.key), group.property) == write(f).value
  {
    var front, last := fields[..|fields| - 1], fields[|fields| - 1];
    if f != last {
      assert fields == front + [last];
      assert last.payloadGroup != f.payloadGroup;
      DraftGrouped(front, write, f);
    }
  }

  /** A group holds exactly the properties its fields wrote. */
  lemma {:induction false} GroupProperties(fields: seq<Field>, write: Field -> Written, key: string, property: string)
    ensures property in GroupOf(Drafted(fields, write), key) <==>
            exists g :: g in fields && g.payloadGroup == Some(Group(key, property)) && Writes(write, g)
  {
    if fields != [] {
      var front, last := fields[..|fields| - 1], fields[|fields| - 1];
      GroupProperties(front, write, key, property);
      assert fields == front + [last];
    }
  }

  /** A key that no field groups under is not grouped. */
  lemma {:induction false} Ungrouped(fields: seq<Field>, write: Field -> Written, key: string)
    requires forall g :: g in fields && g.payloadGroup.Some? ==> g.payloadGroup.value.key != key
    ensures key !in Drafted(fields, write).grouped
  {
    if fields != [] {
      Ungrouped(fields[..|fields| - 1], write, key);
      assert fields[|fields| - 1] in fields;
    }
  }

  /** What a field wrote is what its place in the payload holds. */
  lemma SentIsWritten(fields: seq<Field>, write: Field -> Written, f: Field)
    requires UniqueBy(fields, FieldKey) && f in fields && Writes(write, f) && Alone(fields, f)
    ensures Sent(Merge(Drafted(fields, write)), f) == write(f).value
  {
    var d := Drafted(fields, write);
    match f.payloadGroup {
      case None =>
        DraftDirect(fields, write, f);
        Ungrouped(fields, write, f.key);
      case Some(group) =>
        DraftGrouped(fields, write, f);
    }
  }

  // ---- When a save succeeds ----

  predicate InBounds(f: Field, number: real) {
    (f.min.Some? ==> number >= f.min.value) && (f.max.Some? ==> number <= f.max.value)
  }

  /** The conversion `f` makes of `value` has a result. Only number, money, percentage, JSON and date fields convert. */
  predicate Converts(codecs: Codecs, f: Field, value: Option<FormValue>) {
    if f.serializeAsNumber then
      SafeInteger(codecs.number(value)) && InBounds(f, codecs.number(value).value)
    else
      match f.control
      case NumberInput => value == Some(Str("")) || codecs.number(value).Some?
      case MoneyInput => (f.nullable && value == Some(Str(""))) || Money.ParseUsd(FormText(value)).Success?
      case Percentage => codecs.parsePercent(FormText(value)).Some?
      case JsonEditor => codecs.parseJson(if FormTruthy(value) then FormText(value) else "{}").Some?
      case DateTime => value == Some(Str("")) || codecs.isoTime(FormText(value)).Some?
      case _ => true
  }

  /** `f` is not written at all, or what it holds converts. */
  predicate Fits(o: Form, f: Field) {
    || !WrittenIn(f, o.mode)
    || (o.mode.Edit? && f.omitEmptyOnUpdate && !f.serializeAsNumber && o.Holds(f) == Some(Str("")))
    || Converts(o.codecs, f, o.Holds(f))
  }

  ghost predicate AllFit(o: Form) {
    forall f :: f in o.fields ==> Fits(o, f)
  }

  lemma ControlConverts(codecs: Codecs, f: Field, value: Option<FormValue>, mode: Mode)
    requires !f.serializeAsNumber
    ensures WriteControl(codecs, f, value, mode).Success? <==> Converts(codecs, f, value)
  {
    if f.control.MoneyInput? {
      MoneyConverts(codecs, f, value, mode);
    } else {
      OtherConverts(codecs, f, value, mode);
    }
  }

  lemma MoneyConverts(codecs: Codecs, f: Field, value: Option<FormValue>, mode: Mode)
    requires f.control.MoneyInput? && !f.serializeAsNumber
    ensures WriteControl(codecs, f, value, mode).Success? <==> Converts(codecs, f, value)
  {
  }

  lemma OtherConverts(codecs: Codecs, f: Field, value: Option<FormValue>, mode: Mode)
    requires !f.control.MoneyInput? && !f.serializeAsNumber
    ensures WriteControl(codecs, f, value, mode).Success? <==> Converts(codecs, f, value)
  {
  }

  lemma FieldFits(o: Form, f: Field)
    requires f in o.fields
    ensures FaultOf(o.Writing()(f)).None? <==> Fits(o, f)
  {
    NeverMissing(o, f);
    NormalizedKeeps(o.fields, o.Values(), f.key);
    if !f.serializeAsNumber {
      ControlConverts(o.codecs, f, o.Holds(f), o.mode);
    }
  }

  /** An untouched form saves exactly when every field it writes back converts. */
  lemma SaveSucceeds(o: Form)
    ensures o.Saved().Success? <==> AllFit(o)
  {
    forall f | f in o.fields ensures FaultOf(o.Writing()(f)).None? <==> Fits(o, f) {
      FieldFits(o, f);
    }
    var check := f => FaultOf(o.Writing()(f));
    assert FirstFault(o.fields, check).None? <==> AllFit(o);
    SameChecks(o);
  }

  lemma SameChecks(o: Form)
    ensures o.Saved() == Collected(o.fields, o.Writing())
  {
    assert o.Writing() == (f => Write(o.codecs, f, o.Values(), Normalized(o.fields, o.Values()), o.mode));
  }

  /** What a field writes in a form that saves. */
  lemma SavedDraft(o: Form, f: Field)
    requires UniqueBy(o.fields, FieldKey) && f in o.fields && Writable(f, o.mode) && !f.control.Hidden?
    requires o.Saved().Success? && !Omitted(o, f)
    ensures var written := WriteControl(o.codecs, f, Some(o.Shows(f)), o.mode);
      && written.Success?
      && (written.value.Some? && Alone(o.fields, f) ==> Sent(o.Saved().value, f) == written.value)
  {
    var written := WriteControl(o.codecs, f, Some(o.Shows(f)), o.mode);
    SaveSucceeds(o);
    SameChecks(o);
    UntouchedValue(o, f);
    NeverMissing(o, f);
    ControlConverts(o.codecs, f, Some(o.Shows(f)), o.mode);
    assert o.Writing()(f) == written;
    if written.value.Some? && Alone(o.fields, f) {
      SentIsWritten(o.fields, o.Writing(), f);
    }
  }

  // ---- Money ----

  /** The amount in micro-USD a stored value stands for: any text or number that reads as an integer. */
  function Micros(codecs: Codecs, raw: Option<Value>): Option<int> {
    codecs.bigInt(codecs.show(if Nullish(raw) then Num(0.0) else raw.value))
  }

  predicate InRange(m: int) {
    0 <= m <= Text.MAX_SAFE_INTEGER
  }

  /** What an untouched save makes of a stored value: null, an amount, or a rejection. */
  function Settlement(codecs: Codecs, f: Field, raw: Option<Value>): Option<Value> {
    var micros := Micros(codecs, raw);
    if f.nullable && (Nullish(raw) || micros.None?) then Some(Null)
    else if micros.Some? && InRange(micros.value) then Some(Amount(micros.value))
    else None
  }

  lemma PrintedParses(m: int)
    ensures Money.PrintUsd(m) != ""
    ensures Money.ParseUsd(Money.PrintUsd(m)).Success? <==> InRange(m)
    ensures InRange(m) ==> Money.ParseUsd(Money.PrintUsd(m)) == Success(m)
  {
    Money.UsdRoundTrip(m);
    if m >= 0 {
      Money.PlainText(m);
    }
  }

  lemma BlankRejected()
    ensures Money.ParseUsd("") == Failure(Money.Malformed)
  {
    Text.TrimIsTrimmed("");
    assert Money.Whole("") == "";
  }

  lemma TextWritten(f: Field, text: string)
    ensures WriteMoney(f, Some(Str(text))) ==
            if f.nullable && text == "" then Success(Some(Null))
            else if Money.ParseUsd(text).Success? then Success(Some(Amount(Money.ParseUsd(text).value)))
            else Failure(MoneyRejected(Money.ParseUsd(text).error))
  {
  }

  lemma SettledText(f: Field, micros: Option<int>, text: string)
    requires text == (if micros.None? then "" else Money.PrintUsd(micros.value))
    ensures var written := WriteMoney(f, Some(Str(text)));
      var settlement := if micros.None? then (if f.nullable then Some(Null) else None)
                        else if InRange(micros.value) then Some(Amount(micros.value)) else None;
      (written.Success? <==> settlement.Some?) && (written.Success? ==> written.value == settlement)
  {
    TextWritten(f, text);
    if micros.Some? {
      PrintedParses(micros.value);
    } else {
      BlankRejected();
    }
  }

  /** The text a money field shows of a stored value. */
  function MoneyText(codecs: Codecs, f: Field, raw: Option<Value>): string {
    if f.nullable && Nullish(raw) then "" else ShowMoney(codecs, raw)
  }

  /** The text shown for a stored value is written as its settlement. */
  lemma MoneyWritten(codecs: Codecs, f: Field, raw: Option<Value>)
    ensures var written := WriteMoney(f, Some(Str(MoneyText(codecs, f, raw))));
      && (written.Success? <==> Settlement(codecs, f, raw).Some?)
      && (written.Success? ==> written.value == Settlement(codecs, f, raw))
  {
    if f.nullable && Nullish(raw) {
      TextWritten(f, "");
    } else {
      SettledText(f, Micros(codecs, raw), ShowMoney(codecs, raw));
    }
  }

  /** Blank where blank is allowed, or no integer. */
  predicate BlankMoney(codecs: Codecs, f: Field, raw: Option<Value>) {
    (f.nullable && Nullish(raw)) || Micros(codecs, raw).None?
  }

  lemma BlankText(codecs: Codecs, f: Field, raw: Option<Value>)
    ensures MoneyText(codecs, f, raw) == "" <==> BlankMoney(codecs, f, raw)
  {
    var micros := Micros(codecs, raw);
    if micros.Some? {
      PrintedParses(micros.value);
    }
  }

  /** A stored value an update leaves out. */
  predicate LeftOut(o: Form, f: Field) {
    o.mode.Edit? && f.omitEmptyOnUpdate && BlankMoney(o.codecs, f, o.Stored(f))
  }

  /** An untouched save sends every amount in range, stored as text or as a number, and null where a nullable field stores
      nothing or no integer, unless an update leaves such blanks out; a stored value that settles to neither stops the save. */
  lemma MoneySettles(o: Form, f: Field)
    requires UniqueBy(o.fields, FieldKey) && f in o.fields && Writable(f, o.mode) && Alone(o.fields, f) && f.control.MoneyInput?
    ensures var settlement := Settlement(o.codecs, f, o.Stored(f));
      && (settlement.None? && !LeftOut(o, f) ==> o.Saved().Failure?)
      && (AllFit(o) ==> o.Saved().Success?)
      && (AllFit(o) && !LeftOut(o, f) ==> settlement.Some? && Sent(o.Saved().value, f) == settlement)
  {
    SaveSucceeds(o);
    if o.Saved().Success? && !LeftOut(o, f) {
      MoneySent(o, f);
    }
  }

  lemma MoneySent(o: Form, f: Field)
    requires UniqueBy(o.fields, FieldKey) && f in o.fields && Writable(f, o.mode) && Alone(o.fields, f) && f.control.MoneyInput?
    requires o.Saved().Success? && !LeftOut(o, f)
    ensures Settlement(o.codecs, f, o.Stored(f)).Some? && Sent(o.Saved().value, f) == Settlement(o.codecs, f, o.Stored(f))
  {
    MoneyShown(o, f);
    BlankText(o.codecs, f, o.Stored(f));
    SavedDraft(o, f);
    MoneyReady(o.codecs, f, o.Stored(f), o.mode);
  }

  lemma MoneyShown(o: Form, f: Field)
    requires f.control.MoneyInput?
    ensures o.Shows(f) == Str(MoneyText(o.codecs, f, o.Stored(f)))
  {
  }

  lemma MoneyReady(codecs: Codecs, f: Field, raw: Option<Value>, mode: Mode)
    requires f.control.MoneyInput?
    ensures var written := WriteControl(codecs, f, Some(Str(MoneyText(codecs, f, raw))), mode);
      written.Success? ==> written.value.Some? && written.value == Settlement(codecs, f, raw)
  {
    MoneyControl(codecs, f, MoneyText(codecs, f, raw), mode);
    MoneyWritten(codecs, f, raw);
  }

  lemma MoneyControl(codecs: Codecs, f: Field, text: string, mode: Mode)
    requires f.control.MoneyInput?
    ensures WriteControl(codecs, f, Some(Str(text)), mode) == WriteMoney(f, Some(Str(text)))
  {
  }

  /** What an update leaves out is not in its payload. */
  lemma MoneyOmitted(o: Form, f: Field)
    requires UniqueBy(o.fields, FieldKey) && f in o.fields && Writable(f, o.mode) && Alone(o.fields, f)
    requires f.control.MoneyInput? && f.payloadGroup.None? && LeftOut(o, f) && AllFit(o)
    ensures o.Saved().Success? && Sent(o.Saved().value, f).None?
  {
    SaveSucceeds(o);
    SameChecks(o);
    MoneyShown(o, f);
    BlankText(o.codecs, f, o.Stored(f));
    OmittedWrite(o, f);
    Unwritten(o.fields, o.Writing(), f);
    Ungrouped(o.fields, o.Writing(), f.key);
  }

  lemma OmittedWrite(o: Form, f: Field)
    requires UniqueBy(o.fields, FieldKey) && f in o.fields && Writable(f, o.mode) && Omitted(o, f)
    ensures o.Writing()(f) == Success(None)
  {
    UntouchedValue(o, f);
    NeverMissing(o, f);
  }

  lemma {:induction false} Unwritten(fields: seq<Field>, write: Field -> Written, f: Field)
    requires forall g :: g in fields && g.key == f.key ==> !Writes(write, g)
    ensures f.key !in Drafted(fields, write).payload
  {
    if fields != [] {
      Unwritten(fields[..|fields| - 1], write, f);
      assert fields[|fields| - 1] in fields;
    }
  }

  /** `v` stores the amount `m`: as the text of the integer, or as a safe number. */
  predicate StoresAmount(v: Value, m: int) {
    v == Txt(Text.Number(m)) || (v == Amount(m) && Safe(m))
  }

  lemma StoredAmountReads(codecs: Codecs, v: Value, m: int)
    requires Faithful(codecs) && StoresAmount(v, m)
    ensures !v.Null? && codecs.bigInt(codecs.show(v)) == Some(m)
  {
  }

  /** Conservation of money in either mode, for every stored value that reads as an integer: an amount in range comes back,
      one out of range stops the save. */
  lemma MoneyConserved(o: Form, f: Field, v: Value, m: int)
    requires UniqueBy(o.fields, FieldKey) && f in o.fields && Writable(f, o.mode) && Alone(o.fields, f)
    requires f.control.MoneyInput? && o.Stored(f) == Some(v) && !v.Null? && o.codecs.bigInt(o.codecs.show(v)) == Some(m)
    ensures InRange(m) && AllFit(o) ==> o.Saved().Success? && Sent(o.Saved().value, f) == Some(Amount(m))
    ensures !InRange(m) ==> o.Saved().Failure?
  {
    assert Micros(o.codecs, Some(v)) == Some(m);
    MoneySettles(o, f);
  }

  /** A stored null, or a missing value, comes back as null on a nullable field, unless an update leaves it out, and as zero
      on any other. */
  lemma NullConserved(o: Form, f: Field)
    requires Faithful(o.codecs) && UniqueBy(o.fields, FieldKey) && f in o.fields && Writable(f, o.mode) && Alone(o.fields, f)
    requires f.control.MoneyInput? && Nullish(o.Stored(f)) && AllFit(o)
    ensures o.Saved().Success?
    ensures !(f.nullable && o.mode.Edit? && f.omitEmptyOnUpdate) ==>
              Sent(o.Saved().value, f) == Some(if f.nullable then Null else Amount(0))
  {
    assert Amount(0) == Num(0.0);
    assert o.codecs.bigInt(o.codecs.show(Amount(0))) == Some(0);
    MoneySettles(o, f);
  }

  predicate SafeAmount(r: real) {
    r.Floor as real == r && InRange(r.Floor)
  }

  /** The stored nulls and numbers that come back as they are. */
  predicate MoneyKept(f: Field, v: Value) {
    if v.Null? then f.nullable else v.Num? && SafeAmount(v.number)
  }

  lemma SafeShown(codecs: Codecs, r: real)
    requires Faithful(codecs)
    ensures SafeAmount(r) <==> Micros(codecs, Some(Num(r))).Some? && InRange(Micros(codecs, Some(Num(r))).value)
    ensures var m := Micros(codecs, Some(Num(r))); m.Some? && InRange(m.value) ==> Amount(m.value) == Num(r)
  {
    if SafeAmount(r) {
      assert Amount(r.Floor) == Num(r);
    }
  }

  /** A stored null or number that is not left out comes back unchanged exactly when it is a null of a nullable field or an
      amount in range. */
  lemma MoneyUnchanged(o: Form, f: Field, v: Value)
    requires Faithful(o.codecs) && UniqueBy(o.fields, FieldKey) && f in o.fields && Writable(f, o.mode) && Alone(o.fields, f)
    requires f.control.MoneyInput? && o.Stored(f) == Some(v) && (v.Null? || v.Num?) && AllFit(o)
    ensures o.Saved().Success? && (!LeftOut(o, f) ==> (Sent(o.Saved().value, f) == Some(v) <==> MoneyKept(f, v)))
  {
    MoneySettles(o, f);
    if v.Null? {
      NullConserved(o, f);
    } else {
      SafeShown(o.codecs, v.number);
    }
  }

  // ---- When a form saves, by its stored values ----

  /** The controls whose conversion can fail. */
  predicate Fallible(f: Field) {
    f.serializeAsNumber || f.control.NumberInput? || f.control.MoneyInput? || f.control.Percentage? || f.control.JsonEditor?
    || f.control.DateTime?
  }

  /** What a number or percentage field shows of a stored value. */
  function PlainText(show: Value -> string, raw: Option<Value>): string {
    if Nullish(raw) then "" else show(raw.value)
  }

  /** What a JSON editor shows. */
  function JsonText(codecs: Codecs, f: Field, raw: Option<Value>): string {
    if Truthy(Editable(f, raw)) then codecs.stringify(Editable(f, raw).value) else "{}"
  }

  /** `f` shows the stored value `raw` blank. */
  predicate StoredBlank(codecs: Codecs, f: Field, raw: Option<Value>) {
    match f.control
    case NumberInput => PlainText(codecs.show, raw) == ""
    case MoneyInput => BlankMoney(codecs, f, raw)
    case Percentage => PlainText(codecs.showPercent, raw) == ""
    case JsonEditor => JsonText(codecs, f, raw) == ""
    case DateTime => codecs.localTime(raw) == ""
    case _ => false
  }

  /** What `f` shows of the stored value `raw` converts back. */
  predicate StoredConverts(codecs: Codecs, f: Field, raw: Option<Value>, mode: Mode) {
    if f.serializeAsNumber then
      var number := codecs.number(Some(InitialValue(codecs, f, raw, mode)));
      SafeInteger(number) && InBounds(f, number.value)
    else
      match f.control
      case NumberInput => PlainText(codecs.show, raw) == "" || codecs.number(Some(Str(PlainText(codecs.show, raw)))).Some?
      case MoneyInput => Settlement(codecs, f, raw).Some?
      case Percentage => codecs.parsePercent(PlainText(codecs.showPercent, raw)).Some?
      case JsonEditor =>
        codecs.parseJson(if JsonText(codecs, f, raw) == "" then "{}" else JsonText(codecs, f, raw)).Some?
      case DateTime => codecs.localTime(raw) == "" || codecs.isoTime(codecs.localTime(raw)).Some?
      case _ => true
  }

  /** A stored value `f` does not stumble over. */
  predicate StoredFits(o: Form, f: Field) {
    || !WrittenIn(f, o.mode)
    || (o.mode.Edit? && f.omitEmptyOnUpdate && !f.serializeAsNumber && StoredBlank(o.codecs, f, o.Stored(f)))
    || StoredConverts(o.codecs, f, o.Stored(f), o.mode)
  }

  lemma MoneyFieldFits(o: Form, f: Field)
    requires UniqueBy(o.fields, FieldKey) && f in o.fields
    requires f.control.MoneyInput? && !f.serializeAsNumber && !Conditional(f)
    ensures Fits(o, f) <==> StoredFits(o, f)
  {
    UntouchedValue(o, f);
    MoneyShown(o, f);
    BlankText(o.codecs, f, o.Stored(f));
    MoneyWritten(o.codecs, f, o.Stored(f));
  }

  lemma OtherFieldFits(o: Form, f: Field)
    requires UniqueBy(o.fields, FieldKey) && f in o.fields && Fallible(f) && !Conditional(f)
    requires f.serializeAsNumber || !f.control.MoneyInput?
    ensures Fits(o, f) <==> StoredFits(o, f)
  {
    UntouchedValue(o, f);
  }

  /** An untouched form saves exactly when every field it writes back shows a stored value that converts: an amount in range
      for money, a number for numbers, a parsable text for percentages, dates and JSON, or a blank where blank is allowed.
      Only a conditional select serialised as a number is judged by the option it settles on. */
  lemma FormSaves(o: Form)
    requires UniqueBy(o.fields, FieldKey)
    ensures o.Saved().Success? <==>
            forall f :: f in o.fields && Fallible(f) ==> if Conditional(f) then Fits(o, f) else StoredFits(o, f)
  {
    SaveSucceeds(o);
    forall f | f in o.fields
      ensures Fits(o, f) <==> (Fallible(f) ==> if Conditional(f) then Fits(o, f) else StoredFits(o, f))
    {
      if Fallible(f) && !Conditional(f) {
        if f.control.MoneyInput? && !f.serializeAsNumber {
          MoneyFieldFits(o, f);
        } else {
          OtherFieldFits(o, f);
        }
      }
    }
  }

  /** A safe integer stored for a number field converts, and one sent as a number must also lie within the field's bounds. */
  lemma NumberConverts(codecs: Codecs, f: Field, m: int, mode: Mode)
    requires Faithful(codecs) && f.control.NumberInput? && Safe(m)
    ensures StoredConverts(codecs, f, Some(Amount(m)), mode) <==> (f.serializeAsNumber ==> InBounds(f, m as real))
  {
    assert InitialValue(codecs, f, Some(Amount(m)), mode) == Str(Text.Number(m)) && (m as real).Floor == m;
  }

  /** A stored object whose text parses back converts. */
  lemma JsonConverts(codecs: Codecs, f: Field, raw: Option<Value>, mode: Mode)
    requires f.control.JsonEditor? && !f.serializeAsNumber && codecs.parseJson("{}").Some?
    requires Truthy(Editable(f, raw)) ==> Representable(codecs, Editable(f, raw).value)
    ensures StoredConverts(codecs, f, raw, mode)
  {
  }

  // ---- Numbers ----

  /** A safe integer in a number field comes back. */
  lemma NumberConserved(o: Form, f: Field, m: int)
    requires Faithful(o.codecs) && UniqueBy(o.fields, FieldKey) && f in o.fields && Writable(f, o.mode) && Alone(o.fields, f)
    requires f.control.NumberInput? && o.Stored(f) == Some(Amount(m)) && AllFit(o)
    requires Safe(m)
    ensures o.Saved().Success? && Sent(o.Saved().value, f) == Some(Amount(m))
  {
    SaveSucceeds(o);
    SavedDraft(o, f);
    NumberWritten(o, f, m);
  }

  lemma NumberWritten(o: Form, f: Field, m: int)
    requires Faithful(o.codecs) && f.control.NumberInput? && o.Stored(f) == Some(Amount(m))
    requires Safe(m)
    ensures WriteControl(o.codecs, f, Some(o.Shows(f)), o.mode) == Success(Some(Amount(m)))
  {
    assert o.Shows(f) == Str(Text.Number(m)) && Text.Number(m) != "";
  }

  // ---- Configuration objects ----

  /** An untouched save sends back a configuration object without its excluded keys, overlaid with the properties that other
      fields write into it: every other key is conserved. */
  lemma ConfigConserved(o: Form, f: Field, members: Members, k: string)
    requires UniqueBy(o.fields, FieldKey) && f in o.fields && Writable(f, o.mode) && AllFit(o)
    requires Representable(o.codecs, Obj(Without(members, f.excludeKeys)))
    requires f.control.JsonEditor? && f.payloadGroup.None? && o.Stored(f) == Some(Obj(members))
    requires forall g :: g in o.fields ==> g.payloadGroup != Some(Group(f.key, k))
    ensures o.Saved().Success?
    ensures var payload := o.Saved().value;
      && f.key in payload && payload[f.key].Obj?
      && Get(payload[f.key].members, k) == if k in f.excludeKeys then None else Get(members, k)
  {
    var kept := Obj(Without(members, f.excludeKeys));
    SaveSucceeds(o);
    ConfigWritten(o, f, members);
    DraftDirect(o.fields, o.Writing(), f);
    GroupProperties(o.fields, o.Writing(), f.key, k);
    MergedConfig(Drafted(o.fields, o.Writing()), f.key, kept.members, k);
  }

  lemma ConfigWritten(o: Form, f: Field, members: Members)
    requires UniqueBy(o.fields, FieldKey) && f in o.fields && Writable(f, o.mode)
    requires Representable(o.codecs, Obj(Without(members, f.excludeKeys)))
    requires f.control.JsonEditor? && o.Stored(f) == Some(Obj(members))
    ensures o.Writing()(f) == Success(Some(Obj(Without(members, f.excludeKeys))))
  {
    SameChecks(o);
    UntouchedValue(o, f);
    NeverMissing(o, f);
  }

  lemma MergedConfig(d: Draft, key: string, members: Members, k: string)
    requires Get(d.payload, key) == Some(Obj(members)) && k !in GroupOf(d, key)
    ensures key in Merge(d) && Merge(d)[key].Obj? && Get(Merge(d)[key].members, k) == Get(members, k)
  {
  }

  // ---- Capabilities ----

  /** A capability object comes back as its truth values over the field's options, hidden ones included; nothing else does. */
  lemma CapabilitiesConserved(o: Form, f: Field, members: Members, k: string)
    requires UniqueBy(o.fields, FieldKey) && f in o.fields && Writable(f, o.mode) && Alone(o.fields, f) && AllFit(o)
    requires f.control.Capabilities? && o.Stored(f) == Some(Obj(members))
    ensures o.Saved().Success?
    ensures var sent := Sent(o.Saved().value, f);
      && sent.Some? && sent.value.Obj?
      && Get(sent.value.members, k)
         == if exists c :: c in f.options && c.value == k then Some(Bool(Truthy(Get(members, k)))) else None
  {
    assert o.Saved().Success? by {
      SaveSucceeds(o);
    }
    CapabilityShown(o, f, members);
    CapabilityWritten(f, members, k);
    SavedDraft(o, f);
  }

  lemma CapabilityShown(o: Form, f: Field, members: Members)
    requires f.control.Capabilities? && o.Stored(f) == Some(Obj(members)) && !f.serializeAsNumber
    ensures !Omitted(o, f)
    ensures WriteControl(o.codecs, f, Some(o.Shows(f)), o.mode) == WriteCapabilities(f, Some(List(ChosenNames(f, members))))
  {
    assert o.Shows(f) == List(ChosenNames(f, members));
  }

  function ChosenNames(f: Field, members: Members): seq<string> {
    MapRows(Filter(f.options, (o: Choice) => CapabilityOn(Some(Obj(members)), o.value)), (o: Choice) => o.value)
  }

  lemma CapabilityWritten(f: Field, members: Members, k: string)
    ensures var written := WriteCapabilities(f, Some(List(ChosenNames(f, members))));
      && written.Success? && written.value.Some? && written.value.value.Obj?
      && Get(written.value.value.members, k)
         == if exists c :: c in f.options && c.value == k then Some(Bool(Truthy(Get(members, k)))) else None
  {
    if exists c :: c in f.options && c.value == k {
      ChosenName(f, members, k);
    }
  }

  lemma ChosenName(f: Field, members: Members, k: string)
    requires exists o :: o in f.options && o.value == k
    ensures k in ChosenNames(f, members) <==> Truthy(Get(members, k))
  {
    var on := Filter(f.options, (o: Choice) => CapabilityOn(Some(Obj(members)), o.value));
    var names := ChosenNames(f, members);
    if Truthy(Get(members, k)) {
      var o :| o in f.options && o.value == k;
      assert o in on;
      var i :| 0 <= i < |on| && on[i] == o;
      assert names[i] == k;
    }
    if k in names {
      var i :| 0 <= i < |names| && names[i] == k;
      assert on[i] in on;
    }
  }
}
