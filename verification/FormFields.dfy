/** Field by field: what a form sends of the values it holds, why it rejects them, and what an untouched field returns. */
module FormFields {
  import opened Sequences
  import opened ResourceForm
  import opened FormPayload
  import opened FormTheorems
  import Text
  import Money

  // ---- What a field sends ----

  /** `f` has no turn in this mode, or is a hidden field the form never filled in. */
  predicate Untouchable(f: Field, values: FormValues, mode: Mode) {
    || (mode.Create? && f.updateOnly)
    || (mode.Edit? && (f.createOnly || f.readOnlyOnEdit))
    || (f.control.Hidden? && f.key !in values)
  }

  predicate Blank(held: Option<FormValue>) {
    held == Some(Str(""))
  }

  /** An update leaves `f` out because it is blank. */
  predicate BlankLeftOut(f: Field, held: Option<FormValue>, mode: Mode) {
    mode.Edit? && f.omitEmptyOnUpdate && (held.None? || Blank(held))
  }

  predicate IsText(control: Control) {
    control in {TextInput, Email, Password, Url, TextArea, Select, ModelPicker, Relation, Hidden}
  }

  /** The texts of a list, in order. */
  predicate IsListOf(v: Value, items: seq<string>) {
    v.Arr? && |v.items| == |items| && forall i :: 0 <= i < |items| ==> v.items[i] == Txt(items[i])
  }

  function Commas(parts: seq<string>): string {
    if parts == [] then "" else if |parts| == 1 then parts[0] else parts[0] + "," + Commas(parts[1..])
  }

  /** What one piece leaves. */
  function Piece(part: string): seq<string> {
    if Text.Trim(part) == "" then [] else [Text.Trim(part)]
  }

  /** The trimmed pieces of `parts` that are not empty, in order. */
  function Kept(parts: seq<string>): seq<string> {
    if parts == [] then []
    else Kept(parts[..|parts| - 1]) + Piece(parts[|parts| - 1])
  }

  /** `v` lists the trimmed non-empty pieces of `text` between its commas. */
  ghost predicate IsTagsOf(v: Value, text: string) {
    exists parts :: parts != [] && Commas(parts) == text && (forall p :: p in parts ==> ',' !in p) && IsListOf(v, Kept(parts))
  }

  /** `v` is one truth value for each option. */
  ghost predicate IsChoiceOf(v: Value, options: seq<Choice>, chosen: seq<string>) {
    && v.Obj?
    && (forall k :: k in v.members <==> exists o :: o in options && o.value == k)
    && (forall k :: k in v.members ==> v.members[k] == Bool(k in chosen))
  }

  /** What `f`, holding `held`, sends: control by control. */
  ghost predicate Sends(codecs: Codecs, f: Field, held: Option<FormValue>, mode: Mode, sent: Option<Value>) {
    if f.serializeAsNumber then
      var number := codecs.number(held);
      && number.Some? && sent == Some(Num(number.value)) && number.value == number.value.Floor as real && Safe(number.value.Floor)
      && (f.min.Some? ==> number.value >= f.min.value) && (f.max.Some? ==> number.value <= f.max.value)
    else
      match f.control
      case Switch => sent == Some(Bool(held.Some? && held != Some(Flag(false)) && !Blank(held)))
      case MultiSelect => sent.Some? && IsListOf(sent.value, if held.Some? && held.value.List? then held.value.items else [])
      case RelationMulti => sent.Some? && IsListOf(sent.value, if held.Some? && held.value.List? then held.value.items else [])
      case Tags => sent.Some? && sent.value.Arr? && (held.Some? && held.value.Str? ==> IsTagsOf(sent.value, held.value.text))
      case Capabilities => sent.Some? && IsChoiceOf(sent.value, f.options, if held.Some? && held.value.List? then held.value.items else [])
      case NumberInput =>
        if Blank(held) then sent == (if f.nullable then Some(Null) else None)
        else codecs.number(held).Some? && sent == Some(Num(codecs.number(held).value))
      case MoneyInput =>
        if f.nullable && Blank(held) then sent == Some(Null)
        else held.Some? && held.value.Str? ==>
          Money.ParseUsd(held.value.text).Success? && sent == Some(Num(Money.ParseUsd(held.value.text).value as real))
      case Percentage =>
        held.Some? && held.value.Str? ==>
          codecs.parsePercent(held.value.text).Some? && sent == Some(Num(codecs.parsePercent(held.value.text).value))
      case JsonEditor =>
        held.Some? && held.value.Str? ==>
          sent.Some? && sent == codecs.parseJson(if held.value.text == "" then "{}" else held.value.text)
      case DateTime =>
        if Blank(held) then sent == (if f.nullable then Some(Null) else None)
        else held.Some? && held.value.Str? ==>
          codecs.isoTime(held.value.text).Some? && sent == Some(Txt(codecs.isoTime(held.value.text).value))
      case _ =>
        match held
        case None => sent.None?
        case Some(Flag(on)) => sent == Some(Bool(on))
        case Some(List(items)) => sent.Some? && IsListOf(sent.value, items)
        case Some(Str(text)) =>
          if text != "" then sent == Some(Txt(text))
          else if f.control.Hidden? then sent.None?
          else if f.nullable then sent == Some(Null)
          else sent == (if f.required || mode.Create? then Some(Txt("")) else None)
  }

  // ---- Cutting at commas ----

  lemma CommasMore(c: char, rest: seq<string>)
    requires rest != []
    ensures Commas([[c] + rest[0]] + rest[1..]) == [c] + Commas(rest)
  {
    var whole := [[c] + rest[0]] + rest[1..];
    assert whole[1..] == rest[1..];
    if |rest| > 1 {
      assert [c] + rest[0] + "," + Commas(rest[1..]) == [c] + (rest[0] + "," + Commas(rest[1..]));
    }
  }

  lemma CommasBlank(rest: seq<string>)
    requires rest != []
    ensures Commas([""] + rest) == "," + Commas(rest)
  {
    assert ([""] + rest)[1..] == rest;
  }

  lemma {:induction false} CutIsCommas(s: string)
    ensures CutAt(s, ',') != [] && Commas(CutAt(s, ',')) == s
  {
    if s != [] {
      CutIsCommas(s[1..]);
      assert s == [s[0]] + s[1..];
      CommasBlank(CutAt(s[1..], ','));
      CommasMore(s[0], CutAt(s[1..], ','));
    }
  }

  lemma {:induction false} CutIsClean(s: string)
    ensures forall p :: p in CutAt(s, ',') ==> ',' !in p
  {
    if s != [] {
      var rest := CutAt(s[1..], ',');
      CutIsClean(s[1..]);
      assert forall p :: p in rest[1..] ==> p in rest;
      assert rest != [] ==> rest[0] in rest;
    }
  }

  lemma {:induction false} KeptAppend(a: seq<string>, b: seq<string>)
    ensures Kept(a + b) == Kept(a) + Kept(b)
  {
    if b == [] {
      assert a + b == a;
    } else {
      var n := |b| - 1;
      assert (a + b)[..|a + b| - 1] == a + b[..n];
      KeptAppend(a, b[..n]);
      Associate(Kept(a), Kept(b[..n]), Piece(b[n]));
    }
  }

  lemma KeptOne(part: string)
    ensures Kept([part]) == Piece(part)
  {
    assert [part][..0] == [];
  }

  lemma {:induction false} KeptIsFilter(parts: seq<string>)
    ensures Filter(MapRows(parts, (item: string) => Text.Trim(item)), (item: string) => item != "") == Kept(parts)
  {
    if parts != [] {
      var n := |parts| - 1;
      KeptIsFilter(parts[..n]);
      assert MapRows(parts, (item: string) => Text.Trim(item))[..n] == MapRows(parts[..n], (item: string) => Text.Trim(item));
    }
  }

  lemma TagsSent(s: string)
    ensures IsTagsOf(Arr(TagItems(s)), s)
  {
    var parts := CutAt(s, ',');
    CutIsCommas(s);
    CutIsClean(s);
    KeptIsFilter(parts);
    assert IsListOf(Arr(TagItems(s)), Kept(parts));
  }

  // ---- One field ----

  lemma PlainSends(codecs: Codecs, f: Field, held: Option<FormValue>, mode: Mode)
    requires !f.serializeAsNumber && IsText(f.control)
    ensures WriteControl(codecs, f, held, mode).Success? && Sends(codecs, f, held, mode, WriteControl(codecs, f, held, mode).value)
  {
  }

  lemma ConvertedSends(codecs: Codecs, f: Field, held: Option<FormValue>, mode: Mode)
    requires !f.serializeAsNumber && !IsText(f.control) && WriteControl(codecs, f, held, mode).Success?
    ensures Sends(codecs, f, held, mode, WriteControl(codecs, f, held, mode).value)
  {
    if f.control.Tags? && held.Some? && held.value.Str? {
      TagsSent(held.value.text);
    }
  }

  lemma ControlSends(codecs: Codecs, f: Field, held: Option<FormValue>, mode: Mode)
    requires !f.serializeAsNumber && WriteControl(codecs, f, held, mode).Success?
    ensures Sends(codecs, f, held, mode, WriteControl(codecs, f, held, mode).value)
  {
    if IsText(f.control) {
      PlainSends(codecs, f, held, mode);
    } else {
      ConvertedSends(codecs, f, held, mode);
    }
  }

  /** One field's turn in the loop: nothing, or what its control sends. */
  lemma TurnSends(codecs: Codecs, f: Field, values: FormValues, normalized: FormValues, mode: Mode)
    requires Write(codecs, f, values, normalized, mode).Success?
    ensures var held, sent := Get(normalized, f.key), Write(codecs, f, values, normalized, mode).value;
      if Untouchable(f, values, mode) || (!f.serializeAsNumber && BlankLeftOut(f, held, mode)) then sent.None?
      else Sends(codecs, f, held, mode, sent)
  {
    var held := Get(normalized, f.key);
    if !Untouchable(f, values, mode) && !f.serializeAsNumber && !BlankLeftOut(f, held, mode) {
      ControlSends(codecs, f, held, mode);
    }
  }

  // ---- The payload ----

  /** What `f` holds when the payload is built: the submitted values with their conditional options settled. */
  function Held(fields: seq<Field>, values: FormValues, f: Field): Option<FormValue> {
    Get(Normalized(fields, values), f.key)
  }

  /** The payload of any submitted form, at the place of any field that has it alone: nothing where the field has no turn or is
      left out, and otherwise what its control sends. Where a field sends nothing, a group may still inherit its base. */
  lemma FieldSent(codecs: Codecs, fields: seq<Field>, values: FormValues, mode: Mode, f: Field)
    requires UniqueBy(fields, FieldKey) && f in fields && Alone(fields, f) && Build(codecs, fields, values, mode).Success?
    ensures var held, sent := Held(fields, values, f), Sent(Build(codecs, fields, values, mode).value, f);
      if Untouchable(f, values, mode) || (!f.serializeAsNumber && BlankLeftOut(f, held, mode))
      then f.payloadGroup.None? ==> sent.None?
      else Sends(codecs, f, held, mode, sent) || (Sends(codecs, f, held, mode, None) && f.payloadGroup.Some?)
  {
    var write := f => Write(codecs, f, values, Normalized(fields, values), mode);
    FieldWritten(fields, write, f);
    TurnSends(codecs, f, values, Normalized(fields, values), mode);
  }

  lemma FieldWritten(fields: seq<Field>, write: Field -> Written, f: Field)
    requires UniqueBy(fields, FieldKey) && f in fields && Alone(fields, f) && Collected(fields, write).Success?
    ensures write(f).Success?
    ensures write(f).value.Some? || f.payloadGroup.None? ==> Sent(Collected(fields, write).value, f) == write(f).value
  {
    assert FaultOf(write(f)).None?;
    if write(f).value.Some? {
      SentIsWritten(fields, write, f);
    } else if f.payloadGroup.None? {
      forall g | g in fields && g.key == f.key ensures !Writes(write, g) {
        UniqueRow(fields, FieldKey, f, g);
      }
      Unwritten(fields, write, f);
      Ungrouped(fields, write, f.key);
    }
  }

  // ---- Nothing else ----

  lemma {:induction false} DirectOnly(fields: seq<Field>, write: Field -> Written, key: string)
    requires key in Drafted(fields, write).payload
    ensures exists f :: f in fields && f.payloadGroup.None? && f.key == key && write(f) == Success(Some(Drafted(fields, write).payload[key]))
  {
    var front, f := fields[..|fields| - 1], fields[|fields| - 1];
    assert f in fields && forall g :: g in front ==> g in fields;
    if !Writes(write, f) || f.payloadGroup.Some? || f.key != key {
      DirectOnly(front, write, key);
    }
  }

  lemma {:induction false} GroupedOnly(fields: seq<Field>, write: Field -> Written, key: string)
    requires key in Drafted(fields, write).grouped
    ensures exists f :: f in fields && f.payloadGroup.Some? && f.payloadGroup.value.key == key && Writes(write, f)
  {
    var front, f := fields[..|fields| - 1], fields[|fields| - 1];
    assert f in fields && forall g :: g in front ==> g in fields;
    if !Writes(write, f) || f.payloadGroup.None? || f.payloadGroup.value.key != key {
      GroupedOnly(front, write, key);
    }
  }

  /** `f` has its turn and is not left out. */
  predicate Takes(f: Field, values: FormValues, held: Option<FormValue>, mode: Mode) {
    !Untouchable(f, values, mode) && (f.serializeAsNumber || !BlankLeftOut(f, held, mode))
  }

  lemma WritersTake(codecs: Codecs, f: Field, values: FormValues, normalized: FormValues, mode: Mode)
    requires Write(codecs, f, values, normalized, mode).Success? && Write(codecs, f, values, normalized, mode).value.Some?
    ensures Takes(f, values, Get(normalized, f.key), mode)
    ensures Sends(codecs, f, Get(normalized, f.key), mode, Write(codecs, f, values, normalized, mode).value)
  {
    TurnSends(codecs, f, values, normalized, mode);
  }

  /** Every member of the payload is a field's: of one that sends it under its own key, or of one that is grouped under it. */
  lemma NothingElseSent(codecs: Codecs, fields: seq<Field>, values: FormValues, mode: Mode, key: string)
    requires Build(codecs, fields, values, mode).Success? && key in Build(codecs, fields, values, mode).value
    ensures exists f :: f in fields && Takes(f, values, Held(fields, values, f), mode)
              && key == match f.payloadGroup case None => f.key case Some(group) => group.key
  {
    var write := f => Write(codecs, f, values, Normalized(fields, values), mode);
    var d := Drafted(fields, write);
    if key in d.payload {
      DirectOnly(fields, write, key);
      var f :| f in fields && f.payloadGroup.None? && f.key == key && write(f) == Success(Some(d.payload[key]));
      WritersTake(codecs, f, values, Normalized(fields, values), mode);
    } else {
      GroupedOnly(fields, write, key);
      var f :| f in fields && f.payloadGroup.Some? && f.payloadGroup.value.key == key && Writes(write, f);
      WritersTake(codecs, f, values, Normalized(fields, values), mode);
    }
  }

  /** `value` under `property` comes from the object that a field sends under `key` itself. */
  ghost predicate FromBase(codecs: Codecs, fields: seq<Field>, values: FormValues, mode: Mode, key: string, property: string, value: Value) {
    exists f, base :: f in fields && f.payloadGroup.None? && f.key == key && Sends(codecs, f, Held(fields, values, f), mode, Some(Obj(base)))
                      && property in base && base[property] == value
  }

  /** Every property of a group is a field's, or was in the object the group is merged over. */
  lemma GroupTells(codecs: Codecs, fields: seq<Field>, values: FormValues, mode: Mode, key: string, property: string)
    requires Build(codecs, fields, values, mode).Success?
    requires var payload := Build(codecs, fields, values, mode).value;
      key in payload && payload[key].Obj? && property in payload[key].members
    ensures (exists f :: f in fields && Takes(f, values, Held(fields, values, f), mode) && f.payloadGroup == Some(Group(key, property)))
         || FromBase(codecs, fields, values, mode, key, property, Build(codecs, fields, values, mode).value[key].members[property])
  {
    var write := f => Write(codecs, f, values, Normalized(fields, values), mode);
    var d := Drafted(fields, write);
    if property in GroupOf(d, key) {
      GroupProperties(fields, write, key, property);
      var f :| f in fields && f.payloadGroup == Some(Group(key, property)) && Writes(write, f);
      WritersTake(codecs, f, values, Normalized(fields, values), mode);
    } else {
      DirectOnly(fields, write, key);
      var f :| f in fields && f.payloadGroup.None? && f.key == key && write(f) == Success(Some(d.payload[key]));
      WritersTake(codecs, f, values, Normalized(fields, values), mode);
      assert d.payload[key] == Obj(d.payload[key].members);
    }
  }

  // ---- The reported reason ----

  /** What is wrong with what `f` holds when it stops the form with `fault`. */
  ghost predicate Defect(codecs: Codecs, f: Field, held: Option<FormValue>, fault: Fault) {
    match fault
    case NotAnInteger =>
      f.serializeAsNumber
      && (codecs.number(held).None? || codecs.number(held).value != codecs.number(held).value.Floor as real
          || !Safe(codecs.number(held).value.Floor))
    case BelowMinimum =>
      f.serializeAsNumber && f.min.Some? && codecs.number(held).Some? && codecs.number(held).value < f.min.value
    case AboveMaximum =>
      f.serializeAsNumber && f.max.Some? && codecs.number(held).Some? && codecs.number(held).value > f.max.value
    case NotANumber => f.control.NumberInput? && !Blank(held) && codecs.number(held).None?
    case MoneyRejected(reason) =>
      f.control.MoneyInput? && !(f.nullable && Blank(held))
      && (held.Some? && held.value.Str? ==> Money.ParseUsd(held.value.text) == Failure(reason))
    case PercentRejected => f.control.Percentage? && (held.Some? && held.value.Str? ==> codecs.parsePercent(held.value.text).None?)
    case InvalidJson =>
      f.control.JsonEditor?
      && (held.Some? && held.value.Str? ==> codecs.parseJson(if held.value.text == "" then "{}" else held.value.text).None?)
    case InvalidDate =>
      f.control.DateTime? && !Blank(held) && (held.Some? && held.value.Str? ==> codecs.isoTime(held.value.text).None?)
  }

  lemma TurnFails(codecs: Codecs, f: Field, values: FormValues, normalized: FormValues, mode: Mode)
    requires Write(codecs, f, values, normalized, mode).Failure?
    ensures !Untouchable(f, values, mode)
    ensures Defect(codecs, f, Get(normalized, f.key), Write(codecs, f, values, normalized, mode).error)
  {
  }

  /** A rejected form has a field with the defect it reports, and that field has its turn. */
  lemma FailureIsJustified(codecs: Codecs, fields: seq<Field>, values: FormValues, mode: Mode)
    requires Build(codecs, fields, values, mode).Failure?
    ensures exists f :: f in fields && !Untouchable(f, values, mode)
                        && Defect(codecs, f, Held(fields, values, f), Build(codecs, fields, values, mode).error)
  {
    var write := f => Write(codecs, f, values, Normalized(fields, values), mode);
    var f := FailingField(fields, write);
    TurnFails(codecs, f, values, Normalized(fields, values), mode);
  }

  lemma FailingField(fields: seq<Field>, write: Field -> Written) returns (f: Field)
    requires Collected(fields, write).Failure?
    ensures f in fields && write(f).Failure? && write(f).error == Collected(fields, write).error
  {
    var check := f => FaultOf(write(f));
    assert FirstFault(fields, check).Some?;
    f :| f in fields && check(f) == FirstFault(fields, check);
  }

  // ---- Where a field's value comes from ----

  /** The record holds `v` for `f`: in its group's object, or under its source key, which is its own key unless it names one. */
  predicate Holding(record: Members, f: Field, v: Value) {
    match f.payloadGroup
    case Some(group) =>
      && group.key in record && record[group.key].Obj?
      && group.property in record[group.key].members && record[group.key].members[group.property] == v
    case None =>
      if f.sourceKey.Some? then f.sourceKey.value in record && record[f.sourceKey.value] == v
      else f.key in record && record[f.key] == v
  }

  /** What the record holds for a field is taken, null included; the default only where it holds nothing. */
  lemma StoredTells(o: Form, f: Field)
    ensures o.record.Some? ==> forall v :: Holding(o.record.value, f, v) ==> o.Stored(f) == Some(v)
    ensures (o.record.Some? ==> forall v :: !Holding(o.record.value, f, v)) ==> o.Stored(f) == Get(o.defaults, f.key)
  {
    if o.record.Some? && SourceValue(o.record.value, f).Some? {
      assert Holding(o.record.value, f, SourceValue(o.record.value, f).value);
    }
  }

  // ---- An untouched field ----

  /** What an untouched form sends for a field it writes back. */
  lemma UntouchedSent(o: Form, f: Field)
    requires UniqueBy(o.fields, FieldKey) && f in o.fields && Writable(f, o.mode) && Alone(o.fields, f) && AllFit(o)
    ensures o.Saved().Success?
    ensures !Omitted(o, f) && !Sends(o.codecs, f, Some(o.Shows(f)), o.mode, None) ==>
              Sends(o.codecs, f, Some(o.Shows(f)), o.mode, Sent(o.Saved().value, f))
  {
    SaveSucceeds(o);
    UntouchedValue(o, f);
    NeverMissing(o, f);
    FieldSent(o.codecs, o.fields, o.Values(), o.mode, f);
  }

  /** A stored boolean comes back from its switch. */
  lemma SwitchConserved(o: Form, f: Field, on: bool)
    requires UniqueBy(o.fields, FieldKey) && f in o.fields && Writable(f, o.mode) && Alone(o.fields, f) && AllFit(o)
    requires f.control.Switch? && o.Stored(f) == Some(Bool(on))
    ensures o.Saved().Success? && Sent(o.Saved().value, f) == Some(Bool(on))
  {
    assert o.Shows(f) == Flag(on);
    UntouchedSent(o, f);
  }

  /** `v` is a list of the texts `items`. */
  lemma SameList(v: Value, w: Value, items: seq<string>)
    requires IsListOf(v, items) && IsListOf(w, items)
    ensures v == w
  {
    assert v.items == w.items;
  }

  lemma ListShown(o: Form, f: Field, v: Value, items: seq<string>)
    requires PrintsDigits(o.codecs) && (f.control.MultiSelect? || f.control.RelationMulti?)
    requires o.Stored(f) == Some(v) && IsListOf(v, items)
    ensures o.Shows(f) == List(items)
  {
    assert Shown(o.codecs, Some(v)) == items;
  }

  /** A stored list of texts comes back in its order. */
  lemma ListConserved(o: Form, f: Field, v: Value, items: seq<string>)
    requires UniqueBy(o.fields, FieldKey) && f in o.fields && Writable(f, o.mode) && Alone(o.fields, f) && AllFit(o)
    requires PrintsDigits(o.codecs) && (f.control.MultiSelect? || f.control.RelationMulti?)
    requires o.Stored(f) == Some(v) && IsListOf(v, items)
    ensures o.Saved().Success? && Sent(o.Saved().value, f) == Some(v)
  {
    ListShown(o, f, v, items);
    UntouchedSent(o, f);
    SameList(v, Sent(o.Saved().value, f).value, items);
  }

  lemma TextShown(o: Form, f: Field, v: Value)
    requires PrintsDigits(o.codecs) && IsText(f.control) && !(f.control.Password? && o.mode.Edit?)
    requires o.Stored(f) == Some(v) && (v.Txt? || v.Null?)
    ensures o.Shows(f) == Str(if v.Txt? then v.text else "")
  {
  }

  /** A stored text that is not blank comes back. */
  lemma TextConserved(o: Form, f: Field, text: string)
    requires UniqueBy(o.fields, FieldKey) && f in o.fields && Writable(f, o.mode) && Alone(o.fields, f) && AllFit(o)
    requires PrintsDigits(o.codecs) && IsText(f.control) && !(f.control.Password? && o.mode.Edit?)
    requires o.Stored(f) == Some(Txt(text)) && text != ""
    ensures o.Saved().Success? && Sent(o.Saved().value, f) == Some(Txt(text))
  {
    TextShown(o, f, Txt(text));
    UntouchedSent(o, f);
  }

  /** An empty text or null comes back as null on a nullable field, unless an update leaves it out. */
  lemma BlankConserved(o: Form, f: Field, v: Value)
    requires UniqueBy(o.fields, FieldKey) && f in o.fields && Writable(f, o.mode) && Alone(o.fields, f) && AllFit(o)
    requires PrintsDigits(o.codecs) && IsText(f.control) && !(f.control.Password? && o.mode.Edit?) && !f.control.Hidden? && f.nullable
    requires o.Stored(f) == Some(v) && (v == Txt("") || v.Null?) && !(o.mode.Edit? && f.omitEmptyOnUpdate)
    ensures o.Saved().Success? && Sent(o.Saved().value, f) == Some(Null)
  {
    TextShown(o, f, v);
    UntouchedSent(o, f);
  }

  /** A password is never sent back: an update shows it blank, and sends nothing for an optional one that is not nullable. */
  lemma PasswordWithheld(o: Form, f: Field)
    requires UniqueBy(o.fields, FieldKey) && f in o.fields && Writable(f, o.mode) && Alone(o.fields, f) && AllFit(o)
    requires o.mode.Edit? && f.control.Password? && !f.required && !f.nullable && f.payloadGroup.None?
    ensures o.Shows(f) == Str("") && o.Saved().Success? && Sent(o.Saved().value, f).None?
  {
    SaveSucceeds(o);
    UntouchedValue(o, f);
    NeverMissing(o, f);
    FieldSent(o.codecs, o.fields, o.Values(), o.mode, f);
  }

  /** A stored percentage comes back where its text parses to it. */
  lemma PercentConserved(o: Form, f: Field, v: Value)
    requires UniqueBy(o.fields, FieldKey) && f in o.fields && Writable(f, o.mode) && Alone(o.fields, f) && AllFit(o)
    requires f.control.Percentage? && o.Stored(f) == Some(v) && v.Num? && !Omitted(o, f)
    requires o.codecs.parsePercent(o.codecs.showPercent(v)) == Some(v.number)
    ensures o.Saved().Success? && Sent(o.Saved().value, f) == Some(v)
  {
    assert o.Shows(f) == Str(o.codecs.showPercent(v));
    UntouchedSent(o, f);
  }

  /** A stored date comes back where its local text converts to it. */
  lemma DateConserved(o: Form, f: Field, v: Value)
    requires UniqueBy(o.fields, FieldKey) && f in o.fields && Writable(f, o.mode) && Alone(o.fields, f) && AllFit(o)
    requires f.control.DateTime? && o.Stored(f) == Some(v) && v.Txt? && o.codecs.localTime(Some(v)) != ""
    requires o.codecs.isoTime(o.codecs.localTime(Some(v))) == Some(v.text)
    ensures o.Saved().Success? && Sent(o.Saved().value, f) == Some(v)
  {
    assert o.Shows(f) == Str(o.codecs.localTime(Some(v)));
    UntouchedSent(o, f);
  }

  // ---- Tags ----

  lemma FirstComma(x: string, s: string, y: string, t: string)
    requires ',' !in x && ',' !in y && x + "," + s == y + "," + t
    ensures x == y && s == t
  {
    var u := x + "," + s;
    assert u[|x|] == ',' && u[|y|] == ',';
    assert forall i :: 0 <= i < |x| ==> u[i] == x[i] && x[i] in x;
    assert forall i :: 0 <= i < |y| ==> u[i] == y[i] && y[i] in y;
    assert |x| == |y|;
    assert u[..|x|] == x && u[..|y|] == y && u[|x| + 1..] == s && u[|y| + 1..] == t;
  }

  lemma HasComma(parts: seq<string>)
    requires |parts| > 1
    ensures ',' in Commas(parts)
  {
    var s := parts[0] + "," + Commas(parts[1..]);
    assert s[|parts[0]|] == ',';
  }

  /** A text has one division at its commas. */
  lemma {:induction false} OneDivision(p: seq<string>, q: seq<string>)
    requires p != [] && q != [] && Commas(p) == Commas(q)
    requires (forall x :: x in p ==> ',' !in x) && (forall x :: x in q ==> ',' !in x)
    ensures p == q
  {
    if |p| > 1 {
      HasComma(p);
    }
    if |q| > 1 {
      HasComma(q);
    }
    assert p[0] in p && q[0] in q;
    if |p| > 1 {
      FirstComma(p[0], Commas(p[1..]), q[0], Commas(q[1..]));
      OneDivision(p[1..], q[1..]);
      assert p == [p[0]] + p[1..] && q == [q[0]] + q[1..];
    }
  }

  function Indented(items: seq<string>): seq<string> {
    MapRows(items, (item: string) => " " + item)
  }

  lemma {:induction false} JoinIndented(items: seq<string>)
    requires items != []
    ensures " " + Join(items, ", ") == Commas(Indented(items))
  {
    var all := Indented(items);
    if |items| > 1 {
      JoinIndented(items[1..]);
      assert all[1..] == Indented(items[1..]);
      assert " " + (items[0] + ", " + Join(items[1..], ", ")) == (" " + items[0]) + "," + (" " + Join(items[1..], ", "));
    }
  }

  /** A tag: not empty, without a comma and without white space around it. */
  predicate Tag(item: string) {
    item != "" && ',' !in item && Text.Trimmed(item)
  }

  lemma TrimIndented(item: string)
    requires Tag(item)
    ensures Text.Trim(" " + item) == item && Text.Trim(item) == item
  {
    Text.TrimIsTrimmed(item);
    assert (" " + item)[1..] == item;
  }

  lemma {:induction false} KeptIndented(items: seq<string>)
    requires forall item :: item in items ==> Tag(item)
    ensures Kept(Indented(items)) == items
  {
    if items != [] {
      var front, last := items[..|items| - 1], items[|items| - 1];
      assert last in items && forall item :: item in front ==> item in items;
      KeptIndented(front);
      IndentedKept(front, last, items);
    }
  }

  lemma IndentedKept(front: seq<string>, last: string, items: seq<string>)
    requires items == front + [last] && Tag(last) && Kept(Indented(front)) == front
    ensures Kept(Indented(items)) == items
  {
    assert Indented(items) == Indented(front) + [" " + last];
    KeptAppend(Indented(front), [" " + last]);
    KeptOne(" " + last);
    TrimIndented(last);
  }

  /** The division of the text that shows `items`. */
  function Division(items: seq<string>): seq<string> {
    if items == [] then [""] else [items[0]] + Indented(items[1..])
  }

  lemma DivisionShown(items: seq<string>)
    requires forall item :: item in items ==> ',' !in item
    ensures Division(items) != [] && Commas(Division(items)) == Join(items, ", ")
    ensures forall p :: p in Division(items) ==> ',' !in p
  {
    if |items| > 1 {
      JoinIndented(items[1..]);
      assert Division(items)[1..] == Indented(items[1..]);
      assert items[0] + ", " + Join(items[1..], ", ") == items[0] + "," + (" " + Join(items[1..], ", "));
    }
    forall p | p in Division(items) ensures ',' !in p {
      DivisionClean(items, p);
    }
  }

  lemma DivisionClean(items: seq<string>, p: string)
    requires (forall item :: item in items ==> ',' !in item) && p in Division(items)
    ensures ',' !in p
  {
    if items != [] && p != items[0] {
      var i :| 0 <= i < |items| - 1 && Indented(items[1..])[i] == p;
      assert p == " " + items[i + 1] && items[i + 1] in items;
    }
  }

  lemma FirstKept(first: string, rest: seq<string>)
    requires Tag(first) && Kept(Indented(rest)) == rest
    ensures Kept([first] + Indented(rest)) == [first] + rest
  {
    KeptAppend([first], Indented(rest));
    KeptOne(first);
    TrimIndented(first);
  }

  lemma DivisionKept(items: seq<string>)
    requires forall item :: item in items ==> Tag(item)
    ensures Kept(Division(items)) == items
  {
    if items == [] {
      KeptOne("");
    } else {
      var first, rest := items[0], items[1..];
      assert items == [first] + rest;
      KeptIndented(rest);
      FirstKept(first, rest);
    }
  }

  /** Tags shown joined by commas and spaces are cut back into themselves. */
  lemma TagsRead(items: seq<string>, v: Value)
    requires (forall item :: item in items ==> Tag(item)) && IsTagsOf(v, Join(items, ", "))
    ensures IsListOf(v, items)
  {
    var parts :| parts != [] && Commas(parts) == Join(items, ", ") && (forall p :: p in parts ==> ',' !in p) && IsListOf(v, Kept(parts));
    DivisionShown(items);
    OneDivision(parts, Division(items));
    DivisionKept(items);
  }

  /** A stored list of tags comes back in its order. */
  lemma TagsConserved(o: Form, f: Field, v: Value, items: seq<string>)
    requires UniqueBy(o.fields, FieldKey) && f in o.fields && Writable(f, o.mode) && Alone(o.fields, f) && AllFit(o)
    requires PrintsDigits(o.codecs) && f.control.Tags? && o.Stored(f) == Some(v) && IsListOf(v, items) && !Omitted(o, f)
    requires forall item :: item in items ==> Tag(item)
    ensures o.Saved().Success? && Sent(o.Saved().value, f) == Some(v)
  {
    assert Shown(o.codecs, Some(v)) == items;
    UntouchedSent(o, f);
    var sent := Sent(o.Saved().value, f).value;
    TagsRead(items, sent);
    SameList(v, sent, items);
  }
}
