/** The admin resource form's field definitions and its conditional select options. */
module ResourceForm {
  import opened Sequences

  // ---- Field definitions ----

  datatype Control =
    | TextInput | Email | Password | Url | NumberInput | TextArea | Select | Switch | JsonEditor | DateTime | MoneyInput
    | Percentage | ModelPicker | MultiSelect | RelationMulti | Tags | Capabilities | Relation | Hidden

  /** A value of a form control. */
  datatype FormValue = Str(text: string) | Flag(on: bool) | List(items: seq<string>)

  type FormValues = map<string, FormValue>

  datatype When = When(field: string, equals: FormValue)

  datatype Choice = Choice(value: string, condition: Option<When>)

  datatype Group = Group(key: string, property: string)

  datatype Field = Field(
    key: string,
    sourceKey: Option<string>,
    control: Control,
    required: bool,
    nullable: bool,
    min: Option<real>,
    max: Option<real>,
    createOnly: bool,
    updateOnly: bool,
    readOnlyOnEdit: bool,
    omitEmptyOnUpdate: bool,
    excludeKeys: seq<string>,
    payloadGroup: Option<Group>,
    serializeAsNumber: bool,
    options: seq<Choice>)

  function FieldKey(f: Field): string { f.key }

  // ---- Conditional options ----

  predicate Offered(option: Choice, values: FormValues) {
    option.condition.Some? ==> Get(values, option.condition.value.field) == Some(option.condition.value.equals)
  }

  /** `availableFieldOptions`. */
  function Available(f: Field, values: FormValues): seq<Choice> {
    Filter(f.options, option => Offered(option, values))
  }

  predicate Conditional(f: Field) {
    exists option :: option in f.options && option.condition.Some?
  }

  predicate Offers(options: seq<Choice>, current: Option<FormValue>) {
    exists option :: option in options && current == Some(Str(option.value))
  }

  /** One field's turn. */
  function Settle(f: Field, values: FormValues): FormValues {
    if !Conditional(f) || Offers(Available(f, values), Get(values, f.key)) then values
    else values[f.key := Str(if Available(f, values) == [] then "" else Available(f, values)[0].value)]
  }

  function Normalized(fields: seq<Field>, values: FormValues): FormValues {
    if fields == [] then values
    else Settle(fields[|fields| - 1], Normalized(fields[..|fields| - 1], values))
  }

  /** `normalizeConditionalOptions`. */
  method NormalizeConditionalOptions(fields: seq<Field>, values: FormValues) returns (next: FormValues)
    ensures next == Normalized(fields, values)
  {
    next := values;
    for i := 0 to |fields|
      invariant next == Normalized(fields[..i], values)
    {
      var f := fields[i];
      assert fields[..i + 1][..i] == fields[..i];
      if !Conditional(f) {
        continue;
      }
      var options := Available(f, next);
      if !Offers(options, Get(next, f.key)) {
        next := next[f.key := Str(if |options| > 0 then options[0].value else "")];
      }
    }
    assert fields[..|fields|] == fields;
  }

  /** Nothing left to do for this field. */
  predicate Settled(f: Field, values: FormValues) {
    Settle(f, values) == values
  }

  lemma SettleSettles(f: Field, values: FormValues)
    requires !Mentions(f, f.key)
    ensures Settled(f, Settle(f, values))
  {
    var next := Settle(f, values);
    FilterSame(f.options, option => Offered(option, values), option => Offered(option, next));
    if Available(f, values) != [] {
      assert Available(f, values)[0] in Available(f, values);
    }
  }

  /** Every condition names an unconditional field or one that comes strictly earlier. */
  ghost predicate LooksBack(fields: seq<Field>) {
    forall i, j :: 0 <= i < |fields| && 0 <= j < |fields| && Conditional(fields[j]) && Mentions(fields[i], fields[j].key) ==> j < i
  }

  predicate Mentions(f: Field, key: string) {
    exists option :: option in f.options && option.condition.Some? && option.condition.value.field == key
  }

  lemma SettleElsewhere(f: Field, g: Field, values: FormValues)
    requires Settled(f, values) && f.key != g.key
    requires Conditional(g) ==> !Mentions(f, g.key)
    ensures Settled(f, Settle(g, values))
  {
    var next := Settle(g, values);
    if Conditional(g) {
      FilterSame(f.options, option => Offered(option, values), option => Offered(option, next));
    }
  }

  lemma {:induction false} PassSettles(fields: seq<Field>, values: FormValues, n: nat)
    requires n <= |fields| && UniqueBy(fields, FieldKey) && LooksBack(fields)
    ensures forall i :: 0 <= i < n ==> Settled(fields[i], Normalized(fields[..n], values))
  {
    if n > 0 {
      PassSettles(fields, values, n - 1);
      assert fields[..n][..n - 1] == fields[..n - 1];
      var before, g := Normalized(fields[..n - 1], values), fields[n - 1];
      forall i | 0 <= i < n ensures Settled(fields[i], Settle(g, before)) {
        if i == n - 1 {
          if Conditional(g) {
            SettleSettles(g, before);
          }
        } else {
          assert FieldKey(fields[i]) != FieldKey(g);
          SettleElsewhere(fields[i], g, before);
        }
      }
    }
  }

  lemma {:induction false} SettledIsFixed(fields: seq<Field>, values: FormValues)
    requires forall i :: 0 <= i < |fields| ==> Settled(fields[i], values)
    ensures Normalized(fields, values) == values
  {
    if fields != [] {
      SettledIsFixed(fields[..|fields| - 1], values);
    }
  }

  /** One pass is enough when conditions only look back. */
  lemma NormalizeOnce(fields: seq<Field>, values: FormValues)
    requires UniqueBy(fields, FieldKey) && LooksBack(fields)
    ensures Normalized(fields, Normalized(fields, values)) == Normalized(fields, values)
    ensures forall f :: f in fields && Conditional(f) ==>
              var v := Normalized(fields, values);
              Offers(Available(f, v), Get(v, f.key)) || (Available(f, v) == [] && Get(v, f.key) == Some(Str("")))
  {
    assert fields[..|fields|] == fields;
    PassSettles(fields, values, |fields|);
    var v := Normalized(fields, values);
    SettledIsFixed(fields, v);
    forall f | f in fields && Conditional(f)
      ensures Offers(Available(f, v), Get(v, f.key)) || (Available(f, v) == [] && Get(v, f.key) == Some(Str("")))
    {
      var i :| 0 <= i < |fields| && fields[i] == f;
      assert Settled(f, v);
      SettledOffers(f, v);
    }
  }

  lemma SettledOffers(f: Field, v: FormValues)
    requires Settled(f, v) && Conditional(f)
    ensures Offers(Available(f, v), Get(v, f.key)) || (Available(f, v) == [] && Get(v, f.key) == Some(Str("")))
  {
    assert Available(f, v) != [] ==> Available(f, v)[0] in Available(f, v);
    assert !Offers(Available(f, v), Get(v, f.key)) ==> f.key in v && v[f.key] == Settle(f, v)[f.key];
  }

  function Plain(key: string, control: Control, options: seq<Choice>): Field {
    Field(key, None, control, false, false, None, None, false, false, false, false, [], None, false, options)
  }

  lemma OneOption(f: Field, option: Choice, values: FormValues)
    requires f.options == [option] && option.condition.Some?
    ensures Settle(f, values) ==
            if !Offered(option, values) then values[f.key := Str("")]
            else if Get(values, f.key) == Some(Str(option.value)) then values else values[f.key := Str(option.value)]
  {
    assert [option][..0] == [] && option in f.options;
    assert Available(f, values) == if Offered(option, values) then [option] else [];
  }

  lemma TwoFields(f: Field, g: Field, values: FormValues)
    ensures Normalized([f, g], values) == Settle(g, Settle(f, values))
  {
    assert [f, g][..1] == [f] && [f][..0] == [];
    assert Normalized([f], values) == Settle(f, Normalized([], values));
  }

  const KIND := Plain("kind", Select, [Choice("x", Some(When("mode", Str("on"))))])
  const MODE := Plain("mode", Select, [Choice("on", Some(When("flag", Flag(true))))])

  /** A condition on a later field can need a second pass: `kind` is judged against a `mode` that then changes. */
  lemma LookingAheadNeedsTwoPasses(values: FormValues)
    requires Get(values, "flag") == Some(Flag(true)) && Get(values, "mode") == Some(Str("off"))
    ensures var once := Normalized([KIND, MODE], values);
      Get(once, "kind") == Some(Str("")) && Get(Normalized([KIND, MODE], once), "kind") == Some(Str("x"))
  {
    FirstPass(values);
    SecondPass(Normalized([KIND, MODE], values));
  }

  lemma FirstPass(values: FormValues)
    requires Get(values, "flag") == Some(Flag(true)) && Get(values, "mode") == Some(Str("off"))
    ensures Normalized([KIND, MODE], values) == values["kind" := Str("")]["mode" := Str("on")]
  {
    TwoFields(KIND, MODE, values);
    OneOption(KIND, KIND.options[0], values);
    OneOption(MODE, MODE.options[0], Settle(KIND, values));
  }

  lemma SecondPass(values: FormValues)
    requires Get(values, "flag") == Some(Flag(true)) && Get(values, "mode") == Some(Str("on")) && Get(values, "kind") == Some(Str(""))
    ensures Get(Normalized([KIND, MODE], values), "kind") == Some(Str("x"))
  {
    TwoFields(KIND, MODE, values);
    OneOption(KIND, KIND.options[0], values);
    OneOption(MODE, MODE.options[0], Settle(KIND, values));
  }

  // ---- One field's turn, by its options ----

  /** The option `o` may be chosen: it has no condition, or the field it asks about holds what it asks for. */
  predicate Open(o: Choice, values: FormValues) {
    o.condition.None? || (o.condition.value.field in values && values[o.condition.value.field] == o.condition.value.equals)
  }

  /** Option `k` is the first that may be chosen. */
  predicate FirstOpen(f: Field, values: FormValues, k: nat) {
    k < |f.options| && Open(f.options[k], values) && forall i :: 0 <= i < k ==> !Open(f.options[i], values)
  }

  lemma {:induction false} FirstAvailable(options: seq<Choice>, values: FormValues, k: nat)
    requires k < |options| && Open(options[k], values) && forall i :: 0 <= i < k ==> !Open(options[i], values)
    ensures Filter(options, option => Offered(option, values)) != []
    ensures Filter(options, option => Offered(option, values))[0] == options[k]
  {
    var n := |options| - 1;
    if k < n {
      FirstAvailable(options[..n], values, k);
    } else {
      CountZero(options[..n], option => Offered(option, values));
    }
  }

  /** A field without conditions, or whose choice may be kept, keeps it; any other takes the first option that may be chosen,
      or becomes blank. No other field changes. */
  lemma SettleTells(f: Field, values: FormValues)
    ensures forall key :: key != f.key ==> (key in Settle(f, values) <==> key in values)
    ensures forall key :: key != f.key && key in values ==> Settle(f, values)[key] == values[key]
    ensures (forall o :: o in f.options ==> o.condition.None?) ==> Settle(f, values) == values
    ensures (exists o :: o in f.options && Open(o, values) && f.key in values && values[f.key] == Str(o.value)) ==>
              Settle(f, values) == values
    ensures (exists o :: o in f.options && o.condition.Some?)
            && !(exists o :: o in f.options && Open(o, values) && f.key in values && values[f.key] == Str(o.value)) ==>
              && f.key in Settle(f, values)
              && (forall k: nat :: FirstOpen(f, values, k) ==> Settle(f, values)[f.key] == Str(f.options[k].value))
              && ((forall o :: o in f.options ==> !Open(o, values)) ==> Settle(f, values)[f.key] == Str(""))
  {
    forall o: Choice ensures Open(o, values) <==> Offered(o, values) {
    }
    forall k: nat | FirstOpen(f, values, k) ensures Available(f, values) != [] && Available(f, values)[0] == f.options[k] {
      FirstAvailable(f.options, values, k);
    }
    CountZero(f.options, option => Offered(option, values));
  }

  /** The pass takes the fields in order, each seeing what the ones before it settled. */
  lemma PassTells(fields: seq<Field>, values: FormValues, i: nat)
    requires i < |fields|
    ensures Normalized([], values) == values
    ensures Normalized(fields[..i + 1], values) == Settle(fields[i], Normalized(fields[..i], values))
  {
    assert fields[..i + 1][..i] == fields[..i];
  }
}
