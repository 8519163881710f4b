/** `useFormValidation`: per-field rules checked in a fixed order, a change
    handler that revalidates one field, and a submit handler that collects
    the errors of every ruled field before running the callback. */
module UseFormValidation {
  import opened Js

  /** A form value as the rules see it: the text of an input, a number, or
      `undefined` for a field the form has no value for. */
  datatype Value = Text(s: string) | Number(n: JsNumber) | Missing

  /** JavaScript truthiness: the empty text, 0, NaN and undefined are falsy. */
  predicate Truthy(v: Value)
  {
    match v
    case Text(s) => s != []
    case Number(n) => n.Num? && n.value != 0.0
    case Missing => false
  }

  /** The rules of one field. A length bound of 0 is falsy and so counts as
      absent; `pattern.test` and `custom` are given as predicates on values. */
  datatype FieldRules = FieldRules(
    required: bool,
    minLength: int,
    maxLength: int,
    pattern: Option<Value -> bool>,
    custom: Option<Value -> bool>)

  /** What `validate` does: return an error text ('' for none), or throw the
      TypeError of reading `length` of undefined. */
  datatype Verdict = Says(message: string) | Throws

  const Required := "This field is required"
  const InvalidFormat := "Invalid format"
  const InvalidValue := "Invalid value"

  function MinMessage(n: int): string
  {
    "Minimum length is " + IntText(n) + " characters"
  }

  function MaxMessage(n: int): string
  {
    "Maximum length is " + IntText(n) + " characters"
  }

  /** The rule chain of `validate` for a field that has rules. A number has no
      `length`, and comparing undefined with a bound is false, so the length
      rules pass a number; undefined itself makes them throw. */
  function Check(r: FieldRules, v: Value): (verdict: Verdict)
    ensures v.Text? ==> verdict.Says?
    ensures verdict.Throws? <==> v.Missing? && !r.required && (r.minLength != 0 || r.maxLength != 0)
  {
    if r.required && !Truthy(v) then Says(Required)
    else if r.minLength != 0 && v.Missing? then Throws
    else if r.minLength != 0 && v.Text? && |v.s| < r.minLength then Says(MinMessage(r.minLength))
    else if r.maxLength != 0 && v.Missing? then Throws
    else if r.maxLength != 0 && v.Text? && |v.s| > r.maxLength then Says(MaxMessage(r.maxLength))
    else if r.pattern.Some? && !r.pattern.value(v) then Says(InvalidFormat)
    else if r.custom.Some? && !r.custom.value(v) then Says(InvalidValue)
    else Says("")
  }

  /** `validate(name, value)`: a field without rules is always valid. */
  function Validate(rules: map<string, FieldRules>, name: string, v: Value): (verdict: Verdict)
    ensures name !in rules ==> verdict == Says("")
    ensures v.Text? ==> verdict.Says?
  {
    if name !in rules then Says("") else Check(rules[name], v)
  }

  // ---------------------------------------------------------------------------
  // The rule chain as a list of independent rules

  /** Whether rule k (0 required, 1 minLength, 2 maxLength, 3 pattern, 4 custom)
      rejects a value on which it can be evaluated. */
  predicate RuleFails(r: FieldRules, v: Value, k: int)
  {
    if k == 0 then r.required && !Truthy(v)
    else if k == 1 then r.minLength != 0 && v.Text? && |v.s| < r.minLength
    else if k == 2 then r.maxLength != 0 && v.Text? && |v.s| > r.maxLength
    else if k == 3 then r.pattern.Some? && !r.pattern.value(v)
    else if k == 4 then r.custom.Some? && !r.custom.value(v)
    else false
  }

  function RuleMessage(r: FieldRules, k: int): (m: string)
    ensures m != ""
  {
    if k == 0 then Required
    else if k == 1 then MinMessage(r.minLength)
    else if k == 2 then MaxMessage(r.maxLength)
    else if k == 3 then InvalidFormat
    else InvalidValue
  }

  /** `validate` returns the message of the first failing rule, and '' exactly
      when no rule fails. */
  lemma CheckIsFirstFailure(r: FieldRules, v: Value)
    requires Check(r, v).Says?
    ensures Check(r, v).message == "" <==> forall k :: 0 <= k < 5 ==> !RuleFails(r, v, k)
    ensures forall k :: 0 <= k < 5 && RuleFails(r, v, k) && (forall j :: 0 <= j < k ==> !RuleFails(r, v, j)) ==>
      Check(r, v).message == RuleMessage(r, k)
  {
    if Check(r, v).message == "" {
      forall k | 0 <= k < 5 ensures !RuleFails(r, v, k) {
        assert k == 0 || k == 1 || k == 2 || k == 3 || k == 4;
      }
    } else {
      assert RuleFails(r, v, 0) || RuleFails(r, v, 1) || RuleFails(r, v, 2) || RuleFails(r, v, 3) || RuleFails(r, v, 4);
    }
  }

  /** A required field with a falsy value is reported as required, whatever its other rules. */
  lemma RequiredFirst(r: FieldRules, v: Value)
    requires r.required && !Truthy(v)
    ensures Check(r, v) == Says(Required)
  {
  }

  /** A text within both bounds, matching the pattern and passing the custom rule, is valid. */
  lemma PassingTextIsValid(r: FieldRules, s: string)
    requires r.required ==> s != []
    requires r.minLength != 0 ==> |s| >= r.minLength
    requires r.maxLength != 0 ==> |s| <= r.maxLength
    requires r.pattern.Some? ==> r.pattern.value(Text(s))
    requires r.custom.Some? ==> r.custom.value(Text(s))
    ensures Check(r, Text(s)) == Says("")
  {
  }

  /** Length bounds of 0 are absent: a text is then judged by the required,
      pattern and custom rules alone, whatever its length. */
  lemma ZeroBoundsAbsent(r: FieldRules, s: string)
    requires r.minLength == 0 && r.maxLength == 0
    ensures Check(r, Text(s)) == Says(
      if r.required && s == [] then Required
      else if r.pattern.Some? && !r.pattern.value(Text(s)) then InvalidFormat
      else if r.custom.Some? && !r.custom.value(Text(s)) then InvalidValue
      else "")
  {
  }

  /** The value a field has in the form: undefined when it has none. */
  function ValueOf(values: map<string, Value>, key: string): (v: Value)
    ensures key in values ==> v == values[key]
    ensures key !in values ==> v == Missing
  {
    if key in values then values[key] else Missing
  }

  /** The errors `handleSubmit` collects: one entry per ruled field whose
      validation gives a non-empty message. */
  function SubmitErrors(rules: map<string, FieldRules>, values: map<string, Value>): (errors: map<string, string>)
    ensures forall k :: k in errors <==> k in rules && Validate(rules, k, ValueOf(values, k)).Says? && Validate(rules, k, ValueOf(values, k)).message != ""
    ensures forall k :: k in errors ==> errors[k] == Validate(rules, k, ValueOf(values, k)).message
  {
    map k | k in rules.Keys && Validate(rules, k, ValueOf(values, k)).Says? && Validate(rules, k, ValueOf(values, k)).message != ""
      :: Validate(rules, k, ValueOf(values, k)).message
  }

  /** The errors collected over every ruled field, none of which threw, are the submit errors. */
  lemma CollectedErrors(rules: map<string, FieldRules>, values: map<string, Value>, keys: seq<string>, m: map<string, string>)
    requires forall k :: k in rules <==> k in keys
    requires forall j :: 0 <= j < |keys| ==> Validate(rules, keys[j], ValueOf(values, keys[j])).Says?
    requires forall k :: k in m <==> k in keys && Validate(rules, k, ValueOf(values, k)).message != ""
    requires forall k :: k in m ==> m[k] == Validate(rules, k, ValueOf(values, k)).message
    ensures forall k :: k in rules ==> Validate(rules, k, ValueOf(values, k)).Says?
    ensures m == SubmitErrors(rules, values)
  {
    forall k | k in rules ensures Validate(rules, k, ValueOf(values, k)).Says? {
      var j :| 0 <= j < |keys| && keys[j] == k;
    }
    var e := SubmitErrors(rules, values);
    assert m.Keys == e.Keys;
  }

  /** The hook's state. `ruleKeys` is `Object.keys(validationRules)`: each
      ruled field once, in the order the rules object lists them. */
  class FormState {
    const rules: map<string, FieldRules>
    const ruleKeys: seq<string>
    var values: map<string, Value>
    var errors: map<string, string>
    var isSubmitting: bool

    ghost predicate Valid()
      reads this
    {
      && (forall k :: k in rules <==> k in ruleKeys)
      && (forall i, j :: 0 <= i < j < |ruleKeys| ==> ruleKeys[i] != ruleKeys[j])
    }

    constructor (initialState: map<string, Value>, rules: map<string, FieldRules>, ruleKeys: seq<string>)
      requires forall k :: k in rules <==> k in ruleKeys
      requires forall i, j :: 0 <= i < j < |ruleKeys| ==> ruleKeys[i] != ruleKeys[j]
      ensures Valid()
      ensures this.rules == rules && this.ruleKeys == ruleKeys
      ensures values == initialState && errors == map[] && !isSubmitting
    {
      this.rules := rules;
      this.ruleKeys := ruleKeys;
      values := initialState;
      errors := map[];
      isSubmitting := false;
    }

    /** `handleChange` for the input `name` now holding `text`: that field's
        value and error are replaced, every other field keeps both. */
    method HandleChange(name: string, text: string)
      requires Valid()
      modifies this
      ensures Valid()
      ensures values == old(values)[name := Text(text)]
      ensures errors == old(errors)[name := Validate(rules, name, Text(text)).message]
      ensures isSubmitting == old(isSubmitting)
    {
      values := values[name := Text(text)];
      var verdict := Validate(rules, name, Text(text));
      errors := errors[name := verdict.message];
    }

    /** `handleSubmit(callback)`. Returns whether the callback ran, and whether
        the handler threw: a ruled field without a value and with a length
        bound but not required makes `validate` throw, so the promise rejects
        with the errors untouched and `isSubmitting` left raised. Otherwise the
        errors become exactly the failing fields, the callback runs exactly
        when there are none (its own failures are caught), and the flag is lowered. */
    method HandleSubmit() returns (ranCallback: bool, threw: bool)
      requires Valid()
      modifies this
      ensures Valid()
      ensures values == old(values)
      ensures threw <==> exists k :: k in rules && Validate(rules, k, ValueOf(values, k)).Throws?
      ensures threw ==> errors == old(errors) && isSubmitting && !ranCallback
      ensures !threw ==> errors == SubmitErrors(rules, values) && !isSubmitting && (ranCallback <==> errors == map[])
    {
      isSubmitting := true;
      var newErrors: map<string, string> := map[];
      var i := 0;
      while i < |ruleKeys|
        invariant 0 <= i <= |ruleKeys|
        invariant forall j :: 0 <= j < i ==> Validate(rules, ruleKeys[j], ValueOf(values, ruleKeys[j])).Says?
        invariant forall k :: k in newErrors <==>
          k in ruleKeys[..i] && Validate(rules, k, ValueOf(values, k)).message != ""
        invariant forall k :: k in newErrors ==> newErrors[k] == Validate(rules, k, ValueOf(values, k)).message
      {
        var key := ruleKeys[i];
        var verdict := Validate(rules, key, ValueOf(values, key));
        if verdict.Throws? {
          return false, true;
        }
        if verdict.message != "" {
          newErrors := newErrors[key := verdict.message];
        }
        assert ruleKeys[..i + 1] == ruleKeys[..i] + [key];
        i := i + 1;
      }
      assert ruleKeys[..i] == ruleKeys;
      CollectedErrors(rules, values, ruleKeys, newErrors);
      errors := newErrors;
      ranCallback := |newErrors| == 0;
      threw := false;
      isSubmitting := false;
    }
  }
}
