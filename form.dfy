/**
 * The form-state controller of the to-do form (the `useForm` hook).
 *
 * The controller holds two mappings: the current field values (`inputs`)
 * and the current validation messages (`errors`). Typing into a field
 * replaces `inputs` by a copy in which one field changed; submitting runs a
 * caller-supplied validator, replaces `errors` by its result, and hands the
 * current values to a success callback only when that result has no keys.
 *
 * The success callback is observed through a ghost log of the snapshots it
 * was called with, so "called once, with exactly these values" can be stated.
 */
module Form {
  import opened Wrappers

  /** A field value: the hook accepts a string or a number. */
  datatype Value = Text(s: string) | Number(n: real)

  /** Field name to current value. */
  type FormValues = map<string, Value>

  /** Field name to error message; a present key is an error, whatever its message. */
  type FormErrors = map<string, string>

  /** A validator supplied by the caller: a pure function of the values. */
  type Validator = FormValues -> FormErrors

  // ---------------------------------------------------------------------------
  // The two pure pieces of the hook
  // ---------------------------------------------------------------------------

  /** The spread-merge `{...inputs, [field]: value}`: a new mapping, one field replaced or added. */
  function Merge(inputs: FormValues, field: string, value: Value): (r: FormValues)
    ensures field in r && r[field] == value
    ensures r.Keys == inputs.Keys + {field}
    ensures forall k :: k in inputs && k != field ==> k in r && r[k] == inputs[k]
  {
    inputs[field := value]
  }

  /**
   * The validity test `Object.keys(errs).length === 0`. Only an empty mapping
   * passes: a key whose message is the empty string still blocks.
   */
  function NoErrors(errs: FormErrors): (ok: bool)
    ensures ok <==> errs == map[]
    ensures forall k :: k in errs ==> !ok
  {
    |errs| == 0
  }

  /** The error state a fresh controller starts with. */
  function InitialErrors(): FormErrors
  {
    map["title" := "", "status" := ""]
  }

  // ---------------------------------------------------------------------------
  // The controller as a state machine over values
  // ---------------------------------------------------------------------------

  /** The controller's observable state; `calls` lists the snapshots passed to the success callback. */
  datatype FormState = FormState(inputs: FormValues, errors: FormErrors, calls: seq<FormValues>)

  /** What a user can do to the form: type into a field, or submit. */
  datatype Event = InputChange(field: string, value: Value) | Submit

  /**
   * The state of a controller created with `initialValues`: the values as
   * given, an empty message for `title` and `status`, and no callback yet.
   */
  function Init(initialValues: FormValues): (r: FormState)
    ensures r.inputs == initialValues
    ensures r.errors.Keys == {"title", "status"}
    ensures forall k :: k in r.errors ==> r.errors[k] == ""
    ensures r.calls == []
  {
    FormState(initialValues, InitialErrors(), [])
  }

  /**
   * One event applied to the state. Typing never changes `errors`, a submit
   * never changes `inputs`, no key of `inputs` is ever removed, and the
   * callback log grows by at most one entry: the current values, and only
   * on a submit whose validation result has no keys.
   */
  function Step(validate: Validator, s: FormState, e: Event): (r: FormState)
    ensures e.InputChange? ==> r.errors == s.errors
    ensures e.Submit? ==> r.inputs == s.inputs
    ensures s.inputs.Keys <= r.inputs.Keys
    ensures s.calls <= r.calls && |r.calls| <= |s.calls| + 1
    ensures r.calls != s.calls ==> e.Submit? && NoErrors(validate(s.inputs)) && r.calls[|s.calls|] == s.inputs
  {
    match e
    case InputChange(field, value) =>
      s.(inputs := Merge(s.inputs, field, value))
    case Submit =>
      var errs := validate(s.inputs);
      s.(errors := errs, calls := if NoErrors(errs) then s.calls + [s.inputs] else s.calls)
  }

  /**
   * A sequence of events applied in order. Over any run no key of `inputs`
   * is removed, and the callback log only grows, by at most one entry per event.
   */
  function Run(validate: Validator, s: FormState, events: seq<Event>): (r: FormState)
    ensures s.inputs.Keys <= r.inputs.Keys
    ensures s.calls <= r.calls && |r.calls| <= |s.calls| + |events|
    decreases |events|
  {
    if events == [] then s else Run(validate, Step(validate, s, events[0]), events[1..])
  }

  // ---------------------------------------------------------------------------
  // Properties of single steps
  // ---------------------------------------------------------------------------

  /** Typing changes only `inputs`, and only at the one field; no key is removed. */
  lemma InputChangeFrame(validate: Validator, s: FormState, field: string, value: Value)
    ensures var t := Step(validate, s, InputChange(field, value));
      && field in t.inputs && t.inputs[field] == value
      && s.inputs.Keys <= t.inputs.Keys
      && (forall k :: k in s.inputs && k != field ==> t.inputs[k] == s.inputs[k])
      && t.errors == s.errors && t.calls == s.calls
  {
  }

  /** The same change applied twice leaves the values as applying it once. */
  lemma InputChangeIdempotent(validate: Validator, s: FormState, field: string, value: Value)
    ensures var once := Step(validate, s, InputChange(field, value));
      Step(validate, once, InputChange(field, value)) == once
  {
  }

  /**
   * A submit replaces `errors` by the validator's result wholesale, never
   * touches `inputs`, and calls back exactly once with the current values
   * if and only if that result has no keys.
   */
  lemma SubmitContract(validate: Validator, s: FormState)
    ensures var t := Step(validate, s, Submit);
      && t.errors == validate(s.inputs)
      && t.inputs == s.inputs
      && (t.calls == s.calls + [s.inputs] <==> NoErrors(validate(s.inputs)))
      && (t.calls == s.calls <==> !NoErrors(validate(s.inputs)))
  {
  }

  /** A validator result holding a key with an empty message still blocks the callback. */
  lemma EmptyMessageBlocks(validate: Validator, s: FormState, field: string)
    requires field in validate(s.inputs) && validate(s.inputs)[field] == ""
    ensures Step(validate, s, Submit).calls == s.calls
    ensures Step(validate, s, Submit).errors[field] == ""
  {
  }

  // ---------------------------------------------------------------------------
  // Properties of whole runs
  // ---------------------------------------------------------------------------

  /** Running `a` then `b` is running `a + b`. */
  lemma {:induction false} RunAppend(validate: Validator, s: FormState, a: seq<Event>, b: seq<Event>)
    ensures Run(validate, s, a + b) == Run(validate, Run(validate, s, a), b)
    decreases |a|
  {
    if a == [] {
      assert a + b == b;
    } else {
      assert (a + b)[0] == a[0];
      assert (a + b)[1..] == a[1..] + b;
      RunAppend(validate, Step(validate, s, a[0]), a[1..], b);
    }
  }

  /**
   * Whatever happened before, the errors after a submit are exactly the
   * validator's result on the values at that moment: nothing from earlier
   * submits survives, and the values are left as they were.
   */
  lemma LastSubmitDecidesErrors(validate: Validator, s: FormState, events: seq<Event>)
    ensures Run(validate, s, events + [Submit]).errors == validate(Run(validate, s, events).inputs)
    ensures Run(validate, s, events + [Submit]).inputs == Run(validate, s, events).inputs
  {
    RunAppend(validate, s, events, [Submit]);
    assert [Submit][1..] == [];
  }

  /** Two submits in a row leave only the second result, even when the values changed in between. */
  lemma TwoSubmitsKeepSecond(validate: Validator, s: FormState, between: seq<Event>)
    ensures var t := Run(validate, s, [Submit] + between + [Submit]);
      t.errors == validate(Run(validate, Step(validate, s, Submit), between).inputs)
  {
    LastSubmitDecidesErrors(validate, s, [Submit] + between);
    RunAppend(validate, s, [Submit], between);
    assert [Submit][1..] == [];
  }

  /** A run of typing alone never changes `errors` and never calls back. */
  lemma {:induction false} TypingOnly(validate: Validator, s: FormState, events: seq<Event>)
    requires forall i :: 0 <= i < |events| ==> events[i].InputChange?
    ensures Run(validate, s, events).errors == s.errors
    ensures Run(validate, s, events).calls == s.calls
    decreases |events|
  {
    if events != [] {
      TypingOnly(validate, Step(validate, s, events[0]), events[1..]);
    }
  }

  /**
   * Over any run, the callback log only grows, and every snapshot added to
   * it is one the validator passed with zero keys.
   */
  lemma {:induction false} CallsAreValidated(validate: Validator, s: FormState, events: seq<Event>)
    ensures var t := Run(validate, s, events);
      && s.calls <= t.calls
      && forall i :: |s.calls| <= i < |t.calls| ==> NoErrors(validate(t.calls[i]))
    decreases |events|
  {
    if events != [] {
      var s' := Step(validate, s, events[0]);
      CallsAreValidated(validate, s', events[1..]);
    }
  }

  // ---------------------------------------------------------------------------
  // The controller object
  // ---------------------------------------------------------------------------

  /** One form's controller: the state the hook holds, replaced by its handlers. */
  class Controller {
    var inputs: FormValues
    var errors: FormErrors
    /** The snapshots the success callback has been called with, in order. */
    ghost var calls: seq<FormValues>
    const validate: Validator

    /** The abstract state of this controller. */
    ghost function State(): FormState
      reads this
    {
      FormState(inputs, errors, calls)
    }

    /** `useForm(initialValues, validate)`. */
    constructor (initialValues: FormValues, validate: Validator)
      ensures inputs == initialValues
      ensures errors.Keys == {"title", "status"} && errors["title"] == "" && errors["status"] == ""
      ensures calls == []
      ensures this.validate == validate
      ensures State() == Init(initialValues)
    {
      this.inputs := initialValues;
      this.errors := InitialErrors();
      this.calls := [];
      this.validate := validate;
    }

    /** `handleInputChange(field, value)`: `inputs` becomes a merged copy; nothing else changes. */
    method HandleInputChange(field: string, value: Value)
      modifies this
      ensures inputs == Merge(old(inputs), field, value)
      ensures errors == old(errors) && calls == old(calls)
      ensures State() == Step(validate, old(State()), InputChange(field, value))
    {
      inputs := Merge(inputs, field, value);
    }

    /**
     * Invoking the handler that `handleSubmit(fn)` returns. The result is
     * `Some(snapshot)` exactly when `fn` is called, with that snapshot.
     */
    method HandleSubmit() returns (fired: Option<FormValues>)
      modifies this
      ensures inputs == old(inputs)
      ensures errors == validate(old(inputs))
      ensures NoErrors(errors) ==> fired == Some(inputs) && calls == old(calls) + [inputs]
      ensures !NoErrors(errors) ==> fired == None && calls == old(calls)
      ensures State() == Step(validate, old(State()), Submit)
    {
      var validationErrors := validate(inputs);
      var noErrors := NoErrors(validationErrors);
      errors := validationErrors;
      if noErrors {
        calls := calls + [inputs];
        fired := Some(inputs);
      } else {
        fired := None;
      }
    }
  }
}
