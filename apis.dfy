/**
 * The request side of the position API (apis/position.go): the Signal record,
 * its validation rules, and the PositionRequest slice with its `append` and
 * `Validate` methods.
 */
module Apis {
  import opened Wrappers

  /** One radio observation: mobile network code, location area code, cell id, and RSSI in dBm. */
  datatype Signal = Signal(mnc: string, lac: string, cid: string, strength: real)

  /** The position answered to the caller, in degrees. */
  datatype PositionResult = PositionResult(lat: real, lng: real)

  /** The ozzo-validation rules this code applies. */
  datatype Rule = Required | Min | Max | In | NilOrNotEmpty

  /**
   * ozzo's `validation.Errors` as produced by `ValidateStruct`: each failing field,
   * keyed by its JSON name, mapped to the first rule it broke.
   */
  type FieldErrors = map<string, Rule>

  /** What `PositionRequest.Validate` returns when it fails: one signal's field
      errors, or the error of a single rule checked on the whole request. */
  datatype RequestError = FieldFailures(fields: FieldErrors) | RuleFailure(rule: Rule)

  /** The accepted RSSI range, both ends inclusive. */
  const MinStrength: real := -150.0
  const MaxStrength: real := 0.0

  /** `Min(-150.0)` then `Max(0.0)`: the first rule the strength breaks, if any. */
  function StrengthRule(strength: real): (r: Option<Rule>)
    ensures r.None? <==> MinStrength <= strength <= MaxStrength
    ensures r == Some(Min) <==> strength < MinStrength
    ensures r == Some(Max) <==> strength > MaxStrength
  {
    if strength < MinStrength then Some(Min)
    else if strength > MaxStrength then Some(Max)
    else None
  }

  /** `Required` on a string: the empty string fails it. */
  function RequiredRule(value: string): Option<Rule>
  {
    if value == "" then Some(Required) else None
  }

  function FieldError(name: string, r: Option<Rule>): FieldErrors
  {
    if r.Some? then map[name := r.value] else map[]
  }

  /**
   * `Signal.Validate`: every field is checked; the codes are required and the
   * strength must lie in [-150, 0]. Nil (None) when nothing fails.
   */
  function ValidateSignal(signal: Signal): (r: Option<FieldErrors>)
    ensures r.None? <==>
      signal.mnc != "" && signal.lac != "" && signal.cid != "" &&
      MinStrength <= signal.strength <= MaxStrength
    ensures r.Some? ==> r.value.Keys <= {"mnc", "lac", "cid", "str"}
    ensures r.Some? ==> ("mnc" in r.value <==> signal.mnc == "")
    ensures r.Some? ==> ("lac" in r.value <==> signal.lac == "")
    ensures r.Some? ==> ("cid" in r.value <==> signal.cid == "")
    ensures r.Some? ==> ("str" in r.value <==> !(MinStrength <= signal.strength <= MaxStrength))
    ensures r.Some? ==> forall f :: f in r.value && f != "str" ==> r.value[f] == Required
    ensures r.Some? && "str" in r.value ==> r.value["str"] == StrengthRule(signal.strength).value
  {
    var errs :=
      FieldError("mnc", RequiredRule(signal.mnc)) +
      FieldError("lac", RequiredRule(signal.lac)) +
      FieldError("cid", RequiredRule(signal.cid)) +
      FieldError("str", StrengthRule(signal.strength));
    assert ("mnc" in errs <==> signal.mnc == "") && ("lac" in errs <==> signal.lac == "") &&
      ("cid" in errs <==> signal.cid == "") && ("str" in errs <==> StrengthRule(signal.strength).Some?);
    if errs == map[] then None else Some(errs)
  }

  /** The error of the first invalid signal, scanning in order. */
  function FirstSignalError(signals: seq<Signal>): Option<RequestError>
  {
    if signals == [] then None
    else match ValidateSignal(signals[0])
      case Some(errs) => Some(FieldFailures(errs))
      case None => FirstSignalError(signals[1..])
  }

  /** What `PositionRequest.Validate` answers for a request that is nil or holds `signals`. */
  function RequestVerdict(isNil: bool, signals: seq<Signal>): Option<RequestError>
  {
    if !isNil && signals == [] then Some(RuleFailure(NilOrNotEmpty))
    else FirstSignalError(signals)
  }

  /** The scan fails exactly when some signal is invalid, and then with the
      errors of the first invalid one. */
  lemma {:induction false} FirstSignalErrorIsFirst(signals: seq<Signal>)
    ensures FirstSignalError(signals).None? <==>
      forall i :: 0 <= i < |signals| ==> ValidateSignal(signals[i]).None?
    ensures FirstSignalError(signals).Some? ==>
      exists k :: 0 <= k < |signals| && ValidateSignal(signals[k]).Some? &&
        (forall j :: 0 <= j < k ==> ValidateSignal(signals[j]).None?) &&
        FirstSignalError(signals) == Some(FieldFailures(ValidateSignal(signals[k]).value))
  {
    if signals != [] {
      FirstSignalErrorIsFirst(signals[1..]);
      if ValidateSignal(signals[0]).None? {
        assert forall i :: 1 <= i < |signals| ==> signals[i] == signals[1..][i - 1];
        if FirstSignalError(signals).Some? {
          var k :| 0 <= k < |signals[1..]| && ValidateSignal(signals[1..][k]).Some? &&
            (forall j :: 0 <= j < k ==> ValidateSignal(signals[1..][j]).None?) &&
            FirstSignalError(signals[1..]) == Some(FieldFailures(ValidateSignal(signals[1..][k]).value));
          assert forall j :: 0 <= j < k + 1 ==> ValidateSignal(signals[j]).None? by {
            forall j | 0 <= j < k + 1 ensures ValidateSignal(signals[j]).None? {
              if j > 0 { assert signals[j] == signals[1..][j - 1]; }
            }
          }
        }
      }
    }
  }

  /** A request passes validation iff it is nil, or it is non-empty and every signal is valid. */
  lemma RequestVerdictAccepts(isNil: bool, signals: seq<Signal>)
    requires isNil ==> signals == []
    ensures RequestVerdict(isNil, signals).None? <==>
      isNil || (signals != [] && forall i :: 0 <= i < |signals| ==> ValidateSignal(signals[i]).None?)
  {
    FirstSignalErrorIsFirst(signals);
  }

  /**
   * `PositionRequest`, a slice of signals with pointer-receiver methods; a nil
   * slice is one with `isNil` set and no elements.
   */
  class PositionRequest {
    var isNil: bool
    var signals: seq<Signal>

    ghost predicate Valid()
      reads this
    {
      isNil ==> signals == []
    }

    /** A request literal holding `signals` (never nil). */
    constructor (signals: seq<Signal>)
      ensures Valid() && !isNil && this.signals == signals
    {
      isNil := false;
      this.signals := signals;
    }

    /** The zero value of the slice type: nil. */
    constructor Nil()
      ensures Valid() && isNil && signals == []
    {
      isNil := true;
      signals := [];
    }

    /** `append`: adds the signal at the end; the result is never nil. */
    method Append(signal: Signal)
      requires Valid()
      modifies this
      ensures Valid() && !isNil
      ensures signals == old(signals) + [signal]
      ensures |signals| == |old(signals)| + 1 && signals[..|old(signals)|] == old(signals)
    {
      signals := signals + [signal];
      isNil := false;
    }

    /**
     * `Validate`: the NilOrNotEmpty rule on the whole request, then each signal in
     * order, stopping at the first one that fails.
     */
    method Validate() returns (r: Option<RequestError>)
      requires Valid()
      ensures r == RequestVerdict(isNil, signals)
      ensures r.None? <==>
        isNil || (signals != [] && forall i :: 0 <= i < |signals| ==> ValidateSignal(signals[i]).None?)
    {
      RequestVerdictAccepts(isNil, signals);
      if !isNil && |signals| == 0 {
        return Some(RuleFailure(NilOrNotEmpty));
      }
      var i := 0;
      while i < |signals|
        invariant 0 <= i <= |signals|
        invariant FirstSignalError(signals[i..]) == FirstSignalError(signals)
      {
        assert signals[i..][1..] == signals[i + 1..];
        var errs := ValidateSignal(signals[i]);
        if errs.Some? {
          return Some(FieldFailures(errs.value));
        }
        i := i + 1;
      }
      return None;
    }
  }
}
