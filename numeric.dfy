/**
 * The `numeric` field-validation type: a field value must be a number and,
 * when the field's type options carry a `range`, lie between its optional
 * `min` and `max`. `ValidateFieldSpecification` checks the type options once,
 * when a field specification is registered; `NumericType.Validate` checks one
 * field value against options that passed that check.
 */
module Numeric {
  import opened JsValues

  /** The messages `Validate` appends, one per rejected value. */
  const NotANumber := "The field must be a number."
  const BelowMinimum := "The value is lesser than the minimum."
  const AboveMaximum := "The value is greater than the maximum."

  /** The type options a field specification of this type carries. */
  type TypeOptions = map<string, Value>

  /** The reasons `ValidateFieldSpecification` throws a PreconditionError. */
  datatype PreconditionError =
    | InvalidRangeDefinition
    | InvalidRangeMin
    | InvalidRangeMax
    | MinGreaterThanMax
  {
    /** The error's message, as the caller sees it. */
    function Message(): string {
      match this
      case InvalidRangeDefinition => "Invalid \"range\" option definition"
      case InvalidRangeMin => "Invalid \"range.min\" option: must be of type \"number\""
      case InvalidRangeMax => "Invalid \"range.max\" option: must be of type \"number\""
      case MinGreaterThanMax => "Invalid range: min > max"
    }
  }

  /** Each failure has its own message, so the message tells the caller which check failed. */
  lemma MessagesDistinct(e1: PreconditionError, e2: PreconditionError)
    ensures e1.Message() == e2.Message() <==> e1 == e2
  {
  }

  /** A property of `range` other than `min` and `max`. */
  predicate HasUnknownKey(range: map<string, Value>) {
    exists k :: k in range && k != "min" && k != "max"
  }

  /** `range` is set, to a plain object with no property but `min` and `max`. */
  predicate PlainRange(opts: TypeOptions) {
    "range" in opts && opts["range"].Obj? && !HasUnknownKey(opts["range"].props)
  }

  /**
   * What a well-formed `range` is, stated independently of the order in
   * which `ValidateFieldSpecification` tests it: a plain object whose only
   * properties are `min` and `max`, each a number, with `min <= max`.
   */
  predicate WellFormedRange(range: Value) {
    && range.Obj?
    && (forall k :: k in range.props ==> k == "min" || k == "max")
    && (forall k :: k in range.props ==> range.props[k].Num?)
    && ("min" in range.props && "max" in range.props ==>
          range.props["min"].n <= range.props["max"].n)
  }

  /** Type options the numeric type accepts: `range` is absent or well formed. */
  predicate ValidSpecification(opts: TypeOptions) {
    "range" in opts ==> WellFormedRange(opts["range"])
  }

  /**
   * Checks the type options of a numeric field specification and returns
   * them unchanged, or throws the PreconditionError for the first check that
   * fails: `range` not a plain object or with an unknown property, then a
   * non-number `min`, then a non-number `max`, then `min > max`.
   */
  function ValidateFieldSpecification(opts: TypeOptions): (r: Result<TypeOptions, PreconditionError>)
    ensures r.Ok? <==> ValidSpecification(opts)
    ensures r.Ok? ==> r.value == opts
    ensures "range" in opts && !opts["range"].Obj? ==> r == Err(InvalidRangeDefinition)
    ensures "range" in opts && opts["range"].Obj? && HasUnknownKey(opts["range"].props) ==>
              r == Err(InvalidRangeDefinition)
    ensures PlainRange(opts) && "min" in opts["range"].props && !opts["range"].props["min"].Num? ==>
              r == Err(InvalidRangeMin)
    ensures PlainRange(opts) && ("min" in opts["range"].props ==> opts["range"].props["min"].Num?)
            && "max" in opts["range"].props && !opts["range"].props["max"].Num? ==>
              r == Err(InvalidRangeMax)
    ensures r == Err(MinGreaterThanMax) <==>
              && PlainRange(opts)
              && "min" in opts["range"].props && opts["range"].props["min"].Num?
              && "max" in opts["range"].props && opts["range"].props["max"].Num?
              && opts["range"].props["min"].n > opts["range"].props["max"].n
  {
    if "range" !in opts then Ok(opts)
    else
      var range := opts["range"];
      if !range.Obj? || HasUnknownKey(range.props) then Err(InvalidRangeDefinition)
      else if "min" in range.props && !range.props["min"].Num? then Err(InvalidRangeMin)
      else if "max" in range.props && !range.props["max"].Num? then Err(InvalidRangeMax)
      else if "min" in range.props && "max" in range.props
              && range.props["min"].n > range.props["max"].n then Err(MinGreaterThanMax)
      else Ok(opts)
  }

  /** The bound `key` (`"min"` or `"max"`) of a validated `range`, if set. */
  function Bound(opts: TypeOptions, key: string): Option<real>
    requires ValidSpecification(opts)
  {
    if "range" in opts && key in opts["range"].props then Some(opts["range"].props[key].n)
    else None
  }

  /**
   * The message `Validate` appends for `value` under `opts`, or None when
   * the value is accepted. A non-number is rejected before any bound is
   * looked at; a value below `min` is reported before one above `max`.
   * What happens to a value equal to a bound is not part of this contract.
   */
  function Rejection(opts: TypeOptions, value: Value): (m: Option<string>)
    requires ValidSpecification(opts)
    ensures !value.Num? ==> m == Some(NotANumber)
    ensures value.Num? && Bound(opts, "min").Some? && value.n < Bound(opts, "min").value ==>
              m == Some(BelowMinimum)
    ensures value.Num? && Bound(opts, "max").Some? && value.n > Bound(opts, "max").value ==>
              m == Some(AboveMaximum)
    ensures m.None? ==>
              && value.Num?
              && (Bound(opts, "min").Some? ==> Bound(opts, "min").value <= value.n)
              && (Bound(opts, "max").Some? ==> value.n <= Bound(opts, "max").value)
    ensures value.Num?
            && (Bound(opts, "min").Some? ==> Bound(opts, "min").value < value.n)
            && (Bound(opts, "max").Some? ==> value.n < Bound(opts, "max").value)
            ==> m.None?
    ensures m.Some? ==> m.value in {NotANumber, BelowMinimum, AboveMaximum}
  {
    if !value.Num? then Some(NotANumber)
    else if Bound(opts, "min").Some? && value.n < Bound(opts, "min").value then Some(BelowMinimum)
    else if Bound(opts, "max").Some? && value.n > Bound(opts, "max").value then Some(AboveMaximum)
    else None
  }

  /**
   * Type options that pass `ValidateFieldSpecification` never reject every
   * number: when the range is not pinched to a single point, some number is
   * accepted by `Validate`.
   */
  lemma SomeNumberAccepted(opts: TypeOptions)
    requires ValidateFieldSpecification(opts).Ok?
    requires Bound(opts, "min").Some? && Bound(opts, "max").Some? ==>
               Bound(opts, "min").value < Bound(opts, "max").value
    ensures exists x: real :: Rejection(opts, Num(x)).None?
  {
    var lo, hi := Bound(opts, "min"), Bound(opts, "max");
    var x: real :=
      if lo.Some? && hi.Some? then (lo.value + hi.value) / 2.0
      else if lo.Some? then lo.value + 1.0
      else if hi.Some? then hi.value - 1.0
      else 0.0;
    assert Rejection(opts, Num(x)).None?;
  }

  /** The caller-owned array `Validate` appends its messages to. */
  class MessageList {
    var items: seq<string>

    constructor ()
      ensures items == []
    {
      items := [];
    }

    method Push(message: string)
      modifies this
      ensures items == old(items) + [message]
    {
      items := items + [message];
    }
  }

  /** An instance of the numeric validation type. */
  class NumericType {
    const typeName: string
    const allowChildren: bool
    const allowedTypeOptions: seq<string>

    constructor ()
      ensures typeName == "numeric"
      ensures !allowChildren
      ensures allowedTypeOptions == ["range"]
    {
      typeName := "numeric";
      allowChildren := false;
      allowedTypeOptions := ["range"];
    }

    /**
     * Validates `fieldValue` against `typeOptions`. Returns true and leaves
     * `errorMessages` alone when the value is accepted; otherwise appends
     * exactly one message, the one `Rejection` names, and returns false.
     */
    method Validate(typeOptions: TypeOptions, fieldValue: Value, errorMessages: MessageList)
      returns (ok: bool)
      requires ValidSpecification(typeOptions)
      modifies errorMessages
      ensures ok <==> Rejection(typeOptions, fieldValue).None?
      ensures errorMessages.items ==
                if ok then old(errorMessages.items)
                else old(errorMessages.items) + [Rejection(typeOptions, fieldValue).value]
    {
      if !fieldValue.Num? {
        errorMessages.Push(NotANumber);
        return false;
      }
      if "range" in typeOptions {
        var range := typeOptions["range"].props;
        if "min" in range && fieldValue.n < range["min"].n {
          errorMessages.Push(BelowMinimum);
          return false;
        }
        if "max" in range && fieldValue.n > range["max"].n {
          errorMessages.Push(AboveMaximum);
          return false;
        }
      }
      return true;
    }
  }
}
