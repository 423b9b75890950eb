/**
 The `gr` command line's `run` logic: route normalisation, endpoint lookup,
 coercion of string arguments into typed inputs driven by the schema's type
 tags, and the display names of outputs.
 */
module Gr {
  import opened Wrappers
  import opened Json
  import opened Text
  import opened Errors
  import opened Structs
  import opened Data
  import Client

  // ===========================================================================
  // Routes
  // ===========================================================================

  /** Exactly one leading slash, followed by the route without its own. */
  function NormaliseRoute(route: string): (r: string)
    ensures |r| >= 1 && r[0] == '/' && r[1..] == TrimStart(route, '/')
    ensures |r| == 1 || r[1] != '/'
  {
    "/" + TrimStart(route, '/')
  }

  /** Normalising twice is normalising once. */
  lemma NormaliseIdempotent(route: string)
    ensures NormaliseRoute(NormaliseRoute(route)) == NormaliseRoute(route)
  {
    SlashThenTrimmed(TrimStart(route, '/'));
  }

  lemma SlashThenTrimmed(t: string)
    requires |t| == 0 || t[0] != '/'
    ensures TrimStart("/" + t, '/') == t
  {
    assert ("/" + t)[1..] == t;
  }

  /** The normalised route reaches the same dependency as the typed one. */
  lemma NormalisedRouteFindsSameDependency(deps: seq<Dependency>, route: string)
    ensures Client.FindRoute(deps, NormaliseRoute(route)) == Client.FindRoute(deps, route)
  {
    Client.LeadingSlashesIgnored(deps, TrimStart(route, '/'));
  }

  /** The schema entry of a normalised route; the source panics when there is
      none, here an error names the route. */
  function LookupEndpoint(info: ApiInfo, route: string): (r: Outcome<EndpointInfo>)
    ensures r.Ok? <==> route in info.namedEndpoints
    ensures r.Ok? ==> r.value == info.namedEndpoints[route]
    ensures r.Err? ==> r.error == RouteNotFound(route)
  {
    if route in info.namedEndpoints then Ok(info.namedEndpoints[route]) else Err(RouteNotFound(route))
  }

  // ===========================================================================
  // Parsing command-line text
  // ===========================================================================

  /** Rust's `str::parse::<i64>`: an optional `+` or `-`, then one or more
      decimal digits, the value within the 64-bit signed range. */
  function ParseI64(s: string): (r: Option<int>)
    ensures r.Some? ==> IsI64(r.value)
    ensures r.Some? ==> |s| > 0 && (IsDigit(s[0]) || s[0] == '+' || s[0] == '-')
    ensures s == "" || s == "+" || s == "-" ==> r.None?
    ensures |s| > 0 && IsDigit(s[0]) ==> (r.Some? <==> AllDigits(s) && IsI64(DecimalValue(s)))
    ensures |s| > 0 && IsDigit(s[0]) && r.Some? ==> AllDigits(s) && r.value == DecimalValue(s)
    ensures |s| > 0 && s[0] == '+' ==> (r.Some? <==> |s| > 1 && AllDigits(s[1..]) && IsI64(DecimalValue(s[1..])))
    ensures |s| > 0 && s[0] == '+' && r.Some? ==> AllDigits(s[1..]) && r.value == DecimalValue(s[1..])
    ensures |s| > 0 && s[0] == '-' ==> (r.Some? <==> |s| > 1 && AllDigits(s[1..]) && IsI64(-(DecimalValue(s[1..]) as int)))
    ensures |s| > 0 && s[0] == '-' && r.Some? ==> AllDigits(s[1..]) && r.value == -(DecimalValue(s[1..]) as int)
  {
    var negative := |s| > 0 && s[0] == '-';
    var digits := if |s| > 0 && (s[0] == '-' || s[0] == '+') then s[1..] else s;
    if |digits| == 0 || !AllDigits(digits) then None
    else
      var magnitude: int := DecimalValue(digits);
      var v := if negative then -magnitude else magnitude;
      if IsI64(v) then Some(v) else None
  }

  /** Digits alone read as their value, when it fits. */
  lemma ParseUnsigned(digits: string)
    requires |digits| > 0 && AllDigits(digits) && IsI64(DecimalValue(digits))
    ensures ParseI64(digits) == Some(DecimalValue(digits))
  {
    assert IsDigit(digits[0]);
  }

  /** Digits after a minus sign read as the negated value, when it fits. */
  lemma ParseNegative(digits: string)
    requires |digits| > 0 && AllDigits(digits) && IsI64(-(DecimalValue(digits) as int))
    ensures ParseI64("-" + digits) == Some(-(DecimalValue(digits) as int))
  {
    assert ("-" + digits)[1..] == digits;
  }

  /** Every 64-bit integer reads back from the text Rust writes for it. */
  lemma ParseI64RoundTrip(n: int)
    requires IsI64(n)
    ensures ParseI64(IntToString(n)) == Some(n)
  {
    if n < 0 {
      var digits := NatToString(-n);
      NatToStringValue(-n);
      ParseNegative(digits);
    } else {
      var digits := NatToString(n);
      NatToStringValue(n);
      ParseUnsigned(digits);
    }
  }

  /** A leading `+` is accepted and changes nothing. */
  lemma ParseI64PlusSign(digits: string)
    requires |digits| > 0 && IsDigit(digits[0])
    ensures ParseI64("+" + digits) == ParseI64(digits)
  {
    assert ("+" + digits)[1..] == digits;
  }

  /** Rust's `str::parse::<bool>`: exactly `true` or `false`. */
  function ParseBool(s: string): (r: Option<bool>)
    ensures r.Some? <==> s == "true" || s == "false"
    ensures r.Some? ==> (r.value <==> s == "true")
  {
    if s == "true" then Some(true) else if s == "false" then Some(false) else None
  }

  // ===========================================================================
  // Coercion
  // ===========================================================================

  /** One argument for one declared parameter. The Python type `filepath`
      wins over the wire type; `number` prefers an integer and falls back to
      the floating-point reading `parseF64`, which is not modelled. */
  function CoerceOne(param: ApiData, arg: string, parseF64: string -> Option<real>): (r: Outcome<PredictionInput>)
    ensures (r.Ok? && r.value.File?) <==> param.pythonType == "filepath"
    ensures r.Ok? && r.value.File? ==> r.value.path == arg
    ensures param.pythonType != "filepath" && param.typeTag == "string" ==> r == Ok(PredictionInput.Value(Str(arg)))
    ensures param.pythonType != "filepath" && param.typeTag == "number" ==>
              (r.Ok? <==> ParseI64(arg).Some? || parseF64(arg).Some?)
    ensures param.pythonType != "filepath" && param.typeTag == "number" && ParseI64(arg).Some? ==>
              r == Ok(PredictionInput.Value(Int(ParseI64(arg).value)))
    ensures param.pythonType != "filepath" && param.typeTag == "number" && ParseI64(arg).None? && parseF64(arg).Some? ==>
              r == Ok(PredictionInput.Value(Float(parseF64(arg).value)))
    ensures param.pythonType != "filepath" && param.typeTag == "number" && r.Err? ==> r.error == InvalidNumber
    ensures param.pythonType != "filepath" && param.typeTag == "boolean" && r.Err? ==> r.error == InvalidBool
    ensures param.pythonType != "filepath" && param.typeTag == "boolean" ==>
              (r.Ok? <==> ParseBool(arg).Some?)
              && (r.Ok? ==> r.value == PredictionInput.Value(Bool(arg == "true")))
    ensures r.Err? && r.error.UnsupportedParameterType? <==>
              param.pythonType != "filepath" && param.typeTag !in {"string", "number", "boolean"}
    ensures r.Err? && r.error.UnsupportedParameterType? ==> r.error.typeTag == param.typeTag
  {
    if param.pythonType == "filepath" then Ok(FromFile(arg))
    else if param.typeTag == "string" then Ok(FromValue(Text(arg)))
    else if param.typeTag == "number" then
      match ParseI64(arg)
      case Some(i) => Ok(FromValue(Integer(i)))
      case None =>
        match parseF64(arg)
        case Some(x) => Ok(FromValue(Double(x)))
        case None => Err(InvalidNumber)
    else if param.typeTag == "boolean" then
      match ParseBool(arg)
      case Some(b) => Ok(FromValue(Boolean(b)))
      case None => Err(InvalidBool)
    else Err(UnsupportedParameterType(param.typeTag))
  }

  /** A number parameter given the decimal text of a 64-bit integer receives
      that integer. */
  lemma IntegerArgumentsStayIntegers(param: ApiData, n: int, parseF64: string -> Option<real>)
    requires param.pythonType != "filepath" && param.typeTag == "number" && IsI64(n)
    ensures CoerceOne(param, IntToString(n), parseF64) == Ok(PredictionInput.Value(Int(n)))
  {
    ParseI64RoundTrip(n);
  }

  /** `k` is the first parameter that has no argument or whose argument does
      not coerce, counting from `i`. */
  ghost predicate FirstBadParameter(params: seq<ApiData>, options: seq<string>, parseF64: string -> Option<real>, i: nat, k: int) {
    i <= k < |params|
    && (k >= |options| || CoerceOne(params[k], options[k], parseF64).Err?)
    && forall j :: i <= j < k ==> j < |options| && CoerceOne(params[j], options[j], parseF64).Ok?
  }

  /** The failure the first bad parameter reports. */
  function BadParameterFailure(params: seq<ApiData>, options: seq<string>, parseF64: string -> Option<real>, k: nat): Failure
    requires k < |params|
  {
    if k >= |options| then MissingParameter(|params|, |options|)
    else match CoerceOne(params[k], options[k], parseF64)
      case Err(f) => f
      case Ok(_) => MissingReturnValue
  }

  /** Every parameter from `i` on has an argument, and it coerces. */
  predicate ArgumentsCoerce(params: seq<ApiData>, options: seq<string>, parseF64: string -> Option<real>, i: nat) {
    |params| <= i
    || (|params| <= |options| && forall k :: i <= k < |params| ==> CoerceOne(params[k], options[k], parseF64).Ok?)
  }

  /** Coercibility from `i` is coercibility of parameter `i` and of the rest. */
  lemma ArgumentsCoerceStep(params: seq<ApiData>, options: seq<string>, parseF64: string -> Option<real>, i: nat)
    requires i < |params|
    ensures ArgumentsCoerce(params, options, parseF64, i)
        <==> i < |options| && CoerceOne(params[i], options[i], parseF64).Ok? && ArgumentsCoerce(params, options, parseF64, i + 1)
  {
  }

  /** Coerce the arguments of parameters `i` onwards, in order. */
  function CoerceFrom(params: seq<ApiData>, options: seq<string>, parseF64: string -> Option<real>, i: nat): (r: Outcome<seq<PredictionInput>>)
    requires i <= |params|
    ensures r.Ok? <==> ArgumentsCoerce(params, options, parseF64, i)
    ensures r.Ok? ==> |r.value| == |params| - i
    ensures i < |params| && |options| < |params| ==> r.Err?
    ensures r.Ok? ==> forall k :: i <= k < |params| ==> CoerceOne(params[k], options[k], parseF64) == Ok(r.value[k - i])
    decreases |params| - i
  {
    if i == |params| then Ok([])
    else if i >= |options| then
      ArgumentsCoerceStep(params, options, parseF64, i);
      Err(MissingParameter(|params|, |options|))
    else match CoerceOne(params[i], options[i], parseF64)
      case Err(f) =>
        ArgumentsCoerceStep(params, options, parseF64, i);
        Err(f)
      case Ok(x) =>
        var rest := CoerceFrom(params, options, parseF64, i + 1);
        ArgumentsCoerceStep(params, options, parseF64, i);
        if rest.Err? then
          Err(rest.error)
        else Ok([x] + rest.value)
  }

  /** A failed coercion reports the first bad parameter: its missing argument
      or its argument's coercion failure. */
  lemma {:induction false} CoerceReportsFirstBadParameter(params: seq<ApiData>, options: seq<string>,
                                                         parseF64: string -> Option<real>, i: nat)
    requires i <= |params|
    requires CoerceFrom(params, options, parseF64, i).Err?
    ensures exists k :: FirstBadParameter(params, options, parseF64, i, k)
                        && CoerceFrom(params, options, parseF64, i).error == BadParameterFailure(params, options, parseF64, k)
    decreases |params| - i
  {
    if i >= |options| || CoerceOne(params[i], options[i], parseF64).Err? {
      assert FirstBadParameter(params, options, parseF64, i, i);
    } else {
      CoerceReportsFirstBadParameter(params, options, parseF64, i + 1);
      var k :| FirstBadParameter(params, options, parseF64, i + 1, k)
               && CoerceFrom(params, options, parseF64, i + 1).error == BadParameterFailure(params, options, parseF64, k);
      assert FirstBadParameter(params, options, parseF64, i, k);
    }
  }

  /** The loop of `run`: one input per declared parameter, in order; missing
      arguments fail, extra ones are never looked at. */
  function Coerce(params: seq<ApiData>, options: seq<string>, parseF64: string -> Option<real>): (r: Outcome<seq<PredictionInput>>)
    ensures r.Ok? ==> |r.value| == |params|
    ensures r.Ok? <==> |options| >= |params| && forall k :: 0 <= k < |params| ==> CoerceOne(params[k], options[k], parseF64).Ok?
    ensures r.Ok? ==> forall k :: 0 <= k < |params| ==> k < |options| && CoerceOne(params[k], options[k], parseF64) == Ok(r.value[k])
  {
    CoerceFrom(params, options, parseF64, 0)
  }

  /** Arguments beyond the declared parameters change nothing. */
  lemma {:induction false} ExtraArgumentsIgnored(params: seq<ApiData>, options: seq<string>, extra: seq<string>,
                                                parseF64: string -> Option<real>, i: nat)
    requires i <= |params| <= |options|
    ensures CoerceFrom(params, options + extra, parseF64, i) == CoerceFrom(params, options, parseF64, i)
    decreases |params| - i
  {
    if i < |params| {
      assert (options + extra)[i] == options[i];
      ExtraArgumentsIgnored(params, options, extra, parseF64, i + 1);
    }
  }

  // ===========================================================================
  // Naming outputs
  // ===========================================================================

  /** The label, else the parameter name, else `unnamed`. */
  function DisplayName(d: ApiData): (r: string)
    ensures d.labelText.Some? ==> r == d.labelText.value
    ensures d.labelText.None? && d.parameterName.Some? ==> r == d.parameterName.value
    ensures d.labelText.None? && d.parameterName.None? ==> r == "unnamed"
  {
    match (d.labelText, d.parameterName)
    case (Some(l), _) => l
    case (None, Some(n)) => n
    case (None, None) => "unnamed"
  }

  /** Pair every declared return with its output, in order; an output missing
      for a declared return fails, surplus outputs are not shown. */
  function NameOutputs(results: seq<ApiData>, outputs: seq<PredictionOutput>): (r: Outcome<seq<(string, PredictionOutput)>>)
    ensures r.Ok? <==> |outputs| >= |results|
    ensures r.Ok? ==> |r.value| == |results|
    ensures r.Ok? ==> forall i :: 0 <= i < |results| ==> r.value[i] == (DisplayName(results[i]), outputs[i])
    ensures r.Err? ==> r.error == MissingReturnValue
  {
    if |outputs| < |results| then Err(MissingReturnValue)
    else Ok(seq(|results|, i requires 0 <= i < |results| => (DisplayName(results[i]), outputs[i])))
  }
}
