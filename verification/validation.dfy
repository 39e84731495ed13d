/** `ValidationFilter`: the endpoint filter that runs the registered
    validators of a handler's `[Validate]` parameters before the handler.
    Reflection is replaced by the handler's parameter list and the service
    registry by a map from parameter type to validator. */
module ValidationFilter {
  import opened Wrappers
  import opened TodoModels

  /** A handler parameter: its declared type and whether it carries `[Validate]`. */
  datatype Parameter = Parameter(parameterType: string, hasValidateAttribute: bool)

  /** A validator for arguments of type `T`: the failures it reports. */
  type Validator<!T> = T -> seq<ValidationFailure>

  /** `ValidationDescriptor`. */
  datatype Descriptor<!T> = Descriptor(argumentIndex: nat, argumentType: string, validator: Validator<T>)

  /** Whether a parameter gets a descriptor. */
  predicate Validated<T>(p: Parameter, services: map<string, Validator<T>>) {
    p.hasValidateAttribute && p.parameterType in services
  }

  /** A descriptor describes its parameter and that parameter's registered validator. */
  ghost predicate Describes<T>(d: Descriptor<T>, parameters: seq<Parameter>, services: map<string, Validator<T>>) {
    && d.argumentIndex < |parameters|
    && Validated(parameters[d.argumentIndex], services)
    && d.argumentType == parameters[d.argumentIndex].parameterType
    && d.validator == services[d.argumentType]
  }

  /** `GetValidators`: one descriptor per validated parameter, in parameter order. */
  method GetValidators<T>(parameters: seq<Parameter>, services: map<string, Validator<T>>)
    returns (descriptors: seq<Descriptor<T>>)
    ensures forall k :: 0 <= k < |descriptors| ==> Describes(descriptors[k], parameters, services)
    ensures forall j, k :: 0 <= j < k < |descriptors| ==> descriptors[j].argumentIndex < descriptors[k].argumentIndex
    ensures forall i :: 0 <= i < |parameters| && Validated(parameters[i], services) ==>
      exists k :: 0 <= k < |descriptors| && descriptors[k].argumentIndex == i
  {
    descriptors := [];
    for i := 0 to |parameters|
      invariant forall k :: 0 <= k < |descriptors| ==>
        Describes(descriptors[k], parameters, services) && descriptors[k].argumentIndex < i
      invariant forall j, k :: 0 <= j < k < |descriptors| ==> descriptors[j].argumentIndex < descriptors[k].argumentIndex
      invariant forall i' :: 0 <= i' < i && Validated(parameters[i'], services) ==>
        exists k :: 0 <= k < |descriptors| && descriptors[k].argumentIndex == i'
    {
      var p := parameters[i];
      if p.hasValidateAttribute && p.parameterType in services {
        var before := descriptors;
        descriptors := descriptors + [Descriptor(i, p.parameterType, services[p.parameterType])];
        forall i' | 0 <= i' <= i && Validated(parameters[i'], services)
          ensures exists k :: 0 <= k < |descriptors| && descriptors[k].argumentIndex == i'
        {
          if i' == i {
            assert descriptors[|before|].argumentIndex == i';
          } else {
            var k :| 0 <= k < |before| && before[k].argumentIndex == i';
            assert descriptors[k].argumentIndex == i';
          }
        }
      }
    }
  }

  /** What the factory installs: the handler itself, or the validating filter. */
  datatype EndpointFilter<!T> = PassThrough | Validating(descriptors: seq<Descriptor<T>>)

  /** `ValidationFilterFactory`: without descriptors the handler runs unfiltered. */
  method ValidationFilterFactory<T>(parameters: seq<Parameter>, services: map<string, Validator<T>>)
    returns (filter: EndpointFilter<T>)
    ensures filter.PassThrough? <==> forall i :: 0 <= i < |parameters| ==> !Validated(parameters[i], services)
    ensures filter.Validating? ==>
      && |filter.descriptors| > 0
      && forall k :: 0 <= k < |filter.descriptors| ==> Describes(filter.descriptors[k], parameters, services)
  {
    var descriptors := GetValidators(parameters, services);
    if |descriptors| > 0 {
      assert Validated(parameters[descriptors[0].argumentIndex], services);
      filter := Validating(descriptors);
    } else {
      filter := PassThrough;
    }
  }

  /** The response of a filtered invocation: a validation problem, or what
      the handler returned. */
  datatype Outcome<R> = ValidationProblem(failures: seq<ValidationFailure>) | HandlerResult(result: R)

  /** A descriptor rejects the invocation: its argument is present and its
      validator reports a failure. */
  ghost predicate Rejects<T>(d: Descriptor<T>, arguments: seq<Option<T>>) {
    d.argumentIndex < |arguments| && arguments[d.argumentIndex].Some? &&
    d.validator(arguments[d.argumentIndex].value) != []
  }

  /** `Validate`: check the descriptors in order, skipping null arguments;
      the first rejection answers with its failures and the handler does not
      run; otherwise the handler runs once on the same arguments. `calls`
      records every invocation of the handler. */
  method Validate<T, R>(descriptors: seq<Descriptor<T>>, arguments: seq<Option<T>>, next: seq<Option<T>> -> R)
    returns (outcome: Outcome<R>, calls: seq<seq<Option<T>>>)
    requires forall k :: 0 <= k < |descriptors| ==> descriptors[k].argumentIndex < |arguments|
    ensures outcome.ValidationProblem? <==> exists k :: 0 <= k < |descriptors| && Rejects(descriptors[k], arguments)
    ensures outcome.ValidationProblem? ==>
      && calls == []
      && exists k :: 0 <= k < |descriptors| && Rejects(descriptors[k], arguments)
           && (forall j :: 0 <= j < k ==> !Rejects(descriptors[j], arguments))
           && outcome.failures == descriptors[k].validator(arguments[descriptors[k].argumentIndex].value)
    ensures outcome.HandlerResult? ==> calls == [arguments] && outcome.result == next(arguments)
  {
    calls := [];
    for k := 0 to |descriptors|
      invariant forall j :: 0 <= j < k ==> !Rejects(descriptors[j], arguments)
    {
      var d := descriptors[k];
      var argument := arguments[d.argumentIndex];
      if argument.Some? {
        var failures := d.validator(argument.value);
        if failures != [] {
          return ValidationProblem(failures), calls;
        }
      }
    }
    calls := calls + [arguments];
    outcome := HandlerResult(next(arguments));
  }

  /** A filtered invocation: the installed filter, then the handler. */
  method Invoke<T, R>(filter: EndpointFilter<T>, arguments: seq<Option<T>>, next: seq<Option<T>> -> R)
    returns (outcome: Outcome<R>, calls: seq<seq<Option<T>>>)
    requires filter.Validating? ==>
      forall k :: 0 <= k < |filter.descriptors| ==> filter.descriptors[k].argumentIndex < |arguments|
    ensures filter.PassThrough? ==> outcome == HandlerResult(next(arguments)) && calls == [arguments]
    ensures filter.Validating? ==>
      (outcome.ValidationProblem? <==>
         exists k :: 0 <= k < |filter.descriptors| && Rejects(filter.descriptors[k], arguments))
    ensures outcome.HandlerResult? ==> calls == [arguments] && outcome.result == next(arguments)
    ensures outcome.ValidationProblem? ==> calls == []
  {
    match filter
    case PassThrough =>
      outcome, calls := HandlerResult(next(arguments)), [arguments];
    case Validating(descriptors) =>
      outcome, calls := Validate(descriptors, arguments, next);
  }
}
