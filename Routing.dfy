/**
 * Which protocol variant a service uses, and `AbstractService::__call`'s choice of the
 * method that actually runs. Reflection (`method_exists`, the class name) becomes data:
 * the set of method names a service class declares and its called class name.
 */
module Routing {
  import opened Wrappers
  import opened PhpValues
  import opened Errors

  /** The PostNL client's mode; only the REST mode is told apart by the service. */
  datatype ApiMode = RestMode | SoapMode | OtherMode

  /** The REST-only service families (`ShippingServiceInterface`,
      `ShippingStatusServiceInterface`) and every other service. */
  datatype ServiceKind = ShippingService | ShippingStatusService | OtherService

  /** What reflection tells about a concrete service class. */
  datatype ServiceInfo = ServiceInfo(calledClass: string, shortName: string, kind: ServiceKind)

  /** REST is used in REST mode, and always by the shipping and shipping-status services. */
  predicate UsesRest(mode: ApiMode, kind: ServiceKind) {
    mode == RestMode || kind == ShippingService || kind == ShippingStatusService
  }

  /** The protocol suffix of a method variant. */
  function MethodSuffix(rest: bool): string {
    if rest then "Rest" else "Soap"
  }

  /** `method_exists`: PHP method names are matched without regard to ASCII case. */
  predicate HasMethod(methods: set<string>, name: string) {
    exists m :: m in methods && LowerAscii(m) == LowerAscii(name)
  }

  /** `__call($name, ...)`: the name of the method it forwards to, or InvalidMethodException. */
  function ResolveMethod(name: string, rest: bool, methods: set<string>, calledClass: string): (r: Result<string, ServiceError>)
    ensures r.Success? ==> HasMethod(methods, r.value)
    ensures r.Success? ==> r.value == name + MethodSuffix(rest) || r.value == name
    ensures HasMethod(methods, name + MethodSuffix(rest)) ==> r == Success(name + MethodSuffix(rest))
    ensures r.Failure? <==> !HasMethod(methods, name + MethodSuffix(rest)) && !HasMethod(methods, name)
    ensures r.Failure? ==> r.error == InvalidMethod("`" + calledClass + "::" + name + "` is not a valid method")
  {
    var variant := name + MethodSuffix(rest);
    if HasMethod(methods, variant) then Success(variant)
    else if HasMethod(methods, name) then Success(name)
    else Failure(InvalidMethod("`" + calledClass + "::" + name + "` is not a valid method"))
  }

  /** A REST-only service never reaches a `Soap` variant, whatever the client's mode. */
  lemma RestOnlyServicesNeverUseSoap(name: string, mode: ApiMode, kind: ServiceKind, methods: set<string>, calledClass: string)
    requires kind == ShippingService || kind == ShippingStatusService
    ensures var r := ResolveMethod(name, UsesRest(mode, kind), methods, calledClass);
      r.Success? ==> r.value != name + "Soap"
  {
    assert (name + "Rest")[|name|] != (name + "Soap")[|name|];
    assert |name + "Soap"| != |name|;
  }

  /** A method declared only without a protocol suffix is reached in every mode. */
  lemma PlainMethodServesBothModes(name: string, methods: set<string>, calledClass: string)
    requires HasMethod(methods, name)
    requires !HasMethod(methods, name + "Rest") && !HasMethod(methods, name + "Soap")
    ensures ResolveMethod(name, true, methods, calledClass) == Success(name)
    ensures ResolveMethod(name, false, methods, calledClass) == Success(name)
  {
  }
}
