/** `KitooCoreError` and its field defaulting (errors.js). */
module Errors {
  import opened Wrappers

  /** Error codes of the transport layer that the core distinguishes. */
  datatype CauseCode = NodeNotFound | OtherCode(name: string)

  /** An error object as the core sees it: an optional `code` and an optional `message`.
      A plain `{}` is `Cause(None, None)`. */
  datatype Cause = Cause(code: Option<CauseCode>, message: Option<string>)

  const EmptyObject: Cause := Cause(None, None)

  /** `KitooCoreErrorCodes.NO_ONLINE_ROUTER`. */
  const NO_ONLINE_ROUTER: int := 0

  /** The constructor's destructured argument; every field may be absent. */
  datatype ErrorArgs = ErrorArgs(
    serviceName: Option<string>,
    serviceId: Option<string>,
    code: Option<int>,
    error: Option<Cause>,
    message: Option<string>,
    description: Option<string>)

  /** `new KitooCoreError()` with no argument. */
  const NoArgs: ErrorArgs := ErrorArgs(None, None, None, None, None, None)

  datatype KitooCoreError = KitooCoreError(
    serviceId: Option<string>,
    serviceName: Option<string>,
    code: Option<int>,
    error: Cause,
    message: Option<string>,
    description: Option<string>)

  /** The value of `c0 || c1 || ... || cn`: the first truthy candidate, else the last one. */
  function FirstTruthy(candidates: seq<Option<string>>): Option<string>
    requires |candidates| > 0
  {
    if |candidates| == 1 || Truthy(candidates[0]) then candidates[0]
    else FirstTruthy(candidates[1..])
  }

  /** `||` yields the first truthy candidate. */
  lemma {:induction false} FirstTruthyIsFirst(candidates: seq<Option<string>>, k: nat)
    requires k < |candidates| && Truthy(candidates[k])
    requires forall j :: 0 <= j < k ==> !Truthy(candidates[j])
    ensures FirstTruthy(candidates) == candidates[k]
  {
    if k > 0 {
      FirstTruthyIsFirst(candidates[1..], k - 1);
    }
  }

  /** With no truthy candidate, `||` yields the last one. */
  lemma {:induction false} FirstTruthyFallsThrough(candidates: seq<Option<string>>)
    requires |candidates| > 0
    requires forall j :: 0 <= j < |candidates| ==> !Truthy(candidates[j])
    ensures FirstTruthy(candidates) == candidates[|candidates| - 1]
  {
    if |candidates| > 1 {
      FirstTruthyFallsThrough(candidates[1..]);
    }
  }

  /** The constructor: `error` defaults to `{}`, `message` to `error.message`,
      `description` to the resolved message; the other fields are stored as passed. */
  function NewKitooCoreError(args: ErrorArgs): (e: KitooCoreError)
    ensures e.error == if args.error.Some? then args.error.value else EmptyObject
    ensures e.message == FirstTruthy([args.message, e.error.message])
    ensures e.description == FirstTruthy([args.description, args.message, e.error.message])
    ensures e.serviceId == args.serviceId && e.serviceName == args.serviceName && e.code == args.code
  {
    var error := if args.error.Some? then args.error.value else EmptyObject;
    var message := Or(args.message, error.message);
    var description := Or(args.description, message);
    KitooCoreError(args.serviceId, args.serviceName, args.code, error, message, description)
  }

  /** The description defaults to the message as resolved, not to the message as passed. */
  lemma DescriptionFollowsMessage(args: ErrorArgs)
    ensures NewKitooCoreError(args).description == Or(args.description, NewKitooCoreError(args).message)
  {
  }
}
