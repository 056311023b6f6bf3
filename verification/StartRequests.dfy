/** The options of a start request, and the id reuse policy that they amount to. */
module StartRequests {
  import opened GoTypes

  /** The newer policy field; an unknown value cannot be converted. */
  datatype IdReusePolicy =
    | AllowIfNoRunning
    | AllowIfPreviousExitsAbnormally
    | DisallowReuse
    | AllowTerminateIfRunning
    | InvalidIdReusePolicy(name: string)

  /** The policy of the backends, and the older field. */
  datatype ReusePolicy =
    | AllowDuplicate
    | AllowDuplicateFailedOnly
    | RejectDuplicate
    | TerminateIfRunning
    | UnsupportedPolicy(name: string)

  datatype AlreadyStartedOptions = AlreadyStartedOptions(ignoreAlreadyStartedError: bool, requestId: Option<string>)

  datatype StartOptions = StartOptions(
    useMemoForDataAttributes: bool,
    dataAttributes: seq<KeyValue>,
    idReusePolicy: Option<IdReusePolicy>,
    workflowIdReusePolicy: Option<ReusePolicy>,
    cronSchedule: Option<string>,
    alreadyStarted: Option<AlreadyStartedOptions>)

  const NO_OPTIONS := StartOptions(false, [], None, None, None, None)

  function RequestId(options: Option<StartOptions>): Option<string> {
    if options.Some? && options.value.alreadyStarted.Some? then options.value.alreadyStarted.value.requestId else None
  }

  datatype Conversion = Converted(policy: Option<ReusePolicy>) | ConversionPanics

  function GetWorkflowIdReusePolicy(options: StartOptions): Conversion {
    match options.idReusePolicy
    case None => Converted(options.workflowIdReusePolicy)
    case Some(AllowIfNoRunning) => Converted(Some(AllowDuplicate))
    case Some(AllowIfPreviousExitsAbnormally) => Converted(Some(AllowDuplicateFailedOnly))
    case Some(DisallowReuse) => Converted(Some(RejectDuplicate))
    case Some(AllowTerminateIfRunning) => Converted(Some(TerminateIfRunning))
    case Some(InvalidIdReusePolicy(_)) => ConversionPanics
  }

  /** Without options no policy is sent. */
  function PolicyOf(options: Option<StartOptions>): Conversion {
    if options.None? then Converted(None) else GetWorkflowIdReusePolicy(options.value)
  }

  /** The policy field that counts is the newer one, if it is there. */
  predicate Asks(options: Option<StartOptions>, newer: IdReusePolicy, older: ReusePolicy) {
    options.Some? && if options.value.idReusePolicy.Some? then options.value.idReusePolicy.value == newer
                     else options.value.workflowIdReusePolicy == Some(older)
  }

  /** Which of the two policy fields leads to which policy; an open run is terminated on request only. */
  lemma {:induction false} PolicyOfFields(options: Option<StartOptions>, newer: IdReusePolicy, older: ReusePolicy)
    ensures PolicyOf(options).ConversionPanics? <==>
              options.Some? && options.value.idReusePolicy.Some? &&
              options.value.idReusePolicy.value.InvalidIdReusePolicy?
    ensures || (newer.AllowTerminateIfRunning? && older.TerminateIfRunning?)
            || (newer.AllowIfNoRunning? && older.AllowDuplicate?)
            || (newer.AllowIfPreviousExitsAbnormally? && older.AllowDuplicateFailedOnly?)
            || (newer.DisallowReuse? && older.RejectDuplicate?) ==>
              (PolicyOf(options) == Converted(Some(older)) <==> Asks(options, newer, older))
    ensures PolicyOf(options) == Converted(None) <==>
              || options.None?
              || (options.value.idReusePolicy.None? && options.value.workflowIdReusePolicy.None?)
    ensures older.UnsupportedPolicy? ==>
              (PolicyOf(options) == Converted(Some(older)) <==>
                 && options.Some? && options.value.idReusePolicy.None?
                 && options.value.workflowIdReusePolicy == Some(older))
  {
  }
}
