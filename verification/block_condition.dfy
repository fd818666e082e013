/**
 * The queue-blocking condition "block while a given job is building",
 * optionally refined by a set of (name, value) string parameters that the
 * queued item must carry for the block to apply.
 *
 * The host's item registry is an explicit `lookup` function from a full job
 * name to what the registry holds under that name; the queued item's
 * ParametersAction is an optional list of parameter values.
 */
module BlockCondition {
  import opened Wrappers

  /** A StringParameterValue: a build parameter holding a string. */
  datatype StringParam = StringParam(name: string, value: string)

  /**
   * A parameter value attached to a queued item. Java's equality on parameter
   * values requires the same runtime class, so only a plain string parameter
   * can equal a blocking parameter; `OtherValue` stands for every other class
   * (boolean, file, text, ...), whatever it shows as its value.
   */
  datatype ParamValue =
    | StringValue(param: StringParam)
    | OtherValue(name: string, shown: string)

  /** What the registry returns for a name: nothing, an item that is not a job, or a job. */
  datatype Resolution =
    | NotFound
    | NotAJob
    | Job(fullName: string, isBuilding: bool)

  /** The configured condition; both fields are fixed once it is built. */
  datatype Condition = Condition(jobName: string, blockingParams: seq<StringParam>)

  /** The constructor: a missing (null) parameter list becomes the empty list. */
  function NewCondition(jobName: string, blockingParams: Option<seq<StringParam>>): (c: Condition)
    ensures c.jobName == jobName
    ensures blockingParams.Some? ==> c.blockingParams == blockingParams.value
    ensures blockingParams.None? ==> c.blockingParams == []
  {
    Condition(jobName, if blockingParams.Some? then blockingParams.value else [])
  }

  /** The item's parameter list: that of its ParametersAction, or empty when it has none. */
  function ParametersOf(action: Option<seq<ParamValue>>): seq<ParamValue>
  {
    if action.Some? then action.value else []
  }

  /**
   * List.containsAll: every wanted parameter is equal to some entry of `list`,
   * checked in order. A list that contains a wanted parameter is not empty,
   * so once a blocking pair is configured containsAll implies the
   * `!paramsList.isEmpty()` test.
   */
  function ContainsAll(list: seq<ParamValue>, wanted: seq<StringParam>): (r: bool)
    ensures r && |wanted| > 0 ==> |list| > 0
  {
    |wanted| == 0 || (StringValue(wanted[0]) in list && ContainsAll(list, wanted[1..]))
  }

  /** The (name, value) pairs a condition requires, as a set. */
  ghost function Required(blocking: seq<StringParam>): set<StringParam>
  {
    set b | b in blocking
  }

  /** The (name, value) pairs an item offers through its string parameters, as a set. */
  ghost function Offered(list: seq<ParamValue>): set<StringParam>
  {
    set v | v in list && v.StringValue? :: v.param
  }

  lemma OfferedMember(list: seq<ParamValue>, p: StringParam)
    ensures p in Offered(list) <==> StringValue(p) in list
  {
  }

  /** containsAll is set inclusion of the required pairs in the offered ones. */
  lemma {:induction false} ContainsAllIsInclusion(list: seq<ParamValue>, wanted: seq<StringParam>)
    ensures ContainsAll(list, wanted) <==> Required(wanted) <= Offered(list)
  {
    if |wanted| > 0 {
      ContainsAllIsInclusion(list, wanted[1..]);
      assert Required(wanted) == {wanted[0]} + Required(wanted[1..]) by {
        assert wanted == [wanted[0]] + wanted[1..];
      }
      OfferedMember(list, wanted[0]);
    } else {
      assert Required(wanted) == {};
    }
  }

  /**
   * The blocking rule stated on sets: the target is a job that is building,
   * and every required pair is offered by the item. With no blocking
   * parameters the second part holds of every item.
   */
  ghost predicate ShouldBlock(target: Resolution, blocking: seq<StringParam>, params: seq<ParamValue>)
  {
    target.Job? && target.isBuilding && Required(blocking) <= Offered(params)
  }

  /**
   * isBlocked: the cause of blockage as its short description, or None when
   * the item may proceed.
   */
  function IsBlocked(c: Condition, lookup: string -> Resolution, action: Option<seq<ParamValue>>): (blocked: Option<string>)
    ensures blocked.Some? <==> ShouldBlock(lookup(c.jobName), c.blockingParams, ParametersOf(action))
    ensures blocked.Some? && |c.blockingParams| == 0 ==>
              blocked.value == "Job " + lookup(c.jobName).fullName + " is currently building."
    ensures blocked.Some? && |c.blockingParams| > 0 ==>
              blocked.value == "Job " + lookup(c.jobName).fullName + " is currently building and params are matched"
  {
    var target := lookup(c.jobName);
    if target.Job? && target.isBuilding then
      if |c.blockingParams| == 0 then
        assert Required(c.blockingParams) == {};
        Some("Job " + target.fullName + " is currently building.")
      else
        var paramsList := ParametersOf(action);
        ContainsAllIsInclusion(paramsList, c.blockingParams);
        assert c.blockingParams[0] in Required(c.blockingParams);
        assert |paramsList| == 0 ==> Offered(paramsList) == {};
        if |paramsList| > 0 && ContainsAll(paramsList, c.blockingParams) then
          Some("Job " + target.fullName + " is currently building and params are matched")
        else
          None
    else
      None
  }

  /** Fail-open: a target that is missing, not a job, or idle never blocks, whatever the item carries. */
  lemma FailOpen(c: Condition, lookup: string -> Resolution, action: Option<seq<ParamValue>>)
    requires !(lookup(c.jobName).Job? && lookup(c.jobName).isBuilding)
    ensures IsBlocked(c, lookup, action) == None
  {
  }

  /** With no blocking parameters a building target blocks every item. */
  lemma BlocksAllWithoutParams(c: Condition, lookup: string -> Resolution, action: Option<seq<ParamValue>>)
    requires lookup(c.jobName).Job? && lookup(c.jobName).isBuilding
    requires c.blockingParams == []
    ensures IsBlocked(c, lookup, action) == Some("Job " + lookup(c.jobName).fullName + " is currently building.")
  {
  }

  /**
   * With blocking parameters a building target blocks exactly the items whose
   * parameter list is non-empty and holds every blocking pair as a string parameter.
   */
  lemma {:induction false} BlocksExactlyOnMatch(c: Condition, lookup: string -> Resolution, action: Option<seq<ParamValue>>)
    requires lookup(c.jobName).Job? && lookup(c.jobName).isBuilding
    requires |c.blockingParams| > 0
    ensures IsBlocked(c, lookup, action).Some? <==>
              |ParametersOf(action)| > 0 &&
              forall b :: b in c.blockingParams ==> StringValue(b) in ParametersOf(action)
    ensures IsBlocked(c, lookup, action).Some? ==>
              IsBlocked(c, lookup, action).value ==
                "Job " + lookup(c.jobName).fullName + " is currently building and params are matched"
  {
    var params := ParametersOf(action);
    ContainsAllIsInclusion(params, c.blockingParams);
    ContainsAllPointwise(params, c.blockingParams);
  }

  /** containsAll, stated element by element. */
  lemma {:induction false} ContainsAllPointwise(list: seq<ParamValue>, wanted: seq<StringParam>)
    ensures ContainsAll(list, wanted) <==> forall b :: b in wanted ==> StringValue(b) in list
  {
    if |wanted| > 0 {
      ContainsAllPointwise(list, wanted[1..]);
      assert wanted == [wanted[0]] + wanted[1..];
    }
  }

  /** An item without a ParametersAction is never blocked once blocking parameters are configured. */
  lemma NoParametersNeverBlocked(c: Condition, lookup: string -> Resolution)
    requires |c.blockingParams| > 0
    ensures IsBlocked(c, lookup, None) == None
  {
  }

  /**
   * Monotonicity: an item that carries at least the parameters of a blocked
   * item is blocked too.
   */
  lemma MoreParamsStayBlocked(c: Condition, lookup: string -> Resolution, params: seq<ParamValue>, more: seq<ParamValue>)
    requires forall v :: v in params ==> v in more
    requires IsBlocked(c, lookup, Some(params)).Some?
    ensures IsBlocked(c, lookup, Some(more)).Some?
  {
  }

  /** Appending parameters to a blocked item keeps it blocked. */
  lemma ExtraParamsStayBlocked(c: Condition, lookup: string -> Resolution, params: seq<ParamValue>, extra: seq<ParamValue>)
    requires IsBlocked(c, lookup, Some(params)).Some?
    ensures IsBlocked(c, lookup, Some(params + extra)).Some?
  {
  }

  /**
   * Appended parameters turn an unblocked item into a blocked one only by
   * supplying a blocking pair the item lacked.
   */
  lemma BlockingNeedsSuppliedPair(c: Condition, lookup: string -> Resolution, params: seq<ParamValue>, extra: seq<ParamValue>)
    requires IsBlocked(c, lookup, Some(params)).None?
    requires IsBlocked(c, lookup, Some(params + extra)).Some?
    ensures exists b :: b in c.blockingParams && StringValue(b) !in params && StringValue(b) in extra
  {
  }

  /** A parameter of another class with the same name and value does not satisfy a blocking pair. */
  lemma OnlyStringParamsMatch(c: Condition, lookup: string -> Resolution, name: string, value: string)
    requires lookup(c.jobName).Job? && lookup(c.jobName).isBuilding
    requires c.blockingParams == [StringParam(name, value)]
    ensures IsBlocked(c, lookup, Some([OtherValue(name, value)])) == None
    ensures IsBlocked(c, lookup, Some([StringValue(StringParam(name, value))])).Some?
  {
  }
}
