/**
 * The condition's descriptor: validation of the job-name form field and the
 * construction of a condition from the submitted form.
 *
 * The submitted JSON is modelled by its shapes only: the "blockingParams"
 * field under "defineBlockingParams" may be absent (or neither an object nor
 * an array), a single object, or an array of objects.
 */
module BlockConditionDescriptor {
  import opened Wrappers
  import opened StringUtils
  import opened BlockCondition

  /** FormValidation: ok, or an error with its message. */
  datatype FormValidation = Ok | Error(message: string)

  /** One {"name": ..., "value": ...} object of the blocking parameter list. */
  datatype ParamEntry = ParamEntry(name: string, value: string)

  /** The three shapes the "blockingParams" field can take. */
  datatype BlockingParamsField =
    | Absent
    | Single(entry: ParamEntry)
    | Many(entries: seq<ParamEntry>)

  /** The "defineBlockingParams" object. */
  datatype DefineBlockingParams = DefineBlockingParams(blockingParams: BlockingParamsField)

  /** The submitted form: the job name and the optional (null when unchecked) "defineBlockingParams" object. */
  datatype Form = Form(jobName: string, defineBlockingParams: Option<DefineBlockingParams>)

  /**
   * doCheckJobName: a blank name is an error, a name the registry does not
   * know is an error naming it, and any other name is accepted, including
   * one that names an item which is not a job.
   */
  function CheckJobName(jobName: string, lookup: string -> Resolution): (v: FormValidation)
    ensures v.Ok? <==> IsNotBlank(jobName) && !lookup(jobName).NotFound?
    ensures IsBlank(jobName) ==> v == Error("Job must be specified")
    ensures IsNotBlank(jobName) && lookup(jobName).NotFound? ==> v == Error("Job: '" + jobName + "' not found")
  {
    if IsBlank(jobName) then
      Error("Job must be specified")
    else if lookup(jobName) == NotFound then
      Error("Job: '" + jobName + "' not found")
    else
      Ok
  }

  /** A condition that blocks an item names, if not blank, a job name the validation accepts. */
  lemma BlockingNameIsAccepted(c: Condition, lookup: string -> Resolution, action: Option<seq<ParamValue>>)
    requires IsBlocked(c, lookup, action).Some?
    requires IsNotBlank(c.jobName)
    ensures CheckJobName(c.jobName, lookup) == Ok
  {
  }

  /**
   * The converse fails: the validation accepts the name of an item that is
   * not a job, and a condition on that name never blocks.
   */
  lemma AcceptedNameMayNeverBlock(jobName: string, lookup: string -> Resolution, blocking: seq<StringParam>, action: Option<seq<ParamValue>>)
    requires IsNotBlank(jobName) && lookup(jobName) == NotAJob
    ensures CheckJobName(jobName, lookup) == Ok
    ensures IsBlocked(Condition(jobName, blocking), lookup, action) == None
  {
  }

  /** getBlockingParamsArray: the field normalized to an array. */
  function BlockingParamsArray(define: DefineBlockingParams): (entries: seq<ParamEntry>)
    ensures define.blockingParams.Absent? ==> entries == []
    ensures define.blockingParams.Single? ==> entries == [define.blockingParams.entry]
    ensures define.blockingParams.Many? ==> entries == define.blockingParams.entries
  {
    match define.blockingParams
    case Absent => []
    case Single(entry) => [entry]
    case Many(entries) => entries
  }

  /** The test of checkAndAddBlockingParam: a non-blank name and a non-empty value. */
  predicate Accepted(entry: ParamEntry)
  {
    IsNotBlank(entry.name) && IsNotEmpty(entry.value)
  }

  function ToParam(entry: ParamEntry): StringParam
  {
    StringParam(entry.name, entry.value)
  }

  /** The blocking parameters a list of entries yields: the accepted ones, in order. */
  function Kept(entries: seq<ParamEntry>): (kept: seq<StringParam>)
    ensures |kept| <= |entries|
  {
    if entries == [] then []
    else (if Accepted(entries[0]) then [ToParam(entries[0])] else []) + Kept(entries[1..])
  }

  /** Keeping distributes over concatenation, so the input order is preserved. */
  lemma {:induction false} KeptAppend(a: seq<ParamEntry>, b: seq<ParamEntry>)
    ensures Kept(a + b) == Kept(a) + Kept(b)
  {
    if a != [] {
      assert (a + b)[0] == a[0];
      assert (a + b)[1..] == a[1..] + b;
      KeptAppend(a[1..], b);
    } else {
      assert a + b == b;
    }
  }

  /** An entry's parameter is kept exactly when the entry is present and accepted. */
  lemma {:induction false} KeptMembership(entries: seq<ParamEntry>, e: ParamEntry)
    ensures ToParam(e) in Kept(entries) <==> e in entries && Accepted(e)
  {
    if entries != [] {
      KeptMembership(entries[1..], e);
      assert entries == [entries[0]] + entries[1..];
    }
  }

  /** Every kept parameter has a non-blank name and a non-empty value. */
  lemma {:induction false} KeptAreValid(entries: seq<ParamEntry>)
    ensures forall p :: p in Kept(entries) ==> IsNotBlank(p.name) && IsNotEmpty(p.value)
  {
    if entries != [] {
      KeptAreValid(entries[1..]);
    }
  }

  /** When every entry is accepted nothing is dropped: the list is kept whole, in order. */
  lemma {:induction false} KeptAllAccepted(entries: seq<ParamEntry>)
    requires forall e :: e in entries ==> Accepted(e)
    ensures |Kept(entries)| == |entries|
    ensures forall i :: 0 <= i < |entries| ==> Kept(entries)[i] == ToParam(entries[i])
  {
    if entries != [] {
      KeptAllAccepted(entries[1..]);
    }
  }

  /** A non-empty value of whitespace only is blank but not empty, so it is kept. */
  lemma WhitespaceValueKept(name: string, value: string)
    requires IsNotBlank(name) && IsBlank(value) && |value| > 0
    ensures Kept([ParamEntry(name, value)]) == [StringParam(name, value)]
  {
  }

  /** checkAndAddBlockingParam: appends the entry's parameter when it is accepted, and otherwise drops it. */
  method CheckAndAddBlockingParam(entry: ParamEntry, blockingParams: seq<StringParam>) returns (updated: seq<StringParam>)
    ensures updated == blockingParams + Kept([entry])
  {
    var name := entry.name;
    var value := entry.value;
    if IsNotBlank(name) && IsNotEmpty(value) {
      updated := blockingParams + [StringParam(name, value)];
    } else {
      updated := blockingParams;
    }
  }

  /** The entries a form submits, in order: none when "defineBlockingParams" is null. */
  function SubmittedEntries(form: Form): seq<ParamEntry>
  {
    if form.defineBlockingParams.Some? then BlockingParamsArray(form.defineBlockingParams.value) else []
  }

  /**
   * newInstance: no condition for a blank job name; otherwise a condition on
   * that name whose blocking parameters are the accepted submitted entries.
   */
  method NewInstance(form: Form) returns (condition: Option<Condition>)
    ensures condition.None? <==> IsBlank(form.jobName)
    ensures condition.Some? ==> condition.value.jobName == form.jobName
    ensures condition.Some? ==> condition.value.blockingParams == Kept(SubmittedEntries(form))
  {
    condition := None;
    var blockingParams: seq<StringParam> := [];
    var jobName := form.jobName;
    if IsNotBlank(jobName) {
      if form.defineBlockingParams.Some? {
        var blockingParamsArray := BlockingParamsArray(form.defineBlockingParams.value);
        for idx := 0 to |blockingParamsArray|
          invariant blockingParams == Kept(blockingParamsArray[..idx])
        {
          blockingParams := CheckAndAddBlockingParam(blockingParamsArray[idx], blockingParams);
          assert blockingParamsArray[..idx + 1] == blockingParamsArray[..idx] + [blockingParamsArray[idx]];
          KeptAppend(blockingParamsArray[..idx], [blockingParamsArray[idx]]);
        }
        assert blockingParamsArray[..|blockingParamsArray|] == blockingParamsArray;
      }
      condition := Some(NewCondition(jobName, Some(blockingParams)));
    }
  }
}
