# Block a queued item while a named job is building

This project models the queue-blocking condition "Block when a specific Job is
running" of the Jenkins block-queued-job plugin. A condition holds a target job
name and an ordered list of blocking string parameters, each a (name, value)
pair. When the queue asks whether an item may start, the condition looks the
target up in the Jenkins item registry. If the target is a job that is building,
the item is held back in two cases: no blocking parameters are configured, or the
item's parameter list contains every blocking pair. Otherwise the item may start.
A missing target, or one that is not a job, never blocks.

The configuration side is modelled as well. The descriptor validates the
job-name field. It builds a condition from the submitted form by normalizing the
"blockingParams" field (absent, a single object, or an array) into a list, and it
keeps only the entries whose name is not blank and whose value is not empty.

Modules:

- `Wrappers`: `Option`, used for Java references that may be null.
- `StringUtils`: `isBlank` and `isNotEmpty` of Commons Lang, with
  `Character.isWhitespace` written out character by character.
- `BlockCondition`: the condition value, its constructor and `isBlocked`,
  together with the lemmas about the decision.
- `BlockConditionDescriptor`: `doCheckJobName`, `getBlockingParamsArray`,
  `checkAndAddBlockingParam` and `newInstance`.

The registry lookup `Jenkins.getItemByFullName` is an explicit parameter
`lookup: string -> Resolution`, with `Resolution = NotFound | NotAJob |
Job(fullName, isBuilding)`. The item's `ParametersAction` is an
`Option<seq<ParamValue>>`. Java compares parameter values by runtime class
first, so only a plain string parameter (`StringValue`) can equal a blocking
pair. Every other parameter class is an `OtherValue`. The cause of blockage is
modelled as its short description, `Option<string>`.

`isBlocked` is stated against an independent set-based rule, `ShouldBlock`:
the target is a building job and the set of required pairs is a subset of the
pairs the item offers as string parameters. This one rule covers both code
branches, because the empty blocking list requires nothing. It also shows that
the `!paramsList.isEmpty()` guard never changes the outcome. The messages follow
the code: "Job X is currently building." and "Job X is currently building and
params are matched". The second has no final period. Both name the job's full
name as the registry reports it, not the configured name.

The job-name validation and the decision disagree on one point.
`doCheckJobName` accepts any name the registry knows, including an item that is
not a job (a folder, say). A condition on such a name never blocks anything.
`AcceptedNameMayNeverBlock` states this for every registry that resolves the
name to such an item.

## Model

| member | source | states |
|---|---|---|
| `BlockCondition.NewCondition` | src/main/java/org/jenkinsci/plugins/blockqueuedjob/condition/JobAndParamBlockQueueCondition.java:47-51 | the condition keeps the job name and the given parameter list; a null list becomes the empty list, so a null list and an empty one build the same condition |
| `BlockCondition.IsBlocked` | src/main/java/org/jenkinsci/plugins/blockqueuedjob/condition/JobAndParamBlockQueueCondition.java:62-104 | blocked exactly when the target resolves to a building job and every blocking pair is among the item's string parameters (`ShouldBlock`); the reason is "Job <fullName> is currently building." without blocking parameters and "Job <fullName> is currently building and params are matched" with them |
| `BlockCondition.ContainsAll` | src/main/java/org/jenkinsci/plugins/blockqueuedjob/condition/JobAndParamBlockQueueCondition.java:87 | models `paramsList.containsAll(blockingParams)`; a true answer with at least one blocking pair implies the item's list is non-empty, so the `!paramsList.isEmpty()` guard is implied |
| `BlockCondition.ContainsAllIsInclusion` | src/main/java/org/jenkinsci/plugins/blockqueuedjob/condition/JobAndParamBlockQueueCondition.java:87 | `ContainsAll` holds exactly when the set of blocking pairs is included in the set of pairs the item offers as string parameters |
| `BlockCondition.ContainsAllPointwise` | src/main/java/org/jenkinsci/plugins/blockqueuedjob/condition/JobAndParamBlockQueueCondition.java:87 | `ContainsAll` holds exactly when every blocking pair occurs in the item's list as a string parameter |
| `BlockCondition.FailOpen` | src/main/java/org/jenkinsci/plugins/blockqueuedjob/condition/JobAndParamBlockQueueCondition.java:64-72 | a target that is not found, not a job, or not building never blocks, whatever the item's parameters |
| `BlockCondition.BlocksAllWithoutParams` | src/main/java/org/jenkinsci/plugins/blockqueuedjob/condition/JobAndParamBlockQueueCondition.java:74-80 | with no blocking parameters a building target blocks every item, with reason "Job <fullName> is currently building." |
| `BlockCondition.BlocksExactlyOnMatch` | src/main/java/org/jenkinsci/plugins/blockqueuedjob/condition/JobAndParamBlockQueueCondition.java:82-96 | with blocking parameters a building target blocks exactly the items with a non-empty list holding every blocking pair, with the "params are matched" reason |
| `BlockCondition.NoParametersNeverBlocked` | src/main/java/org/jenkinsci/plugins/blockqueuedjob/condition/JobAndParamBlockQueueCondition.java:84-87 | an item without a ParametersAction is never blocked when blocking parameters are configured |
| `BlockCondition.MoreParamsStayBlocked` | src/main/java/org/jenkinsci/plugins/blockqueuedjob/condition/JobAndParamBlockQueueCondition.java:87 | an item carrying at least the parameters of a blocked item is blocked too |
| `BlockCondition.ExtraParamsStayBlocked` | src/main/java/org/jenkinsci/plugins/blockqueuedjob/condition/JobAndParamBlockQueueCondition.java:87 | appending parameters to a blocked item never unblocks it |
| `BlockCondition.BlockingNeedsSuppliedPair` | src/main/java/org/jenkinsci/plugins/blockqueuedjob/condition/JobAndParamBlockQueueCondition.java:87 | appended parameters turn an allowed item into a blocked one only by supplying a blocking pair the item lacked |
| `BlockCondition.OnlyStringParamsMatch` | src/main/java/org/jenkinsci/plugins/blockqueuedjob/condition/JobAndParamBlockQueueCondition.java:87 | a parameter of another class with the blocking pair's name and value does not match it; a string parameter does |
| `BlockConditionDescriptor.CheckJobName` | src/main/java/org/jenkinsci/plugins/blockqueuedjob/condition/JobAndParamBlockQueueCondition.java:115-127 | ok exactly when the name is not blank and the registry knows it; otherwise "Job must be specified" for a blank name and "Job: '<name>' not found" for an unknown one |
| `BlockConditionDescriptor.BlockingNameIsAccepted` | src/main/java/org/jenkinsci/plugins/blockqueuedjob/condition/JobAndParamBlockQueueCondition.java:118-123 | the non-blank name of a condition that blocks some item passes the validation |
| `BlockConditionDescriptor.AcceptedNameMayNeverBlock` | src/main/java/org/jenkinsci/plugins/blockqueuedjob/condition/JobAndParamBlockQueueCondition.java:120-123 | for every registry in which a non-blank name resolves to an item that is not a job, the name passes the validation, yet a condition on it never blocks |
| `BlockConditionDescriptor.BlockingParamsArray` | src/main/java/org/jenkinsci/plugins/blockqueuedjob/condition/JobAndParamBlockQueueCondition.java:153-168 | an absent field gives the empty list, a single object a one-element list holding it, and an array the array itself |
| `BlockConditionDescriptor.CheckAndAddBlockingParam` | src/main/java/org/jenkinsci/plugins/blockqueuedjob/condition/JobAndParamBlockQueueCondition.java:170-179 | the list grows by the entry's parameter when it is accepted, and is unchanged otherwise |
| `BlockConditionDescriptor.Kept` | src/main/java/org/jenkinsci/plugins/blockqueuedjob/condition/JobAndParamBlockQueueCondition.java:142-144 | the reference filter for the loop over the submitted entries: the accepted entries as parameters, in order, never more than were submitted |
| `BlockConditionDescriptor.KeptAppend` | src/main/java/org/jenkinsci/plugins/blockqueuedjob/condition/JobAndParamBlockQueueCondition.java:142-144 | filtering distributes over concatenation, so accepted entries keep their input order |
| `BlockConditionDescriptor.KeptMembership` | src/main/java/org/jenkinsci/plugins/blockqueuedjob/condition/JobAndParamBlockQueueCondition.java:170-177 | an entry's parameter is kept exactly when the entry was submitted with a non-blank name and a non-empty value |
| `BlockConditionDescriptor.KeptAreValid` | src/main/java/org/jenkinsci/plugins/blockqueuedjob/condition/JobAndParamBlockQueueCondition.java:175-176 | every kept parameter has a non-blank name and a non-empty value |
| `BlockConditionDescriptor.KeptAllAccepted` | src/main/java/org/jenkinsci/plugins/blockqueuedjob/condition/JobAndParamBlockQueueCondition.java:142-144 | when every entry is acceptable the list is kept whole and in order |
| `BlockConditionDescriptor.WhitespaceValueKept` | src/main/java/org/jenkinsci/plugins/blockqueuedjob/condition/JobAndParamBlockQueueCondition.java:175 | for every non-blank name, a non-empty value made only of whitespace is kept, because only emptiness is tested |
| `BlockConditionDescriptor.NewInstance` | src/main/java/org/jenkinsci/plugins/blockqueuedjob/condition/JobAndParamBlockQueueCondition.java:130-151 | no condition exactly when the job name is blank; otherwise a condition on that name whose blocking parameters are the accepted submitted entries, in order |

## Left out

- The registry (`Jenkins.getActiveInstance().getItemByFullName`) is the `lookup` parameter. Its contents and its changes over time are not modelled. Jenkins answers a lookup according to the permissions of the caller: `doCheckJobName` runs for the user filling in the form, while `isBlocked` runs later for the queue. The model uses one `lookup` for both, so `BlockingNameIsAccepted` and `AcceptedNameMayNeverBlock` hold only when both calls see the same registry.
- The `ParametersAction`/`ParameterValue` class hierarchy is reduced to `StringValue` and `OtherValue`. Null entries in an item's parameter list are not modelled.
- `doAutoCompleteJobName` is not modelled. It is UI autocompletion delegated to Jenkins.
- `getDisplayName`, the extension registration, the `StaplerRequest` argument and the `FormException` path are not modelled. They are plugin plumbing.
- The JSON library is reduced to the shapes of the form. A missing "jobName", "name" or "value" key, a "defineBlockingParams" that is not an object, or an array element that is not an object makes the library throw. These exceptions are not modelled: every entry carries its name and value as strings.
- A null job name is not modelled. Job names are strings, and a condition with a null name resolves through `lookup` like any other name.
- A blocking parameter list left null by deserialization (bypassing the constructor) is not modelled. The constructor never leaves it null.
- `IsWhitespace` follows the whitespace set of current Java versions. U+180E, which older Java versions also count as whitespace, is not included. Java strings are UTF-16 code units, while Dafny characters are Unicode scalar values.
- The queue's polling, its re-evaluation of blocked items and its concurrent calls are not modelled. They belong to the host scheduler; each call of `IsBlocked` is a pure function of its inputs.
- `BlockConditionDescriptor.CheckAndAddBlockingParam`: the Java method appends to the `ArrayList` it is given. The model returns the extended list instead. The list is local to `newInstance`, so no aliasing is lost.
