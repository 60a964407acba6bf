/**
 * One reasoning step (`ThoughtData`) and the checks that turn the loosely
 * typed `arguments` object of a `tools/call` request into one.
 */
module Thoughts {
  import opened Wrappers
  import opened Json

  /** A submitted step; the `*bool` / `*int` fields of the Go record are Options. */
  datatype ThoughtData = ThoughtData(
    thought: string,
    thoughtNumber: int,
    totalThoughts: int,
    nextThoughtNeeded: bool,
    isRevision: Option<bool>,
    revisesThought: Option<int>,
    branchFromThought: Option<int>,
    branchId: string,
    needsMoreThoughts: Option<bool>)

  /** Which required argument made validation fail. */
  datatype FieldError =
    | InvalidThought
    | InvalidThoughtNumber
    | InvalidTotalThoughts
    | InvalidNextThoughtNeeded
  {
    /** The text of the Go error value. */
    function Message(): (m: string)
      ensures |m| > 0
    {
      match this
      case InvalidThought => "invalid thought: must be a string"
      case InvalidThoughtNumber => "invalid thoughtNumber: must be a number"
      case InvalidTotalThoughts => "invalid totalThoughts: must be a number"
      case InvalidNextThoughtNeeded => "invalid nextThoughtNeeded: must be a boolean"
    }
  }

  /** The `thought` argument is present, a string, and not empty. */
  predicate ThoughtOk(args: map<string, Json>)
  {
    "thought" in args && args["thought"].JStr? && args["thought"].s != ""
  }

  /** `key` is present and a number. */
  predicate NumberOk(args: map<string, Json>, key: string)
  {
    key in args && args[key].JNum?
  }

  /** `nextThoughtNeeded` is present and a boolean. */
  predicate FlagOk(args: map<string, Json>)
  {
    "nextThoughtNeeded" in args && args["nextThoughtNeeded"].JBool?
  }

  /**
   * `validateThoughtData`: the four required fields are checked in a fixed
   * order and the first failing one is reported; the optional fields are
   * copied when they have the right type and ignored otherwise.
   */
  function Validate(args: map<string, Json>): (r: Result<ThoughtData, FieldError>)
    // The error names the first required field that fails, in this order.
    ensures r == Failure(InvalidThought) <==> !ThoughtOk(args)
    ensures r == Failure(InvalidThoughtNumber) <==>
              ThoughtOk(args) && !NumberOk(args, "thoughtNumber")
    ensures r == Failure(InvalidTotalThoughts) <==>
              ThoughtOk(args) && NumberOk(args, "thoughtNumber") && !NumberOk(args, "totalThoughts")
    ensures r == Failure(InvalidNextThoughtNeeded) <==>
              ThoughtOk(args) && NumberOk(args, "thoughtNumber") && NumberOk(args, "totalThoughts") && !FlagOk(args)
    // Optional fields never cause a failure.
    ensures r.Success? <==>
              ThoughtOk(args) && NumberOk(args, "thoughtNumber") && NumberOk(args, "totalThoughts") && FlagOk(args)
  {
    match GetString(args, "thought")
    case None => Failure(InvalidThought)
    case Some(thought) =>
      if thought == "" then Failure(InvalidThought)
      else
        match GetNumber(args, "thoughtNumber")
        case None => Failure(InvalidThoughtNumber)
        case Some(thoughtNumber) =>
          match GetNumber(args, "totalThoughts")
          case None => Failure(InvalidTotalThoughts)
          case Some(totalThoughts) =>
            match GetBool(args, "nextThoughtNeeded")
            case None => Failure(InvalidNextThoughtNeeded)
            case Some(nextThoughtNeeded) =>
              Success(ThoughtData(
                thought, thoughtNumber, totalThoughts, nextThoughtNeeded,
                GetBool(args, "isRevision"),
                GetNumber(args, "revisesThought"),
                GetNumber(args, "branchFromThought"),
                match GetString(args, "branchId") case Some(id) => id case None => "",
                GetBool(args, "needsMoreThoughts")))
  }

  /**
   * On success `Validate` copies the four required values unchanged, and sets
   * an optional field exactly when it is present with the right type.
   */
  lemma ValidateCopiesArguments(args: map<string, Json>, t: ThoughtData)
    requires Validate(args) == Success(t)
    // The required values are copied unchanged.
    ensures args["thought"] == JStr(t.thought)
    ensures args["thoughtNumber"] == JNum(t.thoughtNumber)
    ensures args["totalThoughts"] == JNum(t.totalThoughts)
    ensures args["nextThoughtNeeded"] == JBool(t.nextThoughtNeeded)
    // An optional field is set exactly when it is present with the right type.
    ensures t.isRevision.Some? <==> "isRevision" in args && args["isRevision"].JBool?
    ensures t.isRevision.Some? ==> args["isRevision"] == JBool(t.isRevision.value)
    ensures t.revisesThought.Some? <==> "revisesThought" in args && args["revisesThought"].JNum?
    ensures t.revisesThought.Some? ==> args["revisesThought"] == JNum(t.revisesThought.value)
    ensures t.branchFromThought.Some? <==> "branchFromThought" in args && args["branchFromThought"].JNum?
    ensures t.branchFromThought.Some? ==> args["branchFromThought"] == JNum(t.branchFromThought.value)
    ensures t.needsMoreThoughts.Some? <==> "needsMoreThoughts" in args && args["needsMoreThoughts"].JBool?
    ensures t.needsMoreThoughts.Some? ==> args["needsMoreThoughts"] == JBool(t.needsMoreThoughts.value)
    ensures if "branchId" in args && args["branchId"].JStr? then args["branchId"] == JStr(t.branchId)
            else t.branchId == ""
  {
  }

  /** The keys `Validate` requires; every other key is optional. */
  predicate IsRequiredKey(key: string)
  {
    key in {"thought", "thoughtNumber", "totalThoughts", "nextThoughtNeeded"}
  }

  /**
   * Changing or adding an optional argument, even to a value of the wrong
   * type, never turns a success into a failure or changes the error reported.
   */
  lemma OptionalFieldNeverFails(args: map<string, Json>, key: string, v: Json)
    requires !IsRequiredKey(key)
    ensures Validate(args[key := v]).Success? == Validate(args).Success?
    ensures Validate(args).Failure? ==> Validate(args[key := v]) == Validate(args)
  {
    var args' := args[key := v];
    assert ThoughtOk(args') == ThoughtOk(args);
    assert NumberOk(args', "thoughtNumber") == NumberOk(args, "thoughtNumber");
    assert NumberOk(args', "totalThoughts") == NumberOk(args, "totalThoughts");
    assert FlagOk(args') == FlagOk(args);
  }

  /**
   * The permissive step-count policy of `processThought`: a step whose number
   * is beyond the estimate raises the estimate to that number; nothing else
   * of the step changes.
   */
  function RaiseTotal(t: ThoughtData): (r: ThoughtData)
    ensures r.totalThoughts >= r.thoughtNumber
    ensures r.totalThoughts >= t.totalThoughts
    ensures r.totalThoughts == t.totalThoughts || r.totalThoughts == t.thoughtNumber
    ensures r == t.(totalThoughts := r.totalThoughts)
  {
    if t.thoughtNumber > t.totalThoughts then t.(totalThoughts := t.thoughtNumber) else t
  }
}
