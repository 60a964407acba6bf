/**
 * Whole sessions against one server: a run of step submissions, and the
 * three-request exchange of a client talking to a server in stdio mode.
 */
module Sessions {
  import opened Wrappers
  import opened Json
  import opened Thoughts
  import opened Protocol
  import opened Server

  /** The history after submitting each argument map of `submissions`, in order. */
  function Replay(history: seq<ThoughtData>, submissions: seq<map<string, Json>>): seq<ThoughtData>
  {
    if submissions == [] then history
    else Accept(Replay(history, submissions[..|submissions| - 1]), submissions[|submissions| - 1])
  }

  /** How many of `submissions` pass validation. */
  function AcceptedCount(submissions: seq<map<string, Json>>): (n: nat)
    ensures n <= |submissions|
  {
    if submissions == [] then 0
    else AcceptedCount(submissions[..|submissions| - 1])
         + (if Validate(submissions[|submissions| - 1]).Success? then 1 else 0)
  }

  /** Every submission passes validation. */
  predicate AllValid(submissions: seq<map<string, Json>>)
  {
    forall i :: 0 <= i < |submissions| ==> Validate(submissions[i]).Success?
  }

  /**
   * Submissions only ever append: the history grows by one entry per accepted
   * submission and its old entries stay in place.
   */
  lemma {:induction false} ReplayGrowsByAccepted(history: seq<ThoughtData>, submissions: seq<map<string, Json>>)
    ensures |Replay(history, submissions)| == |history| + AcceptedCount(submissions)
    ensures Replay(history, submissions)[..|history|] == history
  {
    if submissions != [] {
      var init := submissions[..|submissions| - 1];
      ReplayGrowsByAccepted(history, init);
      var h := Replay(history, init);
      assert Replay(history, submissions) == Accept(h, submissions[|submissions| - 1]);
      assert Replay(history, submissions)[..|h|] == h;
      assert Replay(history, submissions)[..|history|] == h[..|history|];
    }
  }

  /**
   * N accepted submissions give N new entries in submission order, each the
   * submitted step with its estimate raised if needed.
   */
  lemma {:induction false} ReplayKeepsOrder(history: seq<ThoughtData>, submissions: seq<map<string, Json>>)
    requires AllValid(submissions)
    ensures |Replay(history, submissions)| == |history| + |submissions|
    ensures Replay(history, submissions)[..|history|] == history
    ensures forall i :: 0 <= i < |submissions| ==>
              Replay(history, submissions)[|history| + i] == RaiseTotal(Validate(submissions[i]).value)
  {
    if submissions != [] {
      var init := submissions[..|submissions| - 1];
      assert AllValid(init) by {
        forall i | 0 <= i < |init| ensures Validate(init[i]).Success? {
          assert init[i] == submissions[i];
        }
      }
      ReplayKeepsOrder(history, init);
      var h := Replay(history, init);
      var r := Replay(history, submissions);
      assert r == Accept(h, submissions[|submissions| - 1]);
      assert r[..|h|] == h;
      assert r[..|history|] == h[..|history|];
      forall i | 0 <= i < |submissions|
        ensures r[|history| + i] == RaiseTotal(Validate(submissions[i]).value)
      {
        if i < |init| {
          assert r[|history| + i] == h[|history| + i];
          assert init[i] == submissions[i];
        }
      }
    }
  }

  /**
   * `r` is the answer to submitting `args`: flagged as an error exactly when
   * `args` fails validation, and otherwise a step report giving the history
   * length `historyLength`.
   */
  predicate Answers(r: ToolCallResult, args: map<string, Json>, historyLength: nat)
  {
    && (r.isError == Some(true) <==> Validate(args).Failure?)
    && (Validate(args).Success? ==>
          && |r.content| == 1 && r.content[0].body.StepReport?
          && r.content[0].body.thoughtHistoryLength == historyLength)
  }

  /**
   * Feeds `submissions` to `processThought` one after another. Each result
   * answers its submission, and an accepted submission reports the history
   * length right after it.
   */
  method SubmitAll(server: SequentialThinkingServer, submissions: seq<map<string, Json>>)
      returns (results: seq<ToolCallResult>)
    requires server.Valid()
    modifies server`thoughtHistory, server`branches, server`clients
    ensures server.Valid()
    ensures server.thoughtHistory == Replay(old(server.thoughtHistory), submissions)
    ensures |results| == |submissions|
    ensures forall i :: 0 <= i < |submissions| ==>
              Answers(results[i], submissions[i], |Replay(old(server.thoughtHistory), submissions[..i + 1])|)
  {
    ghost var start := server.thoughtHistory;
    results := [];
    for k := 0 to |submissions|
      invariant server.Valid()
      invariant server.thoughtHistory == Replay(start, submissions[..k])
      invariant |results| == k
      invariant forall i :: 0 <= i < k ==>
                  Answers(results[i], submissions[i], |Replay(start, submissions[..i + 1])|)
    {
      assert submissions[..k + 1][..k] == submissions[..k];
      var r := server.ProcessThought(submissions[k]);
      assert server.thoughtHistory == Replay(start, submissions[..k + 1]);
      assert Answers(r, submissions[k], |server.thoughtHistory|);
      ghost var before := results;
      results := results + [r];
      forall i | 0 <= i < k + 1
        ensures Answers(results[i], submissions[i], |Replay(start, submissions[..i + 1])|)
      {
        if i < k {
          assert results[i] == before[i];
        }
      }
    }
    assert submissions[..|submissions|] == submissions;
  }

  /**
   * The first two requests of a stdio client: `initialize`, then `tools/list`.
   * Both are answered without a protocol error, and neither records a step.
   */
  method OpenSession(server: SequentialThinkingServer, init: Params, version: string)
      returns (first: Response, second: Response)
    requires server.Valid() && server.stdioMode
    modifies server
    ensures server.Valid() && server.stdioMode
    ensures server.thoughtHistory == old(server.thoughtHistory)
    ensures first.error == None && first.result == Some(InitializeReply(init.protocolVersion, version))
    ensures second.error == None && second.result == Some(ToolListResult([SequentialThinkingTool()]))
  {
    first := server.HandleRequest(Request(1, "initialize", init), version);
    second := server.HandleRequest(Request(2, "tools/list", init), version);
  }

  /**
   * A `tools/call` of the known tool: answered without a protocol error, an
   * error result exactly when the arguments fail validation, and recorded by
   * `Accept`.
   */
  method CallTool(server: SequentialThinkingServer, params: Params, args: map<string, Json>, version: string)
      returns (resp: Response)
    requires server.Valid()
    modifies server
    ensures server.Valid()
    ensures resp.error == None && resp.result.Some? && resp.result.value.ToolCallOutcome?
    ensures resp.result.value.call.isError == Some(true) <==> Validate(args).Failure?
    ensures server.thoughtHistory == Accept(old(server.thoughtHistory), args)
  {
    resp := server.HandleRequest(Request(3, "tools/call", params.(name := ToolName, arguments := args)), version);
  }

  /**
   * A server in stdio mode answers `initialize`, `tools/list` and a
   * `tools/call` of the known tool without a protocol error; the call is
   * flagged as failed exactly when its arguments do not validate, and an
   * accepted step is the only entry of the history.
   */
  method StdioSession(init: Params, args: map<string, Json>, version: string)
      returns (responses: seq<Response>, history: seq<ThoughtData>)
    ensures |responses| == 3
    ensures responses[0].error == None && responses[0].result.Some?
    ensures responses[1].error == None && responses[1].result.Some?
    ensures responses[2].error == None && responses[2].result.Some?
    ensures responses[0].result.value == InitializeReply(init.protocolVersion, version)
    ensures responses[1].result.value == ToolListResult([SequentialThinkingTool()])
    ensures responses[2].result.value.ToolCallOutcome?
    ensures responses[2].result.value.call.isError == Some(true) <==> Validate(args).Failure?
    ensures history == (match Validate(args)
                        case Success(t) => [RaiseTotal(t)]
                        case Failure(_) => [])
  {
    var server := new SequentialThinkingServer();
    server.SetStdioMode(true);
    var first, second := OpenSession(server, init, version);
    var third := CallTool(server, init, args, version);
    responses := [first, second, third];
    history := server.thoughtHistory;
  }
}
