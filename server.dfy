/**
 * `SequentialThinkingServer`: the session state (step history and branch
 * index), the broadcast hub of event-stream listeners, and the request
 * dispatcher that ties them together.
 */
module Server {
  import opened Wrappers
  import opened Json
  import opened Thoughts
  import opened Display
  import opened Protocol

  /** Each listener's queue holds at most this many undelivered events. */
  const QueueCapacity := 10

  // ---------------------------------------------------------------------------
  // The branch index, as a function of the history

  /** `t` is filed under branch `id`: it names a branching point and carries that non-empty id. */
  predicate InBranch(t: ThoughtData, id: string)
  {
    t.branchFromThought.Some? && t.branchId == id && id != ""
  }

  /** The steps of `history` filed under branch `id`, in submission order. */
  function Bucket(history: seq<ThoughtData>, id: string): (r: seq<ThoughtData>)
    ensures |r| <= |history|
    ensures forall t :: t in r ==> InBranch(t, id) && t in history
  {
    if history == [] then []
    else
      var init := history[..|history| - 1];
      var last := history[|history| - 1];
      assert history == init + [last];
      Bucket(init, id) + (if InBranch(last, id) then [last] else [])
  }

  lemma BucketSnoc(history: seq<ThoughtData>, t: ThoughtData, id: string)
    ensures Bucket(history + [t], id) == Bucket(history, id) + (if InBranch(t, id) then [t] else [])
  {
    assert (history + [t])[..|history|] == history;
  }

  /**
   * The server's `branches` map is exactly the index of its history: a key is
   * present iff some step was filed under it, and its bucket lists those steps
   * in submission order.
   */
  ghost predicate BranchIndexed(history: seq<ThoughtData>, branches: map<string, seq<ThoughtData>>)
  {
    forall id ::
      && (id in branches <==> Bucket(history, id) != [])
      && (id in branches ==> branches[id] == Bucket(history, id))
  }

  /**
   * Files `t` under its branch id when it names a branching point and the id
   * is not empty, creating the bucket if needed; every other bucket is kept.
   */
  function AddToBranch(branches: map<string, seq<ThoughtData>>, t: ThoughtData): (r: map<string, seq<ThoughtData>>)
    ensures InBranch(t, t.branchId) ==>
              && r.Keys == branches.Keys + {t.branchId}
              && r[t.branchId] == (if t.branchId in branches then branches[t.branchId] else []) + [t]
    ensures !InBranch(t, t.branchId) ==> r == branches
    ensures forall id :: id in branches && id != t.branchId ==> id in r && r[id] == branches[id]
  {
    if t.branchFromThought.Some? && t.branchId != "" then
      branches[t.branchId := (if t.branchId in branches then branches[t.branchId] else []) + [t]]
    else branches
  }

  /** Recording a step keeps the branch map equal to the index of the history. */
  lemma RecordKeepsIndex(history: seq<ThoughtData>, branches: map<string, seq<ThoughtData>>, t: ThoughtData)
    requires BranchIndexed(history, branches)
    ensures BranchIndexed(history + [t], AddToBranch(branches, t))
  {
    var branches' := AddToBranch(branches, t);
    forall id
      ensures id in branches' ==> branches'[id] == Bucket(history + [t], id)
      ensures id !in branches' ==> Bucket(history + [t], id) == []
    {
      BucketSnoc(history, t, id);
    }
  }

  /** The history after submitting `args`: one more step if it validates, else as it was. */
  function Accept(history: seq<ThoughtData>, args: map<string, Json>): (r: seq<ThoughtData>)
    ensures Validate(args).Failure? ==> r == history
    ensures Validate(args).Success? ==> |r| == |history| + 1 && r[..|history|] == history
    ensures Validate(args).Success? ==> r[|history|] == RaiseTotal(Validate(args).value)
  {
    match Validate(args)
    case Success(t) => history + [RaiseTotal(t)]
    case Failure(_) => history
  }

  // ---------------------------------------------------------------------------
  // The broadcast hub, as a function of the queues

  /** Every listener's queue is within capacity. */
  ghost predicate QueuesBounded(clients: map<string, seq<Message>>)
  {
    forall id :: id in clients ==> |clients[id]| <= QueueCapacity
  }

  /**
   * One broadcast: every listener with room gets `msg` at the end of its queue,
   * every listener whose queue is full is dropped, and no listener is added.
   */
  function Delivered(clients: map<string, seq<Message>>, msg: Message): (r: map<string, seq<Message>>)
    ensures forall id :: id in r <==> id in clients && |clients[id]| < QueueCapacity
    ensures forall id :: id in r ==> r[id] == clients[id] + [msg]
  {
    map id | id in clients && |clients[id]| < QueueCapacity :: clients[id] + [msg]
  }

  /** A broadcast keeps every queue within capacity. */
  lemma DeliveredKeepsBound(clients: map<string, seq<Message>>, msg: Message)
    ensures QueuesBounded(Delivered(clients, msg))
  {
  }

  /** Several broadcasts in a row, with no listener reading in between. */
  function DeliverAll(clients: map<string, seq<Message>>, msgs: seq<Message>): map<string, seq<Message>>
  {
    if msgs == [] then clients
    else Delivered(DeliverAll(clients, msgs[..|msgs| - 1]), msgs[|msgs| - 1])
  }

  /**
   * A listener that does not read keeps receiving every event, in publish
   * order, while its queue has room, and is dropped by the first event that
   * finds the queue full; once dropped it receives nothing more.
   */
  lemma {:induction false} SlowListenerEvicted(clients: map<string, seq<Message>>, id: string, msgs: seq<Message>)
    requires id in clients && |clients[id]| <= QueueCapacity
    ensures |clients[id]| + |msgs| <= QueueCapacity ==>
              id in DeliverAll(clients, msgs) && DeliverAll(clients, msgs)[id] == clients[id] + msgs
    ensures |clients[id]| + |msgs| > QueueCapacity ==> id !in DeliverAll(clients, msgs)
  {
    if msgs != [] {
      var init := msgs[..|msgs| - 1];
      SlowListenerEvicted(clients, id, init);
      assert msgs == init + [msgs[|msgs| - 1]];
    }
  }

  /** A listener that is not subscribed never receives a broadcast. */
  lemma {:induction false} AbsentListenerStaysAbsent(clients: map<string, seq<Message>>, id: string, msgs: seq<Message>)
    requires id !in clients
    ensures id !in DeliverAll(clients, msgs)
  {
    if msgs != [] {
      AbsentListenerStaysAbsent(clients, id, msgs[..|msgs| - 1]);
    }
  }

  /** The event published when a step is accepted. */
  function ThoughtMessage(t: ThoughtData): Message
  {
    Message("thought", ThoughtEvent(FormatThought(t), t))
  }

  /** The event published when a client sends `initialize`. */
  function InitializeMessage(params: Params): Message
  {
    Message("initialize", InitializeEvent(params.clientInfo, params.protocolVersion))
  }

  /** The event published when the handshake-complete notification arrives. */
  const HandshakeMessage := Message("initialized", HandshakeEvent("MCP handshake complete"))

  /** No key occurs twice. */
  predicate Distinct(keys: seq<string>)
  {
    forall i, j :: 0 <= i < j < |keys| ==> keys[i] != keys[j]
  }

  /** The step summary `processThought` reports for accepted step `t`. */
  ghost predicate ReportsStep(r: ToolCallResult, t: ThoughtData, historyLength: nat,
                        branches: map<string, seq<ThoughtData>>, roots: seq<string>,
                        info: ClientInfo, version: string)
  {
    && r.isError == None
    && |r.content| == 1
    && r.content[0].kind == "text"
    && r.content[0].body.StepReport?
    && r.content[0].body.thoughtNumber == t.thoughtNumber
    && r.content[0].body.totalThoughts == t.totalThoughts
    && r.content[0].body.nextThoughtNeeded == t.nextThoughtNeeded
    && (forall k :: k in r.content[0].body.branches <==> k in branches)
    && Distinct(r.content[0].body.branches)
    && r.content[0].body.thoughtHistoryLength == historyLength
    && r.content[0].body.roots == roots
    && r.content[0].body.clientInfo == info
    && r.content[0].body.protocolVersion == version
  }

  /** All fields of the server, for saying that nothing changed. */
  datatype Snapshot = Snapshot(
    history: seq<ThoughtData>, branches: map<string, seq<ThoughtData>>, roots: seq<string>,
    info: ClientInfo, version: string, clients: map<string, seq<Message>>, stdio: bool)

  /**
   * The effect of `processThought` on the server, from state `before` to state
   * `after`, answering with `r`. The history becomes `Accept` of the old one.
   * A submission that fails validation gets the soft error and changes nothing
   * else. An accepted step, with its estimate raised, is filed by
   * `AddToBranch`, broadcast unless the server runs over stdio, and reported.
   * The roots, the client identity, the protocol version and the stdio flag
   * never change.
   */
  ghost predicate StepEffect(args: map<string, Json>, before: Snapshot, after: Snapshot, r: ToolCallResult)
  {
    && after == before.(history := Accept(before.history, args), branches := after.branches, clients := after.clients)
    && (Validate(args).Failure? ==>
          && r == FailedCall(Validate(args).error)
          && after.branches == before.branches && after.clients == before.clients)
    && (Validate(args).Success? ==>
          var t := RaiseTotal(Validate(args).value);
          && after.branches == AddToBranch(before.branches, t)
          && after.clients == (if before.stdio then before.clients else Delivered(before.clients, ThoughtMessage(t)))
          && ReportsStep(r, t, |after.history|, after.branches, after.roots, after.info, after.version))
  }

  /** The loop of `initialize` that keeps the string elements of the roots array. */
  method StringRoots(items: seq<Json>) returns (roots: seq<string>)
    ensures roots == StringsIn(items)
  {
    roots := [];
    for i := 0 to |items|
      invariant roots == StringsIn(items[..i])
    {
      assert items[..i + 1] == items[..i] + [items[i]];
      StringsInSnoc(items[..i], items[i]);
      match items[i]
      case JStr(s) => roots := roots + [s];
      case _ =>
    }
    assert items[..|items|] == items;
  }

  class SequentialThinkingServer {
    var thoughtHistory: seq<ThoughtData>
    var branches: map<string, seq<ThoughtData>>
    var workspaceRoots: seq<string>
    var clientInfo: ClientInfo
    var protocolVersion: string
    var clients: map<string, seq<Message>>
    var stdioMode: bool

    /** The branch map indexes the history, and no listener's queue is over capacity. */
    ghost predicate Valid()
      reads this`thoughtHistory, this`branches, this`clients
    {
      BranchIndexed(thoughtHistory, branches) && QueuesBounded(clients)
    }

    ghost function State(): Snapshot
      reads this
    {
      Snapshot(thoughtHistory, branches, workspaceRoots, clientInfo, protocolVersion, clients, stdioMode)
    }

    /** `NewSequentialThinkingServer`. */
    constructor ()
      ensures Valid()
      ensures thoughtHistory == [] && branches == map[] && workspaceRoots == []
      ensures clientInfo == ClientInfo("", "") && protocolVersion == DefaultProtocolVersion
      ensures clients == map[] && !stdioMode
    {
      thoughtHistory := [];
      branches := map[];
      workspaceRoots := [];
      clientInfo := ClientInfo("", "");
      protocolVersion := DefaultProtocolVersion;
      clients := map[];
      stdioMode := false;
    }

    method SetStdioMode(stdio: bool)
      modifies this`stdioMode
      ensures stdioMode == stdio
    {
      stdioMode := stdio;
    }

    method SetClientInfo(info: ClientInfo, version: string)
      modifies this`clientInfo, this`protocolVersion
      ensures clientInfo == info && protocolVersion == version
    {
      clientInfo := info;
      protocolVersion := version;
    }

    method SetWorkspaceRoots(roots: seq<string>)
      modifies this`workspaceRoots
      ensures workspaceRoots == roots
    {
      workspaceRoots := roots;
    }

    /** Subscribes listener `id` with an empty queue, replacing any queue it had. */
    method AddClient(id: string)
      requires Valid()
      modifies this`clients
      ensures Valid()
      ensures clients == old(clients)[id := []]
    {
      clients := clients[id := []];
    }

    /** Unsubscribes listener `id`; an id that is not subscribed is ignored. */
    method RemoveClient(id: string)
      requires Valid()
      modifies this`clients
      ensures Valid()
      ensures clients == old(clients) - {id}
    {
      if id in clients {
        clients := clients - {id};
      }
    }

    /**
     * Offers `msg` to every listener without blocking: a listener with room
     * gets it queued, a listener whose queue is full is unsubscribed.
     */
    method BroadcastMessage(msg: Message)
      requires Valid()
      modifies this`clients
      ensures Valid()
      ensures clients == Delivered(old(clients), msg)
    {
      var pending := clients.Keys;
      while pending != {}
        invariant pending <= old(clients).Keys
        invariant forall id :: id in clients ==> id in old(clients)
        invariant forall id :: id in pending ==> id in clients && clients[id] == old(clients)[id]
        invariant forall id :: id in old(clients) && id !in pending ==>
                    && (id in clients <==> |old(clients)[id]| < QueueCapacity)
                    && (id in clients ==> clients[id] == old(clients)[id] + [msg])
        invariant Valid()
        decreases pending
      {
        var id :| id in pending;
        if |clients[id]| < QueueCapacity {
          clients := clients[id := clients[id] + [msg]];
        } else {
          RemoveClient(id);
        }
        pending := pending - {id};
      }
    }

    /** The keys of the branch map, each once, in the map's (unspecified) iteration order. */
    method BranchKeys() returns (keys: seq<string>)
      ensures forall k :: k in keys <==> k in branches
      ensures Distinct(keys)
    {
      keys := [];
      var rest := branches.Keys;
      while rest != {}
        invariant rest <= branches.Keys
        invariant forall k :: k in keys <==> k in branches && k !in rest
        invariant Distinct(keys)
        decreases rest
      {
        var k :| k in rest;
        keys := keys + [k];
        rest := rest - {k};
      }
    }

    /** Appends `t` to the history and files it under its branch. */
    method Record(t: ThoughtData)
      requires Valid()
      modifies this`thoughtHistory, this`branches
      ensures Valid()
      ensures thoughtHistory == old(thoughtHistory) + [t]
      ensures branches == AddToBranch(old(branches), t)
    {
      RecordKeepsIndex(thoughtHistory, branches, t);
      thoughtHistory := thoughtHistory + [t];
      if t.branchFromThought.Some? && t.branchId != "" {
        var bucket := if t.branchId in branches then branches[t.branchId] else [];
        branches := branches[t.branchId := bucket + [t]];
      }
    }

    /**
     * `processThought`: a step that fails validation is reported as a soft
     * error and changes nothing; an accepted step, with its estimate raised if
     * needed, is appended to the history, filed under its branch, broadcast
     * unless the server runs over stdio, and summarised.
     */
    method ProcessThought(args: map<string, Json>) returns (r: ToolCallResult)
      requires Valid()
      modifies this`thoughtHistory, this`branches, this`clients
      ensures Valid()
      ensures StepEffect(args, old(State()), State(), r)
    {
      ghost var before := State();
      var validated := Validate(args);
      if validated.Failure? {
        r := FailedCall(validated.error);
        assert Accept(thoughtHistory, args) == thoughtHistory;
        return;
      }
      var t := RaiseTotal(validated.value);

      Record(t);
      assert thoughtHistory == Accept(before.history, args);
      assert State() == before.(history := thoughtHistory, branches := branches);
      if !stdioMode {
        BroadcastMessage(ThoughtMessage(t));
        assert State() == before.(history := thoughtHistory, branches := branches, clients := clients);
      }

      var keys := BranchKeys();
      r := ToolCallResult(
        [Content("text", StepReport(t.thoughtNumber, t.totalThoughts, t.nextThoughtNeeded, keys,
                                    |thoughtHistory|, workspaceRoots, clientInfo, protocolVersion))],
        None);
    }

    /**
     * `handleRequest`: routes a decoded request by its method name. `version`
     * is the server's build version reported by `initialize`.
     */
    method HandleRequest(req: Request, version: string) returns (resp: Response)
      requires Valid()
      modifies this
      ensures Valid()
      ensures stdioMode == old(stdioMode)
      // Every answered request echoes the id and carries a result or an error, never both.
      ensures RouteOf(req) == NotificationRoute ==> resp == EmptyResponse
      ensures RouteOf(req) != NotificationRoute ==>
                && resp.jsonrpc == "2.0" && resp.id == Some(req.id)
                && resp.error == ProtocolError(req)
                && (resp.result.Some? <==> resp.error.None?)
      // A protocol error leaves the server as it was; so does listing the tools.
      ensures ProtocolError(req).Some? ==> State() == old(State())
      ensures RouteOf(req) == ListToolsRoute ==>
                resp.result == Some(ToolListResult([SequentialThinkingTool()])) && State() == old(State())
      ensures RouteOf(req) == InitializeRoute ==>
                && resp.result == Some(InitializeReply(req.params.protocolVersion, version))
                && clientInfo == req.params.clientInfo
                && protocolVersion == req.params.protocolVersion
                && workspaceRoots == (match RootsList(req.params.capabilities)
                                      case Some(items) => StringsIn(items)
                                      case None => old(workspaceRoots))
                && thoughtHistory == old(thoughtHistory) && branches == old(branches)
                && clients == (if stdioMode then old(clients) else Delivered(old(clients), InitializeMessage(req.params)))
      ensures RouteOf(req) == NotificationRoute ==>
                && State() == old(State()).(clients := clients)
                && clients == (if stdioMode then old(clients) else Delivered(old(clients), HandshakeMessage))
      ensures RouteOf(req) == CallToolRoute ==>
                && resp.result.Some? && resp.result.value.ToolCallOutcome?
                && (resp.result.value.call.isError == Some(true) <==> Validate(req.params.arguments).Failure?)
                && StepEffect(req.params.arguments, old(State()), State(), resp.result.value.call)
    {
      match RouteOf(req)
      case InitializeRoute =>
        resp := HandleInitialize(req, version);
      case NotificationRoute =>
        resp := HandleInitialized();
      case ListToolsRoute =>
        resp := Response("2.0", Some(req.id), Some(ToolListResult([SequentialThinkingTool()])), None);
      case CallToolRoute =>
        resp := HandleToolCall(req);
      case UnknownToolRoute =>
        resp := Response("2.0", Some(req.id), None, ProtocolError(req));
      case UnknownMethodRoute =>
        resp := Response("2.0", Some(req.id), None, ProtocolError(req));
    }

    /**
     * The `initialize` branch: records the client's identity and protocol
     * version, replaces the workspace roots when the request carries a roots
     * array, announces the client to listeners, and echoes the version.
     */
    method HandleInitialize(req: Request, version: string) returns (resp: Response)
      requires Valid()
      modifies this`clientInfo, this`protocolVersion, this`workspaceRoots, this`clients
      ensures Valid()
      ensures resp == Response("2.0", Some(req.id), Some(InitializeReply(req.params.protocolVersion, version)), None)
      ensures clientInfo == req.params.clientInfo && protocolVersion == req.params.protocolVersion
      ensures workspaceRoots == (match RootsList(req.params.capabilities)
                                 case Some(items) => StringsIn(items)
                                 case None => old(workspaceRoots))
      ensures clients == (if stdioMode then old(clients) else Delivered(old(clients), InitializeMessage(req.params)))
    {
      SetClientInfo(req.params.clientInfo, req.params.protocolVersion);
      var rootsList := RootsList(req.params.capabilities);
      if rootsList.Some? {
        var roots := StringRoots(rootsList.value);
        SetWorkspaceRoots(roots);
      }
      if !stdioMode {
        BroadcastMessage(InitializeMessage(req.params));
      }
      resp := Response("2.0", Some(req.id), Some(InitializeReply(req.params.protocolVersion, version)), None);
    }

    /** The branch shared by both notification names: announce the handshake, answer nothing. */
    method HandleInitialized() returns (resp: Response)
      requires Valid()
      modifies this`clients
      ensures Valid()
      ensures resp == EmptyResponse
      ensures clients == (if stdioMode then old(clients) else Delivered(old(clients), HandshakeMessage))
    {
      if !stdioMode {
        BroadcastMessage(HandshakeMessage);
      }
      resp := EmptyResponse;
    }

    /** The `tools/call` branch: the one known tool records a step; any other name is an error. */
    method HandleToolCall(req: Request) returns (resp: Response)
      requires Valid()
      requires RouteOf(req) == CallToolRoute || RouteOf(req) == UnknownToolRoute
      modifies this`thoughtHistory, this`branches, this`clients
      ensures Valid()
      ensures resp.jsonrpc == "2.0" && resp.id == Some(req.id) && resp.error == ProtocolError(req)
      ensures resp.result.Some? <==> resp.error.None?
      ensures RouteOf(req) == UnknownToolRoute ==>
                thoughtHistory == old(thoughtHistory) && branches == old(branches) && clients == old(clients)
      ensures RouteOf(req) == CallToolRoute ==>
                && resp.result.Some? && resp.result.value.ToolCallOutcome?
                && (resp.result.value.call.isError == Some(true) <==> Validate(req.params.arguments).Failure?)
                && StepEffect(req.params.arguments, old(State()), State(), resp.result.value.call)
    {
      if req.params.name == ToolName {
        var result := ProcessThought(req.params.arguments);
        resp := Response("2.0", Some(req.id), Some(ToolCallOutcome(result)), None);
      } else {
        resp := Response("2.0", Some(req.id), None, Some(RpcError(InvalidParams, "Unknown tool: " + req.params.name)));
      }
    }
  }
}
