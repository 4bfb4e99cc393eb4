/** The agentic tool-call loop (fire_llm.go, handleToolCalls): a transcript that always
    answers every tool call, an allow-list, a bound on the re-calls, and their cost. */
module ToolLoop {
  import opened Wrappers

  datatype ToolCall = ToolCall(id: string, tool: string, arguments: string)

  datatype Message =
    | Given(text: string)
    | Assistant(content: string, call: Option<ToolCall>)
    | ToolReply(callId: string, content: string)

  datatype Response = Response(content: string, calls: seq<ToolCall>, cost: real)

  datatype Recall = Recall(messages: seq<Message>, answer: Result<Response, string>)

  datatype LoopError =
    | Cancelled
    | DisallowedTool(tool: string)
    | ChannelClosed
    | RecallFailed(message: string)
    | LoopExceeded

  const MAX_ITERATIONS := 10

  // ---- The transcript ----

  /** One assistant message per call; the text goes with the first. */
  function Asks(r: Response): seq<Message> {
    if r.calls == [] then [Assistant(r.content, None)]
    else seq(|r.calls|, i requires 0 <= i < |r.calls| => Assistant(if i == 0 then r.content else "", Some(r.calls[i])))
  }

  /** The IDs asked for and the IDs answered, in order. */
  function Asked(ms: seq<Message>): seq<string> {
    if ms == [] then []
    else
      var m := ms[|ms|-1];
      Asked(ms[..|ms|-1]) + if m.Assistant? && m.call.Some? then [m.call.value.id] else []
  }

  function Answered(ms: seq<Message>): seq<string> {
    if ms == [] then []
    else
      var m := ms[|ms|-1];
      Answered(ms[..|ms|-1]) + if m.ToolReply? then [m.callId] else []
  }

  function Ids(calls: seq<ToolCall>): seq<string> {
    seq(|calls|, i requires 0 <= i < |calls| => calls[i].id)
  }

  /** The replies answer the calls one by one. */
  predicate Replies(calls: seq<ToolCall>, replies: seq<Message>) {
    && |replies| == |calls|
    && forall i :: 0 <= i < |calls| ==> replies[i].ToolReply? && replies[i].callId == calls[i].id
  }

  /** `next` is `prev` with a response and the replies to its calls. */
  ghost predicate Extends(prev: seq<Message>, r: Response, next: seq<Message>) {
    var asked := prev + Asks(r);
    asked <= next && Replies(r.calls, next[|asked|..])
  }

  /** The response that a re-call was answering. */
  function Before(resp: Response, made: seq<Recall>, k: nat): Option<Response>
    requires k <= |made|
  {
    if k == 0 then Some(resp)
    else if made[k-1].answer.Ok? then Some(made[k-1].answer.value)
    else None
  }

  /** What had been said before the k-th re-call was prepared. */
  function Said(messages: seq<Message>, made: seq<Recall>, k: nat): seq<Message>
    requires k <= |made|
  {
    if k == 0 then messages else made[k-1].messages
  }

  /** The k-th re-call answers every call of a response that asked for tools, unless that
      is the first response, and carries all that was said so far. */
  ghost predicate Follows(messages: seq<Message>, resp: Response, made: seq<Recall>, k: nat)
    requires k < |made|
  {
    var before := Before(resp, made, k);
    && before.Some?
    && (k > 0 ==> before.value.calls != [])
    && Extends(Said(messages, made, k), before.value, made[k].messages)
  }

  ghost predicate Protocol(messages: seq<Message>, resp: Response, made: seq<Recall>) {
    forall k :: 0 <= k < |made| ==> Follows(messages, resp, made, k)
  }

  function TotalCost(made: seq<Recall>): real {
    if made == [] then 0.0
    else
      var last := made[|made|-1].answer;
      TotalCost(made[..|made|-1]) + if last.Ok? then last.value.cost else 0.0
  }

  // ---- The world: tools, people, the model ----

  /** What the loop knows of a tool: its executor may be missing, and it may need a human. */
  datatype Tool = Tool(hasExecutor: bool, requiresHuman: bool)

  datatype Verdict = Approved | Rejected | Interrupted | Closed

  /** What the host gate and the human said about a call. */
  datatype Consultation =
    | GateSaid(call: ToolCall, gated: bool, denied: bool)
    | HumanSaid(call: ToolCall, verdict: Verdict)

  class World {
    var executed: seq<ToolCall>
    var consulted: seq<Consultation>
    var recalls: seq<Recall>
    /** The context was seen cancelled; the human's channel was seen closed. */
    var interrupted: bool
    var closed: bool
    /** The net's state: waiting for a human, or running. */
    var waiting: bool

    constructor ()
      ensures executed == [] && consulted == [] && recalls == [] && !interrupted && !closed && !waiting
    {
      executed, consulted, recalls, interrupted, closed, waiting := [], [], [], false, false, false;
    }

    method Cancel() returns (cancelled: bool)
      modifies `interrupted
      ensures interrupted == (old(interrupted) || cancelled)
    {
      cancelled := *;
      interrupted := interrupted || cancelled;
    }

    /** The host gate: not concerned, approved, or denied. */
    method Gate(call: ToolCall) returns (gated: bool, denied: bool)
      modifies `consulted
      ensures denied ==> gated
      ensures consulted == old(consulted) + [GateSaid(call, gated, denied)]
    {
      gated, denied := *, *;
      denied := denied && gated;
      consulted := consulted + [GateSaid(call, gated, denied)];
    }

    method AskHuman(call: ToolCall) returns (v: Verdict)
      modifies `consulted, `interrupted, `closed, `waiting
      ensures waiting == (v == Interrupted)
      ensures consulted == old(consulted) + [HumanSaid(call, v)]
      ensures interrupted == (old(interrupted) || v == Interrupted)
      ensures closed == (old(closed) || v == Closed)
    {
      v := *;
      interrupted, closed := interrupted || v == Interrupted, closed || v == Closed;
      waiting := v == Interrupted;
      consulted := consulted + [HumanSaid(call, v)];
    }

    method Execute(call: ToolCall) returns (r: Result<string, string>)
      modifies `executed
      ensures executed == old(executed) + [call]
    {
      r := *;
      executed := executed + [call];
    }

    method Complete(messages: seq<Message>) returns (r: Result<Response, string>)
      modifies `recalls
      ensures recalls == old(recalls) + [Recall(messages, r)]
    {
      r := *;
      recalls := recalls + [Recall(messages, r)];
    }
  }

  /** Who is consulted about a call to a known tool: the gate, and then a human exactly when
      the gate is not concerned, the tool requires one, and the calling transition has a
      channel on which one can be reached. */
  ghost predicate Consults(call: ToolCall, tool: Tool, reachable: bool, said: seq<Consultation>) {
    && said != [] && said[0].GateSaid? && said[0].call == call && (said[0].denied ==> said[0].gated)
    && (if !said[0].gated && tool.requiresHuman && reachable
        then |said| == 2 && said[1].HumanSaid? && said[1].call == call
        else |said| == 1)
  }

  /** Neither the gate nor the human objected. */
  ghost predicate Cleared(said: seq<Consultation>) {
    forall i :: 0 <= i < |said| ==>
      && (said[i].GateSaid? ==> !said[i].denied)
      && (said[i].HumanSaid? ==> said[i].verdict == Approved)
  }

  /** The host gate put the call to the user, or a human answered on the channel. */
  ghost predicate SomeoneAsked(said: seq<Consultation>) {
    exists i :: 0 <= i < |said| && (said[i].HumanSaid? || said[i].gated)
  }

  /** Where the requirement of a human is lost: a tool that has one is cleared without anybody
      being asked exactly when the gate is not concerned and there is no channel. */
  lemma {:induction false} ClearedUnasked(call: ToolCall, tool: Tool, reachable: bool, said: seq<Consultation>)
    requires Consults(call, tool, reachable, said) && tool.requiresHuman
    ensures Cleared(said) && !SomeoneAsked(said) <==> !said[0].gated && !reachable
  {
    if |said| == 2 {
      assert said[1].HumanSaid?;
    } else {
      assert said == [said[0]];
    }
  }

  /** A known tool whose human has not been reached through the gate. */
  ghost predicate Escalates(call: ToolCall, allowed: seq<string>, tools: map<string, Tool>, said: seq<Consultation>) {
    && call.tool in allowed && call.tool in tools && tools[call.tool].requiresHuman
    && said != [] && said[0].GateSaid? && !said[0].gated
  }

  lemma {:induction false} ClearedByHuman(gate: Consultation, human: Consultation)
    requires gate.GateSaid? && !gate.denied && human.HumanSaid?
    ensures Cleared([gate] + [human]) <==> human.verdict == Approved
  {
    var said := [gate] + [human];
    assert said[0] == gate && said[1] == human;
    if human.verdict == Approved {
      forall i | 0 <= i < |said|
        ensures said[i].GateSaid? ==> !said[i].denied
        ensures said[i].HumanSaid? ==> said[i].verdict == Approved
      {
        assert i == 0 || i == 1;
      }
    }
  }

  /** One tool call: on every branch that goes on there is exactly one reply to it, and the
      executor runs exactly for a known tool that is allowed and cleared. */
  method AnswerCall(call: ToolCall, allowed: seq<string>, tools: map<string, Tool>, reachable: bool, w: World)
    returns (reply: Result<Message, LoopError>, ghost said: seq<Consultation>)
    modifies w`executed, w`consulted, w`interrupted, w`closed, w`waiting
    ensures w.interrupted == (old(w.interrupted) || reply == Err(Cancelled))
    ensures w.closed == (old(w.closed) || reply == Err(ChannelClosed))
    ensures reply.Ok? ==> reply.value.ToolReply? && reply.value.callId == call.id && call.tool in allowed
    ensures reply.Err? ==> reply.error.DisallowedTool? || reply.error.ChannelClosed? || reply.error.Cancelled?
    ensures reply.Err? && reply.error.DisallowedTool? ==> reply.error.tool == call.tool && call.tool !in allowed
    ensures call.tool !in allowed <==> reply == Err(DisallowedTool(call.tool))
    ensures w.consulted == old(w.consulted) + said
    ensures w.waiting ==
            if Escalates(call, allowed, tools, said) then !reachable || reply == Err(Cancelled) else old(w.waiting)
    ensures if call.tool in allowed && call.tool in tools
            then Consults(call, tools[call.tool], reachable, said) else said == []
    ensures w.executed ==
            if call.tool in allowed && call.tool in tools && tools[call.tool].hasExecutor && Cleared(said)
            then old(w.executed) + [call] else old(w.executed)
  {
    said := [];
    if call.tool !in allowed {
      return Err(DisallowedTool(call.tool)), said;
    }
    if call.tool !in tools {
      return Ok(ToolReply(call.id, "error: tool not found")), said;
    }
    var tool := tools[call.tool];
    var gated, denied := w.Gate(call);
    said := [GateSaid(call, gated, denied)];
    if denied {
      assert said[0].denied;
      return Ok(ToolReply(call.id, "Tool execution rejected by user")), said;
    }
    if !gated && tool.requiresHuman {
      w.waiting := true;
      if reachable {
        var verdict := w.AskHuman(call);
        said := said + [HumanSaid(call, verdict)];
        ClearedByHuman(said[0], HumanSaid(call, verdict));
        match verdict {
          case Interrupted => return Err(Cancelled), said;
          case Closed => return Err(ChannelClosed), said;
          case Rejected => return Ok(ToolReply(call.id, "Tool execution rejected by user")), said;
          case Approved =>
        }
      }
    }
    if !tool.hasExecutor {
      return Ok(ToolReply(call.id, "error: tool has nil executor")), said;
    }
    var result := w.Execute(call);
    return Ok(ToolReply(call.id, if result.Ok? then result.value else "error: " + result.error)), said;
  }

  /** Only allow-listed tools. */
  ghost predicate OnlyAllowed(calls: seq<ToolCall>, allowed: seq<string>) {
    forall i :: 0 <= i < |calls| ==> calls[i].tool in allowed
  }

  ghost predicate Requests(r: Response, tool: string) {
    exists i :: 0 <= i < |r.calls| && r.calls[i].tool == tool
  }

  lemma {:induction false} NoneAllowed(calls: seq<ToolCall>, allowed: seq<string>)
    ensures OnlyAllowed([], allowed) && OnlyAllowed(calls[..0], allowed)
  {
  }

  lemma {:induction false} OneMoreAllowed(calls: seq<ToolCall>, call: ToolCall, allowed: seq<string>)
    requires OnlyAllowed(calls, allowed) && call.tool in allowed
    ensures OnlyAllowed(calls + [call], allowed)
  {
  }

  method AnswerCalls(r: Response, allowed: seq<string>, tools: map<string, Tool>, messages: seq<Message>,
                     reachable: bool, w: World)
    returns (next: Result<seq<Message>, LoopError>, ghost ran: seq<ToolCall>)
    modifies w`executed, w`consulted, w`interrupted, w`closed, w`waiting
    ensures w.interrupted == (old(w.interrupted) || next == Err(Cancelled))
    ensures w.closed == (old(w.closed) || next == Err(ChannelClosed))
    ensures next.Ok? ==> Extends(messages, r, next.value) && OnlyAllowed(r.calls, allowed)
    ensures next.Err? ==> next.error.DisallowedTool? || next.error.ChannelClosed? || next.error.Cancelled?
    ensures next.Err? && next.error.DisallowedTool? ==> next.error.tool !in allowed && Requests(r, next.error.tool)
    ensures w.executed == old(w.executed) + ran && OnlyAllowed(ran, allowed)
    ensures reachable && !old(w.waiting) ==> (w.waiting ==> next == Err(Cancelled))
  {
    hide Escalates, Consults, Cleared, Asks, OnlyAllowed;
    var asked := messages + Asks(r);
    var replies: seq<Message> := [];
    ran := [];
    NoneAllowed(r.calls, allowed);
    for i := 0 to |r.calls|
      invariant Replies(r.calls[..i], replies) && OnlyAllowed(r.calls[..i], allowed)
      invariant w.executed == old(w.executed) + ran && OnlyAllowed(ran, allowed)
      invariant w.interrupted == old(w.interrupted) && w.closed == old(w.closed)
      invariant reachable && !old(w.waiting) ==> !w.waiting
    {
      ghost var before := w.executed;
      var reply;
      ghost var said;
      reply, said := AnswerCall(r.calls[i], allowed, tools, reachable, w);
      if r.calls[i].tool in allowed { OneMoreAllowed(ran, r.calls[i], allowed); }
      ran := if w.executed == before then ran else ran + [r.calls[i]];
      if reply.Err? {
        return Err(reply.error), ran;
      }
      assert r.calls[..i+1] == r.calls[..i] + [r.calls[i]];
      OneMoreAllowed(r.calls[..i], r.calls[i], allowed);
      replies := replies + [reply.value];
    }
    assert r.calls[..|r.calls|] == r.calls;
    next := Ok(asked + replies);
    assert next.value[|asked|..] == replies;
  }

  lemma {:induction false} ProtocolStep(messages: seq<Message>, resp: Response, made: seq<Recall>, last: Recall)
    requires Protocol(messages, resp, made)
    requires var before := Before(resp, made, |made|);
             && before.Some? && (made != [] ==> before.value.calls != [])
             && Extends(Said(messages, made, |made|), before.value, last.messages)
    ensures Protocol(messages, resp, made + [last])
  {
    hide Extends;
    forall k | 0 <= k < |made| ensures Follows(messages, resp, made + [last], k) {
      assert Follows(messages, resp, made, k);
    }
  }

  lemma {:induction false} CostStep(made: seq<Recall>, last: Recall)
    ensures TotalCost(made + [last]) == TotalCost(made) + if last.answer.Ok? then last.answer.value.cost else 0.0
  {
    assert (made + [last])[..|made|] == made;
  }

  /** `handleToolCalls`.  At most ten re-calls, each following the protocol; only allowed
      tools run; the cost is that of the re-calls; the content comes from a response that
      asked for no more tools. */
  method HandleToolCalls(resp: Response, allowed: seq<string>, tools: map<string, Tool>, messages: seq<Message>,
                     reachable: bool, w: World)
    returns (r: Result<string, LoopError>, cost: real, ghost made: seq<Recall>, ghost ran: seq<ToolCall>)
    modifies w
    ensures w.recalls == old(w.recalls) + made && w.executed == old(w.executed) + ran
    ensures |made| <= MAX_ITERATIONS && Protocol(messages, resp, made) && OnlyAllowed(ran, allowed)
    ensures cost == TotalCost(made)
    ensures r.Ok? ==>
      && made != [] && made[|made|-1].answer.Ok?
      && made[|made|-1].answer.value.calls == [] && r.value == made[|made|-1].answer.value.content
    ensures r == Err(LoopExceeded) ==>
      && |made| == MAX_ITERATIONS && made[|made|-1].answer.Ok? && made[|made|-1].answer.value.calls != []
    ensures r.Err? && r.error.RecallFailed? ==> made != [] && made[|made|-1].answer.Err?
    ensures r.Err? && r.error.DisallowedTool? ==>
      var before := Before(resp, made, |made|);
      r.error.tool !in allowed && before.Some? && Requests(before.value, r.error.tool)
    ensures w.interrupted == (old(w.interrupted) || r == Err(Cancelled))
    ensures w.closed == (old(w.closed) || r == Err(ChannelClosed))
    ensures reachable && !old(w.waiting) ==> (w.waiting ==> r == Err(Cancelled))
  {
    hide Extends, Protocol, Asks, TotalCost, OnlyAllowed, Requests;
    var current, said := resp, messages;
    cost, made, ran := 0.0, [], [];
    Starts(messages, resp, allowed);
    for i := 0 to MAX_ITERATIONS
      invariant w.recalls == old(w.recalls) + made && w.executed == old(w.executed) + ran
      invariant |made| == i && Protocol(messages, resp, made) && OnlyAllowed(ran, allowed)
      invariant cost == TotalCost(made)
      invariant Before(resp, made, i) == Some(current) && (i > 0 ==> current.calls != [])
      invariant said == Said(messages, made, i)
      invariant w.interrupted == old(w.interrupted) && w.closed == old(w.closed)
      invariant reachable && !old(w.waiting) ==> !w.waiting
    {
      var cancelled := w.Cancel();
      if cancelled {
        return Err(Cancelled), cost, made, ran;
      }
      ghost var more;
      var next;
      next, more := AnswerCalls(current, allowed, tools, said, reachable, w);
      RanMore(ran, more, allowed);
      ran := ran + more;
      if next.Err? {
        return Err(next.error), cost, made, ran;
      }
      var answer := w.Complete(next.value);
      ProtocolStep(messages, resp, made, Recall(next.value, answer));
      CostStep(made, Recall(next.value, answer));
      made := made + [Recall(next.value, answer)];
      if answer.Err? {
        return Err(RecallFailed(answer.error)), cost, made, ran;
      }
      cost := cost + answer.value.cost;
      if answer.value.calls == [] {
        return Ok(answer.value.content), cost, made, ran;
      }
      current, said := answer.value, next.value;
    }
    return Err(LoopExceeded), cost, made, ran;
  }

  lemma {:induction false} Starts(messages: seq<Message>, resp: Response, allowed: seq<string>)
    ensures Protocol(messages, resp, []) && TotalCost([]) == 0.0 && OnlyAllowed([], allowed)
  {
  }

  lemma {:induction false} RanMore(a: seq<ToolCall>, b: seq<ToolCall>, allowed: seq<string>)
    requires OnlyAllowed(a, allowed) && OnlyAllowed(b, allowed)
    ensures OnlyAllowed(a + b, allowed)
  {
  }

  /** The tool step of `fireLLM`: a failed loop reports only what was spent before it. */
  method ToolStep(spent: real, resp: Response, allowed: seq<string>, tools: map<string, Tool>, messages: seq<Message>,
                  reachable: bool, w: World)
    returns (r: Result<string, LoopError>, total: real, ghost made: seq<Recall>)
    modifies w
    ensures w.recalls == old(w.recalls) + made
    ensures resp.calls == [] ==> r == Ok(resp.content) && total == spent && made == []
    ensures total == spent + if r.Ok? then TotalCost(made) else 0.0
  {
    made := [];
    if resp.calls == [] {
      return Ok(resp.content), spent, made;
    }
    var cost;
    ghost var ran;
    r, cost, made, ran := HandleToolCalls(resp, allowed, tools, messages, reachable, w);
    total := if r.Ok? then spent + cost else spent;
  }

  // ---- What the protocol means for a whole transcript ----

  lemma {:induction false} AskedStep(ms: seq<Message>, m: Message)
    ensures Asked(ms + [m]) == Asked(ms) + if m.Assistant? && m.call.Some? then [m.call.value.id] else []
    ensures Answered(ms + [m]) == Answered(ms) + if m.ToolReply? then [m.callId] else []
  {
    assert (ms + [m])[..|ms|] == ms;
  }

  lemma {:induction false} AskedAppend(a: seq<Message>, b: seq<Message>)
    ensures Asked(a + b) == Asked(a) + Asked(b) && Answered(a + b) == Answered(a) + Answered(b)
    decreases |b|
  {
    hide Asked, Answered;
    if b == [] {
      AskedNone();
      assert a + b == a;
    } else {
      var n := |b| - 1;
      AskedAppend(a, b[..n]);
      AskedStep(a + b[..n], b[n]);
      AskedStep(b[..n], b[n]);
      assert b[..n] + [b[n]] == b && a + b[..n] + [b[n]] == a + b;
    }
  }

  lemma {:induction false} AskedNone()
    ensures Asked([]) == [] && Answered([]) == []
  {
  }

  lemma {:induction false} AsksIds(r: Response, n: nat)
    requires n <= |r.calls| && r.calls != []
    ensures Asked(Asks(r)[..n]) == Ids(r.calls)[..n] && Answered(Asks(r)[..n]) == []
  {
    if n > 0 {
      AsksIds(r, n - 1);
      assert Asks(r)[..n][..n-1] == Asks(r)[..n-1];
      assert Ids(r.calls)[..n] == Ids(r.calls)[..n-1] + [r.calls[n-1].id];
    }
  }

  lemma {:induction false} RepliesIds(calls: seq<ToolCall>, replies: seq<Message>)
    requires Replies(calls, replies)
    ensures Asked(replies) == [] && Answered(replies) == Ids(calls)
    decreases |calls|
  {
    if calls != [] {
      var n := |calls| - 1;
      RepliesIds(calls[..n], replies[..n]);
      assert Ids(calls) == Ids(calls[..n]) + [calls[n].id];
    }
  }

  /** One exchange asks for some IDs and answers exactly those, in the same order. */
  lemma {:induction false} ExchangeAnswers(prev: seq<Message>, r: Response, next: seq<Message>)
    requires Extends(prev, r, next)
    ensures prev <= next
    ensures Asked(next[|prev|..]) == Ids(r.calls) && Answered(next[|prev|..]) == Ids(r.calls)
  {
    hide Asked, Answered;
    var asks := Asks(r);
    var replies := next[|prev|+|asks|..];
    assert next == prev + asks + replies;
    assert next[|prev|..] == asks + replies;
    AskedAppend(asks, replies);
    RepliesIds(r.calls, replies);
    if r.calls == [] {
      NothingAsked(r.content);
    } else {
      AsksIds(r, |r.calls|);
      assert asks[..|r.calls|] == asks && Ids(r.calls)[..|r.calls|] == Ids(r.calls);
    }
  }

  lemma {:induction false} NothingAsked(content: string)
    ensures Asked([Assistant(content, None)]) == [] && Answered([Assistant(content, None)]) == []
  {
    var ms := [Assistant(content, None)];
    assert ms[..0] == [];
  }

  /** At every re-call each tool call made so far has been answered by exactly one tool
      message with its ID, in order. */
  lemma {:induction false} EveryCallAnswered(messages: seq<Message>, resp: Response, made: seq<Recall>, k: nat)
    requires Protocol(messages, resp, made) && k < |made|
    ensures messages <= made[k].messages
    ensures Asked(made[k].messages[|messages|..]) == Answered(made[k].messages[|messages|..])
  {
    hide Asked, Answered, Extends;
    assert Follows(messages, resp, made, k);
    var prev, next := Said(messages, made, k), made[k].messages;
    ExchangeAnswers(prev, Before(resp, made, k).value, next);
    if k == 0 {
    } else {
      EveryCallAnswered(messages, resp, made, k - 1);
      Splice(messages, prev, next);
      AskedAppend(prev[|messages|..], next[|prev|..]);
    }
  }

  lemma {:induction false} Splice(a: seq<Message>, b: seq<Message>, c: seq<Message>)
    requires a <= b <= c
    ensures a <= c && c[|a|..] == b[|a|..] + c[|b|..]
  {
  }
}
