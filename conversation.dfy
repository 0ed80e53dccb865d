/** The conversation state of server.js: the memory ring of chat turns (the
    module-level `message` buffer) and the requests the server sends out. What a
    handler does is described as a trace of events, each of which either pushes a
    turn onto the memory (`addToMemory`) or sends a request; a completion request
    carries the system prompt followed by the whole memory, as `getReply` builds
    it. */
module Conversation {

  import opened Js
  import opened Ring

  datatype Role = System | User | Assistant | Function

  /** `function_call` of a provider message; its `arguments` text is kept as
      the result of `JSON.parse` on it. */
  datatype FunctionCall = FunctionCall(name: string, arguments: Arguments)

  /** A chat message: `{role, name?, content, function_call?, animation?}`. */
  datatype Turn = Turn(role: Role, name: Option<string>, content: Value,
                       functionCall: Option<FunctionCall>, animation: Option<Value>)

  /** `promptObject`: the system prompt that heads every completion request. */
  function PromptTurn(prompt: string): Turn
  {
    Turn(System, None, Str(prompt), None, None)
  }

  /** `{role: "user", content: req.body.message}`. */
  function UserTurn(message: Value): Turn
  {
    Turn(User, None, message, None, None)
  }

  /** `{role: "function", name, content}`: what a handler records on success. */
  function FunctionTurn(name: string, content: Value): Turn
  {
    Turn(Function, Some(name), content, None, None)
  }

  const FailureText: string := "tell the user something went wrong"

  /** The turn the uniform handlers record when their `try` block fails. */
  const FailureTurn: Turn := Turn(System, None, Str(FailureText), None, None)

  /** Requests to the store service (database-server). */
  datatype StoreRequest =
    | PutMemory(data: Value, tags: seq<string>, category: Value)
    | FindMemory(tags: seq<string>, category: Value)
    | ListTodos
    | AddTodo(task: Value, dueDate: Value)
    | RemoveTodo(index: Value)

  /** Requests to the music service (spotify-server `/next`). */
  datatype MusicRequest = Control(action: Value) | RandomSong(genre: Value) | SearchSong(query: Value)

  /** What a handler asks for: a completion, built from the memory at that
      moment, or one call to an outside service. */
  datatype Call =
    | CompletionCall
    | Store(store: StoreRequest)
    | Weather
    | Music(music: MusicRequest)
    | Broadcast(action: Value)
    | TrainPage(trainNo: Value, date: Value)

  /** A request as sent: a completion carries its message list (a hole of the
      memory array is `undefined`, here `None`). */
  datatype Request = Completion(messages: seq<Option<Turn>>) | Service(call: Call)

  datatype Event = Remember(turn: Turn) | Invoke(call: Call)

  /** The memory ring and the requests sent so far. */
  datatype Session = Session(memory: Ring<Turn>, outbound: seq<Request>)

  /** The message list of a completion request over memory `r`. */
  function CompletionMessages(prompt: string, r: Ring<Turn>): (ms: seq<Option<Turn>>)
    requires r.length >= 1
    ensures |ms| >= 1 && ms[0] == Some(PromptTurn(prompt)) && ms[1..] == Entries(r)
  {
    [Some(PromptTurn(prompt))] + Entries(r)
  }

  function Step(prompt: string, s: Session, e: Event): (s': Session)
    requires s.memory.length >= 1
    ensures s'.memory.length == s.memory.length
  {
    match e
    case Remember(t) => s.(memory := PushState(s.memory, t))
    case Invoke(CompletionCall) =>
      s.(outbound := s.outbound + [Completion(CompletionMessages(prompt, s.memory))])
    case Invoke(c) => s.(outbound := s.outbound + [Service(c)])
  }

  /** The session after the events, in order. */
  function Exec(prompt: string, s: Session, evs: seq<Event>): (s': Session)
    requires s.memory.length >= 1
    ensures s'.memory.length == s.memory.length
    decreases |evs|
  {
    if evs == [] then s
    else Step(prompt, Exec(prompt, s, evs[..|evs| - 1]), evs[|evs| - 1])
  }

  /** The turns the events push, in order. */
  function Remembered(evs: seq<Event>): seq<Turn>
  {
    if evs == [] then []
    else
      var last := evs[|evs| - 1];
      Remembered(evs[..|evs| - 1]) + (if last.Remember? then [last.turn] else [])
  }

  /** The number of completion requests the events make. */
  function Completions(evs: seq<Event>): nat
  {
    if evs == [] then 0
    else
      var last := evs[|evs| - 1];
      Completions(evs[..|evs| - 1]) + (if last == Invoke(CompletionCall) then 1 else 0)
  }

  /** The number of outside-service calls the events make. */
  function ServiceCalls(evs: seq<Event>): nat
  {
    if evs == [] then 0
    else
      var last := evs[|evs| - 1];
      ServiceCalls(evs[..|evs| - 1]) + (if last.Invoke? && last.call != CompletionCall then 1 else 0)
  }

  function CompletionRequests(reqs: seq<Request>): nat
  {
    if reqs == [] then 0
    else
      var last := reqs[|reqs| - 1];
      CompletionRequests(reqs[..|reqs| - 1]) + (if last.Completion? then 1 else 0)
  }

  lemma {:induction false} ExecConcat(prompt: string, s: Session, a: seq<Event>, b: seq<Event>)
    requires s.memory.length >= 1
    ensures Exec(prompt, s, a + b) == Exec(prompt, Exec(prompt, s, a), b)
    decreases |b|
  {
    if b != [] {
      assert (a + b)[..|a + b| - 1] == a + b[..|b| - 1];
      ExecConcat(prompt, s, a, b[..|b| - 1]);
    } else {
      assert a + b == a;
    }
  }

  lemma {:induction false} CountsConcat(a: seq<Event>, b: seq<Event>)
    ensures Remembered(a + b) == Remembered(a) + Remembered(b)
    ensures Completions(a + b) == Completions(a) + Completions(b)
    ensures ServiceCalls(a + b) == ServiceCalls(a) + ServiceCalls(b)
    decreases |b|
  {
    if b == [] {
      assert a + b == a;
    } else {
      assert (a + b)[..|a + b| - 1] == a + b[..|b| - 1];
      CountsConcat(a, b[..|b| - 1]);
    }
  }

  /** What the events do to the memory: they push exactly the turns they
      remember, in order. */
  lemma {:induction false} ExecMemory(prompt: string, s: Session, evs: seq<Event>)
    requires s.memory.length >= 1
    ensures Exec(prompt, s, evs).memory == PushAll(s.memory, Remembered(evs))
    decreases |evs|
  {
    if evs != [] {
      var init, last := evs[..|evs| - 1], evs[|evs| - 1];
      ExecMemory(prompt, s, init);
      var before := Remembered(init);
      if last.Remember? {
        assert Remembered(evs) == before + [last.turn];
        assert (before + [last.turn])[..|before|] == before;
      } else {
        assert Remembered(evs) == before;
      }
    }
  }

  /** What the events do to the requests sent: one request per call, the
      completions among them counted apart. */
  lemma {:induction false} ExecOutbound(prompt: string, s: Session, evs: seq<Event>)
    requires s.memory.length >= 1
    ensures |Exec(prompt, s, evs).outbound| == |s.outbound| + Completions(evs) + ServiceCalls(evs)
    ensures CompletionRequests(Exec(prompt, s, evs).outbound) ==
            CompletionRequests(s.outbound) + Completions(evs)
    ensures Exec(prompt, s, evs).outbound[..|s.outbound|] == s.outbound
    decreases |evs|
  {
    if evs != [] {
      var before := Exec(prompt, s, evs[..|evs| - 1]);
      ExecOutbound(prompt, s, evs[..|evs| - 1]);
      var e := evs[|evs| - 1];
      StepOutbound(prompt, before, e);
      var after := Step(prompt, before, e);
      assert after.outbound[..|s.outbound|] == before.outbound[..|before.outbound|][..|s.outbound|];
    }
  }

  /** What one event does to the requests sent. */
  lemma StepOutbound(prompt: string, s: Session, e: Event)
    requires s.memory.length >= 1
    ensures var after := Step(prompt, s, e);
      && |after.outbound| == |s.outbound| + (if e == Invoke(CompletionCall) then 1 else 0)
           + (if e.Invoke? && e.call != CompletionCall then 1 else 0)
      && CompletionRequests(after.outbound) ==
           CompletionRequests(s.outbound) + (if e == Invoke(CompletionCall) then 1 else 0)
      && after.outbound[..|s.outbound|] == s.outbound
  {
    var after := Step(prompt, s, e);
    if after.outbound != s.outbound {
      assert after.outbound[..|after.outbound| - 1] == s.outbound;
    }
  }

  /** The counts of one event. */
  lemma CountsOne(e: Event)
    ensures Remembered([e]) == if e.Remember? then [e.turn] else []
    ensures Completions([e]) == if e == Invoke(CompletionCall) then 1 else 0
    ensures ServiceCalls([e]) == if e.Invoke? && e.call != CompletionCall then 1 else 0
  {
    assert [e][..0] == [];
  }

  /** The counts of an event followed by more. */
  lemma CountsCons(e: Event, rest: seq<Event>)
    ensures Remembered([e] + rest) == Remembered([e]) + Remembered(rest)
    ensures Completions([e] + rest) == Completions([e]) + Completions(rest)
    ensures ServiceCalls([e] + rest) == ServiceCalls([e]) + ServiceCalls(rest)
  {
    CountsConcat([e], rest);
  }

  /** Starting from a fresh memory of capacity n, the messages a completion
      request made after the events carries are the prompt and then the last
      min(k, n) of the k turns the events remembered, oldest first. */
  lemma CompletionCarriesRecentTurns(prompt: string, n: nat, evs: seq<Event>)
    requires n >= 1
    ensures var t := Remembered(evs);
      CompletionMessages(prompt, Exec(prompt, Session(Fresh(n), []), evs).memory) ==
        [Some(PromptTurn(prompt))] + Present(t[|t| - Min(|t|, n)..])
  {
    ExecMemory(prompt, Session(Fresh(n), []), evs);
    CompletionOverPushes(prompt, n, Remembered(evs));
  }

  lemma CompletionOverPushes(prompt: string, n: nat, t: seq<Turn>)
    requires n >= 1
    ensures CompletionMessages(prompt, PushAll(Fresh(n), t)) ==
      [Some(PromptTurn(prompt))] + Present(t[|t| - Min(|t|, n)..])
  {
    LastPushed(n, t);
  }

  /** One event on its own. */
  lemma ExecOne(prompt: string, s: Session, e: Event)
    requires s.memory.length >= 1
    ensures Exec(prompt, s, [e]) == Step(prompt, s, e)
  {
    assert [e][..0] == [];
  }
}
