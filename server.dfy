/** The message server of server.js as an object: the system prompt, the memory
    ring it owns (the module-level `message` buffer) and the requests it has sent.
    Each method does what the JavaScript function of the same name does, step by
    step, with the outside world (the provider's messages, the service outcomes,
    the train page, the clock) passed in as arguments. Its contract ties the new
    state and the reply to the run of the same name in `Dispatch`, whose
    properties are proved there. */
module Server {

  import opened Js
  import opened Strings
  import opened Ring
  import opened Conversation
  import opened Dispatch
  import TrainStatus

  class Assistant {
    const prompt: string
    const memory: CircularBuffer<Turn>
    var outbound: seq<Request>

    ghost function Snapshot(): Session
      reads this, memory
    {
      Session(memory.State(), outbound)
    }

    ghost predicate Valid()
      reads this, memory
    {
      memory.Valid()
    }

    /** Server start-up: `new CircularBuffer(maxMessageAmount)`. */
    constructor (prompt: string, capacity: nat)
      requires capacity >= 1
      ensures Valid() && fresh(memory)
      ensures this.prompt == prompt && Snapshot() == Session(Fresh(capacity), [])
    {
      this.prompt := prompt;
      memory := new CircularBuffer(capacity);
      outbound := [];
    }

    /** `addToMemory(data)`. */
    method AddToMemory(data: Turn)
      requires Valid()
      modifies memory
      ensures Valid() && Snapshot() == Exec(prompt, old(Snapshot()), [Remember(data)])
    {
      memory.Push(data);
      ExecOne(prompt, old(Snapshot()), Remember(data));
    }

    /** One request to an outside service. */
    method Send(c: Call)
      requires Valid() && c != CompletionCall
      modifies this
      ensures Valid() && Snapshot() == Exec(prompt, old(Snapshot()), [Invoke(c)])
    {
      outbound := outbound + [Service(c)];
      ExecOne(prompt, old(Snapshot()), Invoke(c));
    }

    /** `getReply()`, the provider answering with `m`; it resolves to `m`. The
        source also tests `!message.content`, which reads a property the buffer
        does not have and is always true; it is left out. */
    method GetReply(m: Turn) returns (reply: Reply)
      requires Valid()
      modifies this, memory
      ensures Valid()
      ensures Snapshot() == Exec(prompt, old(Snapshot()), GetReplyRun(m).events)
      ensures reply == GetReplyRun(m).reply
    {
      var entries := memory.ToArray();
      outbound := outbound + [Completion([Some(PromptTurn(prompt))] + entries)];
      var ask := [Invoke(CompletionCall)];
      ExecOne(prompt, old(Snapshot()), Invoke(CompletionCall));
      ghost var asked := Snapshot();
      assert asked == Exec(prompt, old(Snapshot()), ask);
      if CallsAnimation(m) {
        var args := m.functionCall.value.arguments;
        var animated := SendMessageWithAnimation(args);
        ExecConcat(prompt, old(Snapshot()), ask, AnimationRun(args).events);
        var pushed := if animated.Json? then animated.message else RejectedPromise;
        AddToMemory(pushed);
        ExecConcat(prompt, old(Snapshot()), ask + AnimationRun(args).events, [Remember(pushed)]);
      } else {
        AddToMemory(m);
        ExecConcat(prompt, old(Snapshot()), ask, [Remember(m)]);
      }
      reply := Json(m);
    }

    /** `sendMessageWithAnimation(animationJSON)`. */
    method SendMessageWithAnimation(args: Arguments) returns (reply: Reply)
      requires Valid()
      modifies memory
      ensures Valid()
      ensures Snapshot() == Exec(prompt, old(Snapshot()), AnimationRun(args).events)
      ensures reply == AnimationRun(args).reply
    {
      match args
      case Malformed =>
        reply := NoResponse;
      case Object(f) =>
        var content := Field(f, "content");
        AddToMemory(FunctionTurn("sendMessageWithAnimation", content));
        reply := Json(AnimationReply(content, Field(f, "animationName")));
    }

    /** The events `pre` are done; then `getReply()`. */
    method FollowWithReply(ghost start: Session, ghost pre: seq<Event>, m: Turn) returns (reply: Reply)
      requires Valid() && start.memory.length >= 1
      requires Snapshot() == Exec(prompt, start, pre)
      modifies this, memory
      ensures Valid()
      ensures Snapshot() == Exec(prompt, start, ThenReply(pre, m).events)
      ensures reply == ThenReply(pre, m).reply
    {
      reply := GetReply(m);
      ExecConcat(prompt, start, pre, GetReplyRun(m).events);
    }

    /** saveMemory, loadMemory, getTodo, createTodo, deleteTodo, getWeather,
        spotifyAction, spotifyRandomSong and spotifySearchSong: the call, if
        the arguments get it that far, the one turn of the `try` or the
        `catch`, then `getReply()`. */
    method RunUniform(h: Handler, args: Arguments, env: Env) returns (reply: Reply)
      requires Valid() && IsUniform(h) && ValidInstant(env.now)
      modifies this, memory
      ensures Valid()
      ensures Snapshot() == Exec(prompt, old(Snapshot()), HandlerRun(h, args, env).events)
      ensures reply == HandlerRun(h, args, env).reply
    {
      var request := AttemptedRequest(h, args);
      if request.Some? {
        Send(request.value);
      } else {
        assert Snapshot() == Exec(prompt, old(Snapshot()), []);
      }
      var turn := AttemptTurn(h, args, env);
      AddToMemory(turn);
      ExecConcat(prompt, old(Snapshot()), Invoked(request), [Remember(turn)]);
      reply := FollowWithReply(old(Snapshot()), UniformAttempt(h, args, env), env.followUp);
    }

    /** `deviceAction(actionJSON)`: the broadcast, the acknowledgement turn,
        `getReply()`; arguments that do not parse escape before the `try`. */
    method DeviceAction(args: Arguments, env: Env) returns (reply: Reply)
      requires Valid()
      modifies this, memory
      ensures Valid()
      ensures Snapshot() == Exec(prompt, old(Snapshot()), DeviceActionRun(args, env).events)
      ensures reply == DeviceActionRun(args, env).reply
    {
      match args
      case Malformed =>
        reply := NoResponse;
      case Object(f) =>
        var broadcast := Broadcast(Field(f, "action"));
        Send(broadcast);
        var ack := DeviceAck;
        AddToMemory(ack);
        ExecConcat(prompt, old(Snapshot()), [Invoke(broadcast)], [Remember(ack)]);
        assert [Invoke(broadcast)] + [Remember(ack)] == [Invoke(broadcast), Remember(ack)];
        reply := FollowWithReply(old(Snapshot()), [Invoke(broadcast), Remember(ack)], env.followUp);
    }

    /** `getTrainLiveStatus(args)`. */
    method GetTrainLiveStatus(args: Arguments, env: Env) returns (reply: Reply)
      requires Valid() && ValidInstant(env.now)
      modifies this, memory
      ensures Valid()
      ensures Snapshot() == Exec(prompt, old(Snapshot()), TrainRun(args, env).events)
      ensures reply == TrainRun(args, env).reply
    {
      match args
      case Malformed =>
        AddToMemory(TrainFailureTurn);
        reply := Text(Apology);
      case Object(f) =>
        var (trainNo, date) := TrainArguments(f, env.now);
        var fetched := if TrainStatus.RequestsPage(trainNo, date) then [Invoke(TrainPage(trainNo, date))] else [];
        if TrainStatus.RequestsPage(trainNo, date) {
          Send(TrainPage(trainNo, date));
        } else {
          assert Snapshot() == Exec(prompt, old(Snapshot()), []);
        }
        var status := TrainStatus.GetTrainStatus(trainNo, date, env.trainPage);
        AddToMemory(TrainTurn(status));
        ExecConcat(prompt, old(Snapshot()), fetched, [Remember(TrainTurn(status))]);
        if status.Error? {
          reply := Text(Apology);
        } else {
          reply := FollowWithReply(old(Snapshot()), fetched + [Remember(TrainTurn(status))], env.followUp);
        }
    }

    /** `functions[name](parameters)` for a name in the table. */
    method Dispatch(h: Handler, args: Arguments, env: Env) returns (reply: Reply)
      requires Valid() && ValidInstant(env.now)
      modifies this, memory
      ensures Valid()
      ensures Snapshot() == Exec(prompt, old(Snapshot()), HandlerRun(h, args, env).events)
      ensures reply == HandlerRun(h, args, env).reply
    {
      if IsUniform(h) {
        reply := RunUniform(h, args, env);
      } else if h.DeviceAction? {
        reply := DeviceAction(args, env);
      } else if h.GetTrainLiveStatus? {
        reply := GetTrainLiveStatus(args, env);
      } else {
        reply := SendMessageWithAnimation(args);
      }
    }

    /** POST `/`: the user turn, `getReply()` answered by `first`, and at most
        one dispatch of the function it names. */
    method HandleMessage(message: Value, first: Turn, env: Env) returns (reply: Reply)
      requires Valid() && ValidInstant(env.now)
      modifies this, memory
      ensures Valid()
      ensures Snapshot() == Exec(prompt, old(Snapshot()), PostRun(message, first, env).events)
      ensures reply == PostRun(message, first, env).reply
    {
      AddToMemory(UserTurn(message));
      var response := FollowWithReply(old(Snapshot()), [Remember(UserTurn(message))], first);
      var functionCall := response.message.functionCall;
      if functionCall.None? {
        reply := response;
        return;
      }
      if functionCall.value.name !in FunctionTable {
        reply := NoResponse;
        return;
      }
      ghost var asked := ThenReply([Remember(UserTurn(message))], first).events;
      ghost var h := FunctionTable[functionCall.value.name];
      reply := Dispatch(FunctionTable[functionCall.value.name], functionCall.value.arguments, env);
      ExecConcat(prompt, old(Snapshot()), asked, HandlerRun(h, functionCall.value.arguments, env).events);
    }

    /** GET `/clear`: only the backing array is dropped. */
    method ClearMemory() returns (text: string)
      requires Valid()
      modifies memory
      ensures Valid()
      ensures Snapshot() == old(Snapshot()).(memory := ClearState(old(memory.State())))
      ensures text == "Memory Cleared"
    {
      memory.Clear();
      text := "Memory Cleared";
    }
  }
}
