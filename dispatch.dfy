/** What each handler of server.js, `getReply` and the POST `/` route do, as
    runs: the events they cause, in order, and the reply the route finally sends.
    Each outside call is abstracted to its outcome: the JSON text of a successful
    response, or a failure (a rejected fetch or a body that is not JSON). The
    provider's replies, the fetched train page and the clock are inputs too. */
module Dispatch {

  import opened Js
  import opened Strings
  import opened Conversation
  import Catalogue
  import TrainStatus
  import TodoStore

  datatype Handler =
    | LoadMemory | SaveMemory | GetTodo | CreateTodo | DeleteTodo | GetWeather
    | SpotifyAction | SpotifyRandomSong | SpotifySearchSong | DeviceAction
    | GetTrainLiveStatus | SendMessageWithAnimation

  /** The `functions` table: handler names to handlers. */
  const FunctionTable: map<string, Handler> := map[
    "loadMemory" := LoadMemory, "saveMemory" := SaveMemory, "getTodo" := GetTodo,
    "createTodo" := CreateTodo, "deleteTodo" := DeleteTodo, "getWeather" := GetWeather,
    "spotifyAction" := SpotifyAction, "spotifyRandomSong" := SpotifyRandomSong,
    "spotifySearchSong" := SpotifySearchSong, "deviceAction" := DeviceAction,
    "getTrainLiveStatus" := GetTrainLiveStatus,
    "sendMessageWithAnimation" := SendMessageWithAnimation
  ]

  /** The name a handler records its turns under. */
  function HandlerName(h: Handler): string
  {
    match h
    case LoadMemory => "loadMemory"
    case SaveMemory => "saveMemory"
    case GetTodo => "getTodo"
    case CreateTodo => "createTodo"
    case DeleteTodo => "deleteTodo"
    case GetWeather => "getWeather"
    case SpotifyAction => "spotifyAction"
    case SpotifyRandomSong => "spotifyRandomSong"
    case SpotifySearchSong => "spotifySearchSong"
    case DeviceAction => "deviceAction"
    case GetTrainLiveStatus => "getTrainLiveStatus"
    case SendMessageWithAnimation => "sendMessageWithAnimation"
  }

  /** The nine handlers that record one turn inside a `try` and then ask for a
      completion whatever happened. */
  predicate IsUniform(h: Handler)
  {
    !(h.DeviceAction? || h.GetTrainLiveStatus? || h.SendMessageWithAnimation?)
  }

  // ---------------------------------------------------------------------------
  // Inputs and results

  datatype Outcome = Success(body: string) | Failure

  /** What the outside world supplies to one POST: the outcome of the handler's
      service call, the train page, the local and the UTC date of `new Date()`,
      and the provider message answering the handler's completion request. */
  datatype Env = Env(service: Outcome, trainPage: TrainStatus.PageFetch, today: Instant,
                     now: Instant, followUp: Turn)

  /** What the route sends: a message object, a JSON string, or nothing at all
      (the request is left hanging). */
  datatype Reply = Json(message: Turn) | Text(text: string) | NoResponse

  datatype Run = Run(events: seq<Event>, reply: Reply)

  /** The turns a run records. */
  function Turns(r: Run): seq<Turn>
  {
    Remembered(r.events)
  }

  // ---------------------------------------------------------------------------
  // getReply and sendMessageWithAnimation

  /** The object `sendMessageWithAnimation` returns. */
  function AnimationReply(content: Value, animationName: Value): Turn
  {
    Turn(Assistant, None, content, None, Some(animationName))
  }

  /** `sendMessageWithAnimation(args)`: it records the content as a function turn
      and returns the assistant message carrying the animation. Arguments that do
      not parse stop it before it records anything, and no reply follows. */
  function AnimationRun(args: Arguments): Run
  {
    match args
    case Malformed => Run([], NoResponse)
    case Object(f) =>
      var content := Field(f, "content");
      Run([Remember(FunctionTurn("sendMessageWithAnimation", content))],
          Json(AnimationReply(content, Field(f, "animationName"))))
  }

  predicate CallsAnimation(m: Turn)
  {
    m.functionCall.Some? && m.functionCall.value.name == "sendMessageWithAnimation"
  }

  /** What a Promise that rejects leaves in the memory: it has no message
      fields, so it is an assistant turn with `undefined` content and nothing
      more. */
  const RejectedPromise: Turn := Turn(Assistant, None, Undefined, None, None)

  /** What getReply pushes for an animation call. `sendMessageWithAnimation` is
      `async`: it hands back a Promise of its reply object, which rejects when
      the arguments do not parse. */
  function AnimationPushed(a: Run): Turn
  {
    if a.reply.Json? then a.reply.message else RejectedPromise
  }

  /** `getReply()` answered by provider message `m`: one completion request over
      the prompt and the memory, then `m` is recorded, or, for an animation call,
      what `sendMessageWithAnimation` records followed by what it hands back. It
      resolves to `m` in every case. */
  function GetReplyRun(m: Turn): Run
  {
    var ask := [Invoke(CompletionCall)];
    if CallsAnimation(m) then
      var a := AnimationRun(m.functionCall.value.arguments);
      Run(ask + a.events + [Remember(AnimationPushed(a))], Json(m))
    else Run(ask + [Remember(m)], Json(m))
  }

  /** The events of `pre`, then a getReply answered by `m`. */
  function ThenReply(pre: seq<Event>, m: Turn): Run
  {
    var g := GetReplyRun(m);
    Run(pre + g.events, g.reply)
  }

  // ---------------------------------------------------------------------------
  // The uniform handlers

  /** What saveMemory does to `tags`: split at commas, each piece lower-cased and
      trimmed. */
  function NormalizeTags(tags: string): seq<string>
  {
    var pieces := Split(tags, ',');
    seq(|pieces|, i requires 0 <= i < |pieces| => Trim(ToLower(pieces[i])))
  }

  /** `${day}-${month}-${year}` of the local date. */
  function DayMonthYear(t: Instant): string
  {
    NatToString(t.day) + "-" + NatToString(t.month) + "-" + NatToString(t.year)
  }

  /** The service call a uniform handler makes with parsed arguments `f`, or
      `None` when reading them throws before the call (`tags` not a string). */
  function ServiceRequest(h: Handler, f: map<string, Value>): (c: Option<Call>)
    requires IsUniform(h)
    ensures c.Some? ==> c.value != CompletionCall
    ensures (h.SaveMemory? || h.LoadMemory?) ==> (c.Some? <==> Field(f, "tags").Str?)
    ensures !(h.SaveMemory? || h.LoadMemory?) ==> c.Some?
  {
    match h
    case SaveMemory =>
      (match Field(f, "tags")
       case Str(tags) =>
         Some(Store(PutMemory(Field(f, "data"), NormalizeTags(tags), Field(f, "category"))))
       case _ => None)
    case LoadMemory =>
      (match Field(f, "tags")
       case Str(tags) => Some(Store(FindMemory([ToLower(tags)], Field(f, "category"))))
       case _ => None)
    case GetTodo => Some(Store(ListTodos))
    case CreateTodo => Some(Store(AddTodo(Field(f, "task"), Field(f, "dueDate"))))
    case DeleteTodo => Some(Store(RemoveTodo(Field(f, "index"))))
    case GetWeather => Some(Weather)
    case SpotifyAction => Some(Music(Control(Field(f, "action"))))
    case SpotifyRandomSong => Some(Music(RandomSong(Field(f, "genre"))))
    case SpotifySearchSong => Some(Music(SearchSong(Field(f, "query"))))
  }

  /** The call a uniform handler gets as far as making. getTodo and getWeather
      read no arguments; the others parse theirs first. */
  function AttemptedRequest(h: Handler, args: Arguments): (c: Option<Call>)
    requires IsUniform(h)
    ensures c.Some? ==> c.value != CompletionCall
    ensures (h.GetTodo? || h.GetWeather?) ==> c.Some? && c == ServiceRequest(h, map[])
    ensures !(h.GetTodo? || h.GetWeather?) && args.Malformed? ==> c.None?
    ensures !(h.GetTodo? || h.GetWeather?) && args.Object? ==> c == ServiceRequest(h, args.fields)
  {
    if h.GetTodo? || h.GetWeather? then ServiceRequest(h, map[])
    else match args
      case Malformed => None
      case Object(f) => ServiceRequest(h, f)
  }

  function Invoked(c: Option<Call>): seq<Event>
  {
    if c.Some? then [Invoke(c.value)] else []
  }

  const SongSuffix: string :=
    "song playing, do not call any animation function, reply with just the name of song and artist provided"

  /** The content a uniform handler records for response text `body`. */
  function SuccessContent(h: Handler, body: string, today: Instant): string
    requires IsUniform(h)
  {
    match h
    case SaveMemory => "successfully saved!"
    case LoadMemory => "here are all the data entries, tell the user this :" + body
    case GetTodo => "today's date is " + DayMonthYear(today) + ". tasks are:" + body
    case CreateTodo => "successfully created todo!"
    case DeleteTodo => "successfully deleted todo!"
    case GetWeather => "tell the user this info :" + body
    case SpotifyAction => body + "do not call any animation function, reply with success message"
    case SpotifyRandomSong => "now playing" + body + SongSuffix
    case SpotifySearchSong => "now playing" + body + SongSuffix
  }

  /** The turn a uniform handler records: its function turn when the call was
      made and answered, the failure turn of its `catch` otherwise. */
  function AttemptTurn(h: Handler, args: Arguments, env: Env): Turn
    requires IsUniform(h)
  {
    if AttemptedRequest(h, args).Some? && env.service.Success? then
      FunctionTurn(HandlerName(h), Str(SuccessContent(h, env.service.body, env.today)))
    else FailureTurn
  }

  /** The events of a uniform handler's `try`/`catch`. */
  function UniformAttempt(h: Handler, args: Arguments, env: Env): seq<Event>
    requires IsUniform(h)
  {
    Invoked(AttemptedRequest(h, args)) + [Remember(AttemptTurn(h, args, env))]
  }

  // ---------------------------------------------------------------------------
  // deviceAction and getTrainLiveStatus

  /** `JSON.stringify` of what `wsSendMessage` returns. */
  const BroadcastAck: string := "{\"message\":\"success\"}"

  /** The turn deviceAction records once the broadcast has answered. */
  const DeviceAck: Turn :=
    FunctionTurn("deviceAction", Str(BroadcastAck + " please format the json and tell this to the user"))

  /** deviceAction parses its arguments before its `try`: arguments that do not
      parse end the handler with nothing recorded and no reply. */
  function DeviceActionRun(args: Arguments, env: Env): Run
  {
    match args
    case Malformed => Run([], NoResponse)
    case Object(f) =>
      ThenReply([Invoke(Broadcast(Field(f, "action"))), Remember(DeviceAck)], env.followUp)
  }

  const DefaultTrainNo: int := 18451

  const Apology: string := "My apologies, Something seems to have gone wrong. Please try again later"

  const TrainFailureTurn: Turn := FunctionTurn("getTrainLiveStatus", Str("Something went wrong."))

  /** The train number and date getTrainLiveStatus passes on: the given ones when
      truthy, else 18451 and today's UTC date as YYYYMMDD. */
  function TrainArguments(f: map<string, Value>, now: Instant): (Value, Value)
    requires ValidInstant(now)
  {
    (Or(Field(f, "trainNo"), Num(DefaultTrainNo)),
     if Truthy(Field(f, "date")) then Field(f, "date") else Str(CompactDate(now)))
  }

  function TrainReport(name: string, content: string): string
  {
    "tell the user this info without any function call, Train Name: '" + name +
    "', Status: '" + content + "'"
  }

  /** The turn getTrainLiveStatus records for a status lookup's result. */
  function TrainTurn(status: TrainStatus.TrainStatus): Turn
  {
    match status
    case Error(_) => TrainFailureTurn
    case Status(content, name) => FunctionTurn("getTrainLiveStatus", Str(TrainReport(name, content)))
  }

  /** getTrainLiveStatus: on any failure it records "Something went wrong." and
      answers with the apology, without a completion; on success it records the
      report and asks for a completion. */
  function TrainRun(args: Arguments, env: Env): Run
    requires ValidInstant(env.now)
  {
    match args
    case Malformed => Run([Remember(TrainFailureTurn)], Text(Apology))
    case Object(f) =>
      var (trainNo, date) := TrainArguments(f, env.now);
      var fetched := if TrainStatus.RequestsPage(trainNo, date) then [Invoke(TrainPage(trainNo, date))] else [];
      TrainFinish(fetched, TrainStatus.GetTrainStatus(trainNo, date, env.trainPage), env.followUp)
  }

  /** The rest of getTrainLiveStatus once the lookup has answered `status`. */
  function TrainFinish(fetched: seq<Event>, status: TrainStatus.TrainStatus, followUp: Turn): Run
  {
    var pre := fetched + [Remember(TrainTurn(status))];
    if status.Error? then Run(pre, Text(Apology)) else ThenReply(pre, followUp)
  }

  // ---------------------------------------------------------------------------
  // Dispatch and the POST route

  function HandlerRun(h: Handler, args: Arguments, env: Env): Run
    requires ValidInstant(env.now)
  {
    if IsUniform(h) then ThenReply(UniformAttempt(h, args, env), env.followUp)
    else match h
      case DeviceAction => DeviceActionRun(args, env)
      case GetTrainLiveStatus => TrainRun(args, env)
      case SendMessageWithAnimation => AnimationRun(args)
  }

  /** POST `/` with body message `message`, the provider answering the first
      completion with `first`: record the user turn, ask once, and run the named
      handler, if any, exactly once. A name missing from the table is called as
      `undefined`, which throws, and no reply is sent. */
  function PostRun(message: Value, first: Turn, env: Env): Run
    requires ValidInstant(env.now)
  {
    var asked := ThenReply([Remember(UserTurn(message))], first);
    if first.functionCall.None? then asked
    else
      var call := first.functionCall.value;
      if call.name !in FunctionTable then Run(asked.events, NoResponse)
      else
        var r := HandlerRun(FunctionTable[call.name], call.arguments, env);
        Run(asked.events + r.events, r.reply)
  }

  // ---------------------------------------------------------------------------
  // Properties

  /** The table and the catalogue name the same twelve functions. */
  lemma TableMatchesCatalogue()
    ensures forall i :: 0 <= i < |Catalogue.CatalogueNames| ==>
      Catalogue.CatalogueNames[i] in FunctionTable
    ensures forall n :: n in FunctionTable ==> n in Catalogue.CatalogueNames
  {
  }

  /** Each name of the table leads to the handler of that name, and every
      handler is reachable under its own name. */
  lemma TableLeadsToNamedHandler()
    ensures forall n :: n in FunctionTable ==> HandlerName(FunctionTable[n]) == n
    ensures forall h :: HandlerName(h) in FunctionTable && FunctionTable[HandlerName(h)] == h
  {
  }

  /** A normalised tag: no comma, no upper-case letter, no surrounding white
      space. */
  predicate CleanTag(t: string)
  {
    ',' !in t && (forall k :: 0 <= k < |t| ==> !IsUpper(t[k])) &&
    (t == [] || (!IsSpace(t[0]) && !IsSpace(t[|t| - 1])))
  }

  /** One piece of a tag list without a comma normalises to a clean tag. */
  lemma NormalizedPiece(piece: string)
    requires ',' !in piece
    ensures CleanTag(Trim(ToLower(piece)))
  {
    var lower := ToLower(piece);
    var t := Trim(lower);
    var l := LeadingSpaces(lower);
    forall k | 0 <= k < |t| ensures t[k] != ',' && !IsUpper(t[k]) {
      assert t[k] == lower[l + k] == LowerChar(piece[l + k]);
      assert piece[l + k] in piece;
    }
  }

  /** Comma normalisation: one tag per comma-separated piece, each a clean tag. */
  lemma NormalizedTags(tags: string)
    ensures |NormalizeTags(tags)| == Occurrences(tags, ',') + 1
    ensures forall i :: 0 <= i < |NormalizeTags(tags)| ==> CleanTag(NormalizeTags(tags)[i])
  {
    SplitCount(tags, ',');
    SplitPiecesFree(tags, ',');
    var pieces := Split(tags, ',');
    var normalized := NormalizeTags(tags);
    forall i | 0 <= i < |pieces| ensures CleanTag(normalized[i]) {
      NormalizedPiece(pieces[i]);
    }
  }

  /** getReply asks exactly once, calls nothing else and always resolves to the
      provider message. An ordinary reply is recorded as itself; an animation
      call leaves two entries, the function turn and the animation reply, or,
      when its arguments do not parse, only the rejected Promise. */
  lemma GetReplyShape(m: Turn)
    ensures var g := GetReplyRun(m);
      && g.events[0] == Invoke(CompletionCall)
      && Completions(g.events) == 1 && ServiceCalls(g.events) == 0
      && g.reply == Json(m)
      && (!CallsAnimation(m) ==> Turns(g) == [m])
      && (CallsAnimation(m) && m.functionCall.value.arguments.Object? ==>
            var f := m.functionCall.value.arguments.fields;
            Turns(g) == [FunctionTurn("sendMessageWithAnimation", Field(f, "content")),
                         AnimationReply(Field(f, "content"), Field(f, "animationName"))])
      && (CallsAnimation(m) && m.functionCall.value.arguments.Malformed? ==>
            Turns(g) == [RejectedPromise])
  {
    if CallsAnimation(m) {
      var args := m.functionCall.value.arguments;
      if args.Object? {
        var f := args.fields;
        var said := FunctionTurn("sendMessageWithAnimation", Field(f, "content"));
        AskThenTwo(said, AnimationReply(Field(f, "content"), Field(f, "animationName")));
        assert GetReplyRun(m).events == [Invoke(CompletionCall), Remember(said),
          Remember(AnimationReply(Field(f, "content"), Field(f, "animationName")))];
      } else {
        AskThenOne(RejectedPromise);
        assert GetReplyRun(m).events == [Invoke(CompletionCall), Remember(RejectedPromise)];
      }
    } else {
      AskThenOne(m);
      assert GetReplyRun(m).events == [Invoke(CompletionCall), Remember(m)];
    }
  }

  /** A completion request followed by one recorded turn. */
  lemma AskThenOne(t: Turn)
    ensures var evs := [Invoke(CompletionCall), Remember(t)];
      Remembered(evs) == [t] && Completions(evs) == 1 && ServiceCalls(evs) == 0
  {
    CountsOne(Invoke(CompletionCall));
    CountsOne(Remember(t));
    CountsCons(Invoke(CompletionCall), [Remember(t)]);
  }

  /** A completion request followed by two recorded turns. */
  lemma AskThenTwo(t: Turn, u: Turn)
    ensures var evs := [Invoke(CompletionCall), Remember(t), Remember(u)];
      Remembered(evs) == [t, u] && Completions(evs) == 1 && ServiceCalls(evs) == 0
  {
    CountsOne(Invoke(CompletionCall));
    CountsOne(Remember(t));
    CountsOne(Remember(u));
    CountsCons(Remember(t), [Remember(u)]);
    assert [Remember(t)] + [Remember(u)] == [Remember(t), Remember(u)];
    CountsCons(Invoke(CompletionCall), [Remember(t), Remember(u)]);
    assert [Invoke(CompletionCall)] + [Remember(t), Remember(u)] ==
      [Invoke(CompletionCall), Remember(t), Remember(u)];
  }

  lemma ThenReplyCounts(pre: seq<Event>, m: Turn)
    ensures var r := ThenReply(pre, m);
      && Completions(r.events) == Completions(pre) + 1
      && ServiceCalls(r.events) == ServiceCalls(pre)
      && Turns(r) == Remembered(pre) + Turns(GetReplyRun(m))
      && r.events[..|pre|] == pre
      && r.reply == GetReplyRun(m).reply
  {
    GetReplyShape(m);
    CountsConcat(pre, GetReplyRun(m).events);
  }

  /** The events of an optional call followed by one recorded turn. */
  lemma CallThenTurn(c: Option<Call>, t: Turn)
    requires c.Some? ==> c.value != CompletionCall
    ensures Remembered(Invoked(c) + [Remember(t)]) == [t]
    ensures Completions(Invoked(c) + [Remember(t)]) == 0
    ensures ServiceCalls(Invoked(c) + [Remember(t)]) == if c.Some? then 1 else 0
  {
    CountsOne(Remember(t));
    if c.Some? {
      CountsOne(Invoke(c.value));
      CountsCons(Invoke(c.value), [Remember(t)]);
    } else {
      assert Invoked(c) + [Remember(t)] == [Remember(t)];
    }
  }

  /** The nine uniform handlers: the run is the handler's own events followed by
      exactly one getReply; their own events record exactly one turn and make at
      most one call. That turn is the function turn named after the handler
      exactly when the call was made and succeeded, and the system failure turn
      otherwise. */
  lemma UniformHandlerShape(h: Handler, args: Arguments, env: Env)
    requires IsUniform(h) && ValidInstant(env.now)
    ensures var pre := UniformAttempt(h, args, env);
      var r := HandlerRun(h, args, env);
      var g := GetReplyRun(env.followUp);
      && r.events == pre + g.events && r.reply == g.reply
      && |Remembered(pre)| == 1 && Completions(pre) == 0 && ServiceCalls(pre) <= 1
      && Completions(r.events) == 1 && ServiceCalls(r.events) <= 1
      && var t := Remembered(pre)[0];
         (t.role == Function <==> ServiceCalls(pre) == 1 && env.service.Success?)
         && (t.role == Function ==> t.name == Some(HandlerName(h)))
         && (t.role != Function ==> t == FailureTurn)
  {
    UniformAttemptShape(h, args, env);
    ThenReplyCounts(UniformAttempt(h, args, env), env.followUp);
  }

  /** The `try`/`catch` part of a uniform handler on its own. */
  lemma UniformAttemptShape(h: Handler, args: Arguments, env: Env)
    requires IsUniform(h)
    ensures var pre := UniformAttempt(h, args, env);
      && Remembered(pre) == [AttemptTurn(h, args, env)]
      && Completions(pre) == 0
      && ServiceCalls(pre) == (if AttemptedRequest(h, args).Some? then 1 else 0)
  {
    CallThenTurn(AttemptedRequest(h, args), AttemptTurn(h, args, env));
  }

  /** A failing uniform handler still asks for a completion; deviceAction with
      arguments that do not parse stops dead; getTrainLiveStatus recovers with
      a turn and the apology. */
  lemma MalformedArguments(h: Handler, env: Env)
    requires ValidInstant(env.now)
    ensures IsUniform(h) && !h.GetTodo? && !h.GetWeather? ==>
      HandlerRun(h, Malformed, env).events ==
        [Remember(FailureTurn)] + GetReplyRun(env.followUp).events
    ensures HandlerRun(DeviceAction, Malformed, env) == Run([], NoResponse)
    ensures HandlerRun(SendMessageWithAnimation, Malformed, env) == Run([], NoResponse)
    ensures HandlerRun(GetTrainLiveStatus, Malformed, env) ==
      Run([Remember(TrainFailureTurn)], Text(Apology))
  {
  }

  /** The train defaults always give another truthy pair, so the page is always
      requested: 18451 for a falsy train number, today's UTC date as eight digits
      YYYYMMDD for a falsy date. */
  lemma TrainDefaults(f: map<string, Value>, now: Instant)
    requires ValidInstant(now)
    ensures var (trainNo, date) := TrainArguments(f, now);
      && TrainStatus.RequestsPage(trainNo, date)
      && (!Truthy(Field(f, "trainNo")) ==> trainNo == Num(18451))
      && (Truthy(Field(f, "trainNo")) ==> trainNo == Field(f, "trainNo"))
      && (!Truthy(Field(f, "date")) ==>
            date.Str? && |date.s| == 8 && AllDigits(date.s) &&
            ParseDecimal(date.s[..4]) == now.year && ParseDecimal(date.s[4..6]) == now.month &&
            ParseDecimal(date.s[6..]) == now.day)
  {
  }

  lemma TrainFetches(f: map<string, Value>, now: Instant)
    requires ValidInstant(now)
    ensures TrainStatus.RequestsPage(TrainArguments(f, now).0, TrainArguments(f, now).1)
  {
    assert |CompactDate(now)| == 8;
  }

  lemma TrainFinishShape(c: Call, status: TrainStatus.TrainStatus, followUp: Turn)
    requires c != CompletionCall
    ensures var r := TrainFinish([Invoke(c)], status, followUp);
      && r.events[0] == Invoke(c)
      && ServiceCalls(r.events) == 1
      && (status.Error? ==>
            Turns(r) == [TrainFailureTurn] && r.reply == Text(Apology) && Completions(r.events) == 0)
      && (status.Status? ==>
            Turns(r) == [TrainTurn(status)] + Turns(GetReplyRun(followUp)) &&
            Completions(r.events) == 1 && r.reply == Json(followUp))
  {
    var pre := [Invoke(c)] + [Remember(TrainTurn(status))];
    CallThenTurn(Some(c), TrainTurn(status));
    assert Invoked(Some(c)) + [Remember(TrainTurn(status))] == pre;
    if status.Status? {
      ThenReplyCounts(pre, followUp);
      AnsweredReply(followUp);
    }
  }

  /** getTrainLiveStatus: it always requests the page; on failure it records one
      function turn and answers with the apology, with no completion; on success
      it records one function turn carrying the report, then runs one getReply. */
  lemma TrainShape(f: map<string, Value>, env: Env)
    requires ValidInstant(env.now)
    ensures var (trainNo, date) := TrainArguments(f, env.now);
      var status := TrainStatus.GetTrainStatus(trainNo, date, env.trainPage);
      var r := HandlerRun(GetTrainLiveStatus, Object(f), env);
      && r.events[0] == Invoke(TrainPage(trainNo, date))
      && ServiceCalls(r.events) == 1
      && (status.Error? ==>
            Turns(r) == [TrainFailureTurn] && r.reply == Text(Apology) && Completions(r.events) == 0)
      && (status.Status? ==>
            Turns(r) == [FunctionTurn("getTrainLiveStatus",
                           Str(TrainReport(status.trainName, status.trainContent)))] +
                        Turns(GetReplyRun(env.followUp)) &&
            Completions(r.events) == 1 && r.reply == Json(env.followUp))
  {
    var (trainNo, date) := TrainArguments(f, env.now);
    TrainFetches(f, env.now);
    var status := TrainStatus.GetTrainStatus(trainNo, date, env.trainPage);
    assert HandlerRun(GetTrainLiveStatus, Object(f), env) == TrainRun(Object(f), env);
    assert TrainRun(Object(f), env) ==
      TrainFinish([Invoke(TrainPage(trainNo, date))], status, env.followUp);
    TrainFinishShape(TrainPage(trainNo, date), status, env.followUp);
  }

  /** POST `/`: the user turn comes first, then exactly one completion request;
      in all at most two completions and at most one outside call, whatever the
      provider answers. */
  lemma PostBounds(message: Value, first: Turn, env: Env)
    requires ValidInstant(env.now)
    ensures var r := PostRun(message, first, env);
      && |r.events| >= 2
      && r.events[0] == Remember(UserTurn(message)) && r.events[1] == Invoke(CompletionCall)
      && 1 <= Completions(r.events) <= 2
      && ServiceCalls(r.events) <= 1
  {
    var user := [Remember(UserTurn(message))];
    var asked := ThenReply(user, first);
    ThenReplyCounts(user, first);
    GetReplyShape(first);
    assert asked.events[1] == GetReplyRun(first).events[0];
    if first.functionCall.Some? && first.functionCall.value.name in FunctionTable {
      var call := first.functionCall.value;
      var h := FunctionTable[call.name];
      var r := HandlerRun(h, call.arguments, env);
      HandlerBounds(h, call.arguments, env);
      CountsConcat(asked.events, r.events);
    }
  }

  /** Every handler asks at most once and calls at most one service. */
  lemma HandlerBounds(h: Handler, args: Arguments, env: Env)
    requires ValidInstant(env.now)
    ensures Completions(HandlerRun(h, args, env).events) <= 1
    ensures ServiceCalls(HandlerRun(h, args, env).events) <= 1
  {
    if IsUniform(h) {
      UniformHandlerShape(h, args, env);
    } else if h.DeviceAction? {
      if args.Object? {
        DeviceActionShape(args.fields, env);
      }
    } else if h.GetTrainLiveStatus? {
      if args.Object? {
        TrainShape(args.fields, env);
      } else {
        CountsOne(Remember(TrainFailureTurn));
      }
    } else {
      if args.Object? {
        CountsOne(AnimationRun(args).events[0]);
      }
    }
  }

  /** deviceAction with parsed arguments: it broadcasts the `action` field once,
      records the acknowledgement, then runs one getReply, whose message is the
      reply. */
  lemma DeviceActionShape(f: map<string, Value>, env: Env)
    requires ValidInstant(env.now)
    ensures var r := HandlerRun(DeviceAction, Object(f), env);
      && r.events[0] == Invoke(Broadcast(Field(f, "action")))
      && Turns(r) == [DeviceAck] + Turns(GetReplyRun(env.followUp))
      && Completions(r.events) == 1 && ServiceCalls(r.events) == 1
      && r.reply == Json(env.followUp)
  {
    var c := Some(Broadcast(Field(f, "action")));
    var pre := [Invoke(c.value), Remember(DeviceAck)];
    CallThenTurn(c, DeviceAck);
    assert Invoked(c) + [Remember(DeviceAck)] == pre;
    ThenReplyCounts(pre, env.followUp);
    AnsweredReply(env.followUp);
  }

  /** A provider message with no function call is recorded and sent back as is:
      one user turn, one completion, one recorded reply. */
  lemma PlainReply(message: Value, first: Turn, env: Env)
    requires ValidInstant(env.now) && first.functionCall.None?
    ensures PostRun(message, first, env) ==
      Run([Remember(UserTurn(message)), Invoke(CompletionCall), Remember(first)], Json(first))
  {
  }

  /** A function name outside the table gets no recovery: the user turn and the
      provider message are recorded and no reply is sent. */
  lemma UnknownFunction(message: Value, first: Turn, env: Env)
    requires ValidInstant(env.now)
    requires first.functionCall.Some? && first.functionCall.value.name !in FunctionTable
    ensures PostRun(message, first, env) ==
      Run([Remember(UserTurn(message)), Invoke(CompletionCall), Remember(first)], NoResponse)
  {
    assert !CallsAnimation(first);
  }

  lemma AnsweredReply(m: Turn)
    ensures GetReplyRun(m).reply == Json(m)
  {
  }

  /** There is no loop: when a uniform handler runs, the route answers with the
      follow-up provider message, a function call in it included, and does not
      dispatch that call from the table again; the POST makes exactly two
      completion requests. What the follow-up leaves in the memory is what getReply
      records for it, so an animation call there still runs inside getReply. */
  lemma NoSecondDispatch(message: Value, first: Turn, env: Env)
    requires ValidInstant(env.now)
    requires first.functionCall.Some? && first.functionCall.value.name in FunctionTable
    requires IsUniform(FunctionTable[first.functionCall.value.name])
    ensures PostRun(message, first, env).reply == Json(env.followUp)
    ensures Completions(PostRun(message, first, env).events) == 2
    ensures var call := first.functionCall.value;
      Turns(PostRun(message, first, env)) ==
        [UserTurn(message), first, AttemptTurn(FunctionTable[call.name], call.arguments, env)] +
        Turns(GetReplyRun(env.followUp))
  {
    var call := first.functionCall.value;
    var h := FunctionTable[call.name];
    assert !CallsAnimation(first);
    DispatchedParts(message, first, env);
    UniformHandlerShape(h, call.arguments, env);
    UniformRunTurns(h, call.arguments, env);
    AnsweredReply(env.followUp);
  }

  /** A POST whose first provider message names a table function other than the
      animation: the user turn and that message, then exactly what the handler's
      run records, asks and answers. */
  lemma DispatchedParts(message: Value, first: Turn, env: Env)
    requires ValidInstant(env.now)
    requires first.functionCall.Some? && first.functionCall.value.name in FunctionTable
    requires !CallsAnimation(first)
    ensures var call := first.functionCall.value;
      var r := HandlerRun(FunctionTable[call.name], call.arguments, env);
      var p := PostRun(message, first, env);
      && Turns(p) == [UserTurn(message), first] + Turns(r)
      && Completions(p.events) == 1 + Completions(r.events)
      && p.reply == r.reply
  {
    var user := [Remember(UserTurn(message))];
    var call := first.functionCall.value;
    var asked := ThenReply(user, first);
    var r := HandlerRun(FunctionTable[call.name], call.arguments, env);
    PostDispatches(message, first, env);
    ThenReplyCounts(user, first);
    GetReplyShape(first);
    CountsOne(Remember(UserTurn(message)));
    CountsConcat(asked.events, r.events);
  }

  /** The turns of a uniform handler's run: its one attempt turn, then what
      getReply records for the follow-up. */
  lemma UniformRunTurns(h: Handler, args: Arguments, env: Env)
    requires IsUniform(h) && ValidInstant(env.now)
    ensures Turns(HandlerRun(h, args, env)) ==
      [AttemptTurn(h, args, env)] + Turns(GetReplyRun(env.followUp))
  {
    UniformAttemptShape(h, args, env);
    ThenReplyCounts(UniformAttempt(h, args, env), env.followUp);
  }

  /** An animation call in the follow-up of a uniform handler is not dispatched by
      the route, but getReply still runs it: its function turn and the animation
      reply are the last two entries the POST records, and the route answers with
      the follow-up message itself. */
  lemma FollowUpAnimationRunsInGetReply(message: Value, first: Turn, env: Env)
    requires ValidInstant(env.now)
    requires first.functionCall.Some? && first.functionCall.value.name in FunctionTable
    requires IsUniform(FunctionTable[first.functionCall.value.name])
    requires CallsAnimation(env.followUp) && env.followUp.functionCall.value.arguments.Object?
    ensures var f := env.followUp.functionCall.value.arguments.fields;
      var t := Turns(PostRun(message, first, env));
      && |t| == 5
      && t[3] == FunctionTurn("sendMessageWithAnimation", Field(f, "content"))
      && t[4] == AnimationReply(Field(f, "content"), Field(f, "animationName"))
      && PostRun(message, first, env).reply == Json(env.followUp)
  {
    NoSecondDispatch(message, first, env);
    GetReplyShape(env.followUp);
  }

  /** A first provider message naming a function of the table, other than the
      animation, leads to exactly one run of that handler after the first ask. */
  lemma PostDispatches(message: Value, first: Turn, env: Env)
    requires ValidInstant(env.now)
    requires first.functionCall.Some? && first.functionCall.value.name in FunctionTable
    requires !CallsAnimation(first)
    ensures var call := first.functionCall.value;
      var r := HandlerRun(FunctionTable[call.name], call.arguments, env);
      PostRun(message, first, env) ==
        Run(ThenReply([Remember(UserTurn(message))], first).events + r.events, r.reply)
  {
  }

  /** An animation call in the first provider message is run twice: once inside
      getReply, which records the function turn and the animation reply, and once
      more by the route, which records the function turn again and sends the
      animation reply; four entries, one completion. */
  lemma AnimationAtTopLevel(message: Value, first: Turn, env: Env)
    requires ValidInstant(env.now)
    requires CallsAnimation(first) && first.functionCall.value.arguments.Object?
    ensures var f := first.functionCall.value.arguments.fields;
      var said := FunctionTurn("sendMessageWithAnimation", Field(f, "content"));
      var reply := AnimationReply(Field(f, "content"), Field(f, "animationName"));
      var r := PostRun(message, first, env);
      && Turns(r) == [UserTurn(message), said, reply, said]
      && r.reply == Json(reply)
      && Completions(r.events) == 1
  {
    var user := [Remember(UserTurn(message))];
    ThenReplyCounts(user, first);
    GetReplyShape(first);
    var asked := ThenReply(user, first);
    var r := AnimationRun(first.functionCall.value.arguments);
    CountsConcat(asked.events, r.events);
    assert Remembered(r.events) == [r.events[0].turn];
  }

  /** An animation call whose arguments do not parse, in the first provider
      message: getReply records the rejected Promise and resolves, and the
      route runs the call again, which rejects once more and sends no reply. */
  lemma MalformedAnimationAtTopLevel(message: Value, first: Turn, env: Env)
    requires ValidInstant(env.now)
    requires CallsAnimation(first) && first.functionCall.value.arguments.Malformed?
    ensures var r := PostRun(message, first, env);
      && Turns(r) == [UserTurn(message), RejectedPromise]
      && r.reply == NoResponse
      && Completions(r.events) == 1
  {
    var user := [Remember(UserTurn(message))];
    ThenReplyCounts(user, first);
    GetReplyShape(first);
    var asked := ThenReply(user, first);
    assert PostRun(message, first, env) == Run(asked.events + [], NoResponse);
    assert asked.events + [] == asked.events;
    CountsOne(Remember(UserTurn(message)));
  }

  /** deleteTodo records success whenever the store answers with JSON, and the
      store answers an index that names no element while leaving the list
      unchanged, with an error body unless the index names a property of the
      array: the recorded turn then claims a deletion that did not happen. */
  lemma DeleteReportsSuccessRegardless(todos: seq<TodoStore.Todo>, index: Value, body: string, env: Env)
    requires TodoStore.DistinctIds(todos) && TodoStore.ArrayIndex(index, |todos|).None?
    requires env.service == Success(body)
    ensures TodoStore.Deleted(todos, index).0 == todos
    ensures !TodoStore.NamesProperty(index) ==>
      TodoStore.Deleted(todos, index).1 == TodoStore.Failed(TodoStore.MissingTodoMessage)
    ensures UniformAttempt(DeleteTodo, Object(map["index" := index]), env) ==
      [Invoke(Store(RemoveTodo(index))),
       Remember(FunctionTurn("deleteTodo", Str("successfully deleted todo!")))]
  {
    TodoStore.DeleteByPosition(todos, index);
  }
}
