/** The catalogue of callable functions sent with every completion request
    (utils/openAiConfig.js): each entry's name, its declared parameters and where
    its `required` list sits. Descriptions are prose for the provider and are not
    kept. */
module Catalogue {

  import opened Js

  datatype ParamType = StringType | NumberType

  datatype Property = Property(name: string, kind: ParamType)

  /** The `parameters` object: its `properties` and, optionally, a `required`
      list inside it (the place the provider reads it from). */
  datatype Parameters = Parameters(properties: seq<Property>, required: Option<seq<string>>)

  /** One catalogue entry; `required` here is a list written beside `parameters`
      rather than inside it. */
  datatype Entry = Entry(name: string, parameters: Parameters, required: Option<seq<string>>)

  /** The `model` setting of every completion request. */
  const ModelName: string := "gpt-3.5-turbo"

  const SaveMemory := Entry("saveMemory",
    Parameters([Property("data", StringType), Property("category", StringType),
                Property("tags", StringType)],
               Some(["tags", "data", "category"])),
    None)
  const LoadMemory := Entry("loadMemory",
    Parameters([Property("category", StringType), Property("tags", StringType)],
               Some(["tags", "category"])),
    None)
  const GetTodo := Entry("getTodo", Parameters([Property("count", StringType)], None), None)
  const CreateTodo := Entry("createTodo",
    Parameters([Property("task", StringType), Property("dueDate", StringType)], Some(["task"])),
    None)
  const DeleteTodo := Entry("deleteTodo",
    Parameters([Property("index", NumberType)], Some(["index"])), None)
  const GetWeather := Entry("getWeather", Parameters([Property("count", NumberType)], None), None)
  const SpotifyAction := Entry("spotifyAction",
    Parameters([Property("action", StringType)], None), Some(["action"]))
  const SpotifyRandomSong := Entry("spotifyRandomSong",
    Parameters([Property("genre", StringType)], None), Some(["genre"]))
  const SpotifySearchSong := Entry("spotifySearchSong",
    Parameters([Property("query", StringType)], None), Some(["query"]))
  const DeviceAction := Entry("deviceAction",
    Parameters([Property("action", StringType)], None), Some(["action"]))
  const GetTrainLiveStatus := Entry("getTrainLiveStatus",
    Parameters([Property("trainNo", NumberType), Property("date", NumberType)], None), None)
  const SendMessageWithAnimation := Entry("sendMessageWithAnimation",
    Parameters([Property("content", StringType), Property("animationName", StringType)], None),
    Some(["content", "animationName"]))

  /** The `functions` list, in the order it is written. */
  const Entries: seq<Entry> := [
    SaveMemory, LoadMemory, GetTodo, CreateTodo, DeleteTodo, GetWeather, SpotifyAction,
    SpotifyRandomSong, SpotifySearchSong, DeviceAction, GetTrainLiveStatus,
    SendMessageWithAnimation
  ]

  function Names(entries: seq<Entry>): (names: seq<string>)
    ensures |names| == |entries|
    ensures forall i :: 0 <= i < |entries| ==> names[i] == entries[i].name
  {
    if entries == [] then [] else [entries[0].name] + Names(entries[1..])
  }

  /** Whether one of the properties is declared under `name`. */
  predicate Declares(properties: seq<Property>, name: string)
  {
    properties != [] && (properties[0].name == name || Declares(properties[1..], name))
  }

  /** Every name on the entry's `required` lists, wherever they sit, is a
      declared property. */
  predicate RequiredDeclared(e: Entry)
  {
    var declared := e.parameters.properties;
    (e.parameters.required.Some? ==>
       forall r :: r in e.parameters.required.value ==> Declares(declared, r)) &&
    (e.required.Some? ==> forall r :: r in e.required.value ==> Declares(declared, r))
  }

  predicate Distinct(names: seq<string>)
  {
    forall i, j :: 0 <= i < j < |names| ==> names[i] != names[j]
  }

  /** The catalogue's names in order. */
  const CatalogueNames: seq<string> := [
    "saveMemory", "loadMemory", "getTodo", "createTodo", "deleteTodo", "getWeather",
    "spotifyAction", "spotifyRandomSong", "spotifySearchSong", "deviceAction",
    "getTrainLiveStatus", "sendMessageWithAnimation"
  ]

  /** Where a name stands in `CatalogueNames`, or -1. */
  ghost function Position(name: string): int
  {
    if name == "saveMemory" then 0 else if name == "loadMemory" then 1
    else if name == "getTodo" then 2 else if name == "createTodo" then 3
    else if name == "deleteTodo" then 4 else if name == "getWeather" then 5
    else if name == "spotifyAction" then 6 else if name == "spotifyRandomSong" then 7
    else if name == "spotifySearchSong" then 8 else if name == "deviceAction" then 9
    else if name == "getTrainLiveStatus" then 10
    else if name == "sendMessageWithAnimation" then 11 else -1
  }

  lemma NamesInOrder()
    ensures Names(Entries) == CatalogueNames
  {
    var names := Names(Entries);
    assert names == [SaveMemory.name, LoadMemory.name, GetTodo.name, CreateTodo.name,
      DeleteTodo.name, GetWeather.name, SpotifyAction.name, SpotifyRandomSong.name,
      SpotifySearchSong.name, DeviceAction.name, GetTrainLiveStatus.name,
      SendMessageWithAnimation.name];
  }

  /** Twelve entries with pairwise distinct names. */
  lemma TwelveDistinctNames()
    ensures |Entries| == 12
    ensures Distinct(Names(Entries))
  {
    NamesInOrder();
    forall i | 0 <= i < 12 ensures Position(CatalogueNames[i]) == i { }
  }

  /** Wherever a `required` list sits, inside `parameters` or beside it, every
      name on it is a declared property. */
  lemma RequiredAreDeclared()
    ensures forall i :: 0 <= i < |Entries| ==> RequiredDeclared(Entries[i])
  {
    assert RequiredDeclared(SaveMemory);
    assert RequiredDeclared(LoadMemory);
    assert RequiredDeclared(CreateTodo);
    assert RequiredDeclared(DeleteTodo);
    assert RequiredDeclared(SpotifyAction);
    assert RequiredDeclared(SpotifyRandomSong);
    assert RequiredDeclared(SpotifySearchSong);
    assert RequiredDeclared(DeviceAction);
    assert RequiredDeclared(SendMessageWithAnimation);
  }

  /** The entries that carry a `required` list inside `parameters` are saveMemory,
      loadMemory, createTodo and deleteTodo; five carry it beside `parameters`;
      getTodo, getWeather and getTrainLiveStatus carry none. */
  lemma RequiredPlacement()
    ensures forall i :: 0 <= i < |Entries| ==>
      (Entries[i].parameters.required.Some? <==> i in {0, 1, 3, 4})
    ensures forall i :: 0 <= i < |Entries| ==>
      (Entries[i].required.Some? <==> i in {6, 7, 8, 9, 11})
    ensures forall i :: 0 <= i < |Entries| ==>
      (Entries[i].parameters.required.None? && Entries[i].required.None? <==> i in {2, 5, 10})
    ensures forall i :: 0 <= i < |Entries| ==> Entries[i].name == CatalogueNames[i]
  {
    NamesInOrder();
  }
}
