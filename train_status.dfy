/** `getTrainStatus` of functions/trainStatus.js: check the arguments, fetch the
    live-status page, and cut the status text out of its header card. The page
    fetch and the HTML parsing are abstracted: the page arrives as the text of its
    `.card-header` element and the text of the `h1` inside it. The function never
    throws; every failure is returned as an `{error}` value. */
module TrainStatus {

  import opened Js
  import opened Strings

  /** The parts of the fetched page the function reads. */
  datatype StatusPage = StatusPage(headerText: string, heading: string)

  /** Outcome of `fetch(...)` and `response.text()`. */
  datatype PageFetch = Fetched(page: StatusPage) | Unreachable

  /** What ends up in `{error}`: the thrown argument message, the rejected fetch,
      or the TypeError of reading `.split` of a missing third line. */
  datatype TrainError = InvalidArgument | FetchFailed | MissingStatusLine

  datatype TrainStatus = Status(trainContent: string, trainName: string) | Error(error: TrainError)

  /** The message thrown for a falsy argument, spelled as in the source. */
  const InvalidArgumentMessage: string := "Inavild arguement provided"

  /** The text of what `{error}` holds: the thrown string itself for a refused
      argument; the rejected fetch and the failed `.split` put an Error object
      there instead, which carries no string of its own. */
  function ThrownText(e: TrainError): Option<string>
  {
    if e == InvalidArgument then Some(InvalidArgumentMessage) else None
  }

  /** The page is requested only when both arguments are truthy. */
  predicate RequestsPage(trainNo: Value, date: Value)
  {
    Truthy(trainNo) && Truthy(date)
  }

  /** `statusCard.text().split("\n")[2].split("|")[0]` and the `h1` text. */
  function Extract(page: StatusPage): TrainStatus
  {
    var lines := Split(page.headerText, '\n');
    if |lines| < 3 then Error(MissingStatusLine)
    else Status(Split(lines[2], '|')[0], page.heading)
  }

  function GetTrainStatus(trainNo: Value, date: Value, fetch: PageFetch): TrainStatus
  {
    if !RequestsPage(trainNo, date) then Error(InvalidArgument)
    else match fetch
      case Unreachable => Error(FetchFailed)
      case Fetched(page) => Extract(page)
  }

  /** A falsy train number or date (0 included) is refused whatever the page
      would have been. */
  lemma FalsyArgumentRefused(trainNo: Value, date: Value, fetch: PageFetch)
    requires !Truthy(trainNo) || !Truthy(date)
    ensures GetTrainStatus(trainNo, date, fetch) == Error(InvalidArgument)
    ensures ThrownText(GetTrainStatus(trainNo, date, fetch).error) == Some("Inavild arguement provided")
  {
  }

  /** The status is extracted exactly when the header text has at least three
      lines, that is at least two line breaks. */
  lemma ExtractionNeedsThreeLines(page: StatusPage)
    ensures Extract(page).Status? <==> Occurrences(page.headerText, '\n') >= 2
  {
    SplitCount(page.headerText, '\n');
  }

  /** A status is the third line of the header text up to its first `|`, and the
      train name is the heading text. */
  lemma StatusIsThirdLinePrefix(page: StatusPage)
    requires Extract(page).Status?
    ensures var line := Split(page.headerText, '\n')[2];
      var text := Extract(page).trainContent;
      && Extract(page).trainName == page.heading
      && |text| <= |line| && line[..|text|] == text
      && '|' !in text
      && (|text| == |line| || line[|text|] == '|')
  {
    var line := Split(page.headerText, '\n')[2];
    var pieces := Split(line, '|');
    SplitPiecesFree(line, '|');
    SplitJoin(line, '|');
    if |pieces| > 1 {
      assert Join(pieces, '|') == pieces[0] + ['|'] + Join(pieces[1..], '|');
    } else {
      assert Join(pieces, '|') == pieces[0];
    }
  }

  /** Every outcome that is not a status is an error value, so the caller sees a
      truthy `error` field on every failure path. */
  lemma FailuresAreValues(trainNo: Value, date: Value, fetch: PageFetch)
    ensures match GetTrainStatus(trainNo, date, fetch)
      case Status(_, _) => RequestsPage(trainNo, date) && fetch.Fetched?
      case Error(e) =>
        && (e == InvalidArgument <==> !RequestsPage(trainNo, date))
        && (ThrownText(e).Some? <==> !RequestsPage(trainNo, date))
  {
  }
}
