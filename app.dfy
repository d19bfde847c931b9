/**
 * The page: its five state fields, the stream it listens to, and the
 * handlers that change them — the URL box, `resetAll`, `handleDownload`,
 * the stream's `onmessage` and the end of the download request.
 *
 * The page shows percentages in tenths, like the relay. A message is what
 * `JSON.parse(event.data)` produced, reduced to the three fields the handler
 * looks at; `Unparseable` is a frame `JSON.parse` rejects.
 */
module App {
  import opened Wrappers
  import opened Text
  import opened Events
  import opened Channel
  import opened Download

  datatype Message =
    | Unparseable
    | Data(error: Option<string>, progress: Option<int>, time: Option<string>)

  /** The page's fields, and whether its `EventSource` is open. */
  datatype Page = Page(
    url: string,
    progress: int,
    timeTaken: Option<string>,
    loading: bool,
    error: Option<string>,
    streamOpen: bool)

  /** The message the fetch failure throws when the response is not OK. */
  const NotOkMessage := "Download failed for this link"

  /** How the download request ended. */
  datatype FetchResult =
    | Ok                         // a response with an OK status: the file is saved
    | NotOk                      // a response with an error status
    | Rejected(message: string)  // `fetch` or `blob` failed with this message

  /** A text field is truthy: present and not empty. */
  predicate TextTruthy(x: Option<string>) {
    x.Some? && x.value != ""
  }

  /** A number field is truthy: present and not zero. */
  predicate NumberTruthy(x: Option<int>) {
    x.Some? && x.value != 0
  }

  /** The fields as `useState` initialises them, with no stream yet. */
  function Initial(): Page {
    Page("", 0, None, false, None, false)
  }

  /** `resetAll`: every field back to its initial value; the stream is left as it is. */
  function Reset(p: Page): (r: Page)
    ensures r.url == "" && r.progress == 0 && r.timeTaken.None? && !r.loading && r.error.None?
    ensures r.streamOpen == p.streamOpen
  {
    Initial().(streamOpen := p.streamOpen)
  }

  /**
   * `handleDownload`: a URL made only of white space changes nothing;
   * otherwise the page starts loading from zero, clears the error and opens
   * a stream, keeping the URL and the time taken.
   */
  function Start(p: Page): (r: Page)
    ensures Blank(p.url) ==> r == p
    ensures !Blank(p.url) ==>
      && r.loading && r.progress == 0 && r.error.None? && r.streamOpen
      && r.url == p.url && r.timeTaken == p.timeTaken
  {
    if Trim(p.url) == [] then p
    else p.(loading := true, progress := 0, error := None, streamOpen := true)
  }

  /**
   * `onmessage`: what one message does to the page. No message changes the
   * URL, opens the stream or starts loading, and an error shown anew is the
   * message's own.
   */
  function Receive(p: Page, m: Message): (r: Page)
    ensures r.url == p.url
    ensures r.streamOpen ==> p.streamOpen
    ensures r.loading ==> p.loading
    ensures r.error != p.error ==> m.Data? && r.error == m.error
  {
    match m
    case Unparseable => p
    case Data(error, progress, time) =>
      if TextTruthy(error) then
        p.(error := error, loading := false, streamOpen := false)
      else
        var q := if NumberTruthy(progress) then p.(progress := progress.value) else p;
        if TextTruthy(time) then q.(streamOpen := false, timeTaken := time, loading := false) else q
  }

  /**
   * The `then`/`catch` chain of the download request. It never changes the
   * URL, the progress or the time taken; a failure sets an error, stops
   * loading and closes the stream.
   */
  function FetchSettled(p: Page, r: FetchResult): (q: Page)
    ensures q.url == p.url && q.progress == p.progress && q.timeTaken == p.timeTaken
    ensures !r.Ok? ==> q.error.Some? && !q.loading && !q.streamOpen
  {
    match r
    case Ok => p
    case NotOk => p.(error := Some(NotOkMessage), loading := false, streamOpen := false)
    case Rejected(message) => p.(error := Some(message), loading := false, streamOpen := false)
  }

  /**
   * A closed `EventSource` delivers nothing more. Delivery keeps the URL,
   * never reopens the stream and never starts loading.
   */
  function Deliver(p: Page, m: Message): (r: Page)
    ensures r.url == p.url && (r.streamOpen ==> p.streamOpen) && (r.loading ==> p.loading)
  {
    if p.streamOpen then Receive(p, m) else p
  }

  /**
   * The page after the stream has offered `ms`, in order. However many
   * frames arrive, the URL is kept, a closed stream stays closed and a
   * stopped download does not resume loading.
   */
  function Delivered(p: Page, ms: seq<Message>): (r: Page)
    ensures r.url == p.url && (r.streamOpen ==> p.streamOpen) && (r.loading ==> p.loading)
  {
    if ms == [] then p else Deliver(Delivered(p, ms[..|ms| - 1]), ms[|ms| - 1])
  }

  /** The object `JSON.parse` gives for the payload of an event, as the handler sees it. */
  function MessageOf(e: Event): Message {
    match e
    case Progress(t) => Data(None, Some(t), None)
    case Failure(m) => Data(Some(m), None, None)
    case Completed(t) => Data(None, Some(CompletedTenths), Some(t))
  }

  /** What the handler receives for one frame of the relay. */
  function Parse(frame: string): Message {
    match ReadFrame(frame)
    case Some(e) => MessageOf(e)
    case None => Unparseable
  }

  /**
   * The page's state as fields that the handlers update in place. Each
   * method is specified by the pure transition of the same handler above,
   * which is the reference the lemmas below reason about.
   */
  class Ui {
    var url: string
    var progress: int
    var timeTaken: Option<string>
    var loading: bool
    var error: Option<string>
    var streamOpen: bool

    function State(): Page
      reads this
    {
      Page(url, progress, timeTaken, loading, error, streamOpen)
    }

    constructor ()
      ensures State() == Initial()
    {
      url := "";
      progress := 0;
      timeTaken := None;
      loading := false;
      error := None;
      streamOpen := false;
    }

    /** The input's `onChange`. */
    method Edit(text: string)
      modifies this
      ensures State() == old(State()).(url := text)
    {
      url := text;
    }

    method ResetAll()
      modifies this
      ensures State() == Reset(old(State()))
    {
      url := "";
      progress := 0;
      timeTaken := None;
      loading := false;
      error := None;
    }

    /** Returns whether a download was started (otherwise the page alerts). */
    method HandleDownload() returns (started: bool)
      modifies this
      ensures started <==> Trim(old(url)) != []
      ensures State() == Start(old(State()))
    {
      if Trim(url) == [] {
        return false;
      }
      loading := true;
      progress := 0;
      error := None;
      streamOpen := true;
      started := true;
    }

    /** `onmessage` of the open `EventSource`; a closed one delivers nothing. */
    method OnMessage(m: Message)
      requires streamOpen
      modifies this
      ensures State() == Receive(old(State()), m)
    {
      match m
      case Unparseable =>
      case Data(e, p, t) =>
        if TextTruthy(e) {
          error := e;
          loading := false;
          streamOpen := false;
          return;
        }
        if NumberTruthy(p) {
          progress := p.value;
        }
        if TextTruthy(t) {
          streamOpen := false;
          timeTaken := t;
          loading := false;
        }
    }

    method OnFetchSettled(r: FetchResult)
      modifies this
      ensures State() == FetchSettled(old(State()), r)
    {
      match r
      case Ok =>
      case NotOk =>
        error := Some(NotOkMessage);
        loading := false;
        streamOpen := false;
      case Rejected(message) =>
        error := Some(message);
        loading := false;
        streamOpen := false;
    }
  }

  /**
   * `resetAll` forgets everything but whether the stream is open, so a
   * second call changes nothing.
   */
  lemma ResetRestores(p: Page, q: Page)
    ensures p.streamOpen == q.streamOpen ==> Reset(p) == Reset(q)
    ensures Reset(Reset(p)) == Reset(p)
  {
  }

  /** An unparseable frame changes nothing. */
  lemma UnparseableIgnored(p: Page)
    ensures Receive(p, Unparseable) == p
  {
  }

  /**
   * A message with an error shows it, stops loading and closes the stream;
   * its progress and time, if any, are not looked at.
   */
  lemma ErrorStops(p: Page, m: Message)
    requires m.Data? && TextTruthy(m.error)
    ensures var r := Receive(p, m);
      && r.error == m.error && !r.loading && !r.streamOpen
      && r.progress == p.progress && r.timeTaken == p.timeTaken && r.url == p.url
  {
  }

  /**
   * A message with neither an error nor a time changes at most the progress:
   * a missing or zero progress is not shown, any other replaces the shown one.
   */
  lemma ProgressShownUnlessZero(p: Page, m: Message)
    requires m.Data? && !TextTruthy(m.error) && !TextTruthy(m.time)
    ensures Receive(p, m) == if NumberTruthy(m.progress) then p.(progress := m.progress.value) else p
  {
  }

  /**
   * A message with a time and no error closes the stream, records the time
   * and stops loading, and leaves the error as it was.
   */
  lemma TimeFinishes(p: Page, m: Message)
    requires m.Data? && !TextTruthy(m.error) && TextTruthy(m.time)
    ensures var r := Receive(p, m);
      && !r.streamOpen && r.timeTaken == m.time && !r.loading
      && r.error == p.error && r.url == p.url
      && r.progress == if NumberTruthy(m.progress) then m.progress.value else p.progress
  {
  }

  /** The relay's completion message leaves the page at 100% with the time shown. */
  lemma CompletionAtHundred(p: Page, time: string)
    requires time != ""
    ensures var r := Receive(p, MessageOf(Completed(time)));
      && r.progress == CompletedTenths && r.timeTaken == Some(time)
      && !r.loading && !r.streamOpen && r.error == p.error
  {
  }

  /** A failed request shows the error, stops loading and closes the stream; a successful one changes nothing. */
  lemma FetchFailureStops(p: Page, r: FetchResult)
    ensures r.Ok? ==> FetchSettled(p, r) == p
    ensures r.NotOk? ==> var q := FetchSettled(p, r);
      q.error == Some(NotOkMessage) && !q.loading && !q.streamOpen && q.progress == p.progress
    ensures r.Rejected? ==> var q := FetchSettled(p, r);
      q.error == Some(r.message) && !q.loading && !q.streamOpen && q.progress == p.progress
  {
  }

  /** The page reads every frame of the relay back as the message of the event it carries. */
  lemma ParseWire(e: Event)
    requires Encodable(e)
    ensures Parse(Wire(e)) == MessageOf(e)
  {
    WireRoundTrip(e);
  }

  /** The events one run of a download broadcasts can all be read back. */
  lemma JobEventsEncodable(chunks: seq<Chunk>, code: Option<int>, time: string)
    requires NeedsNoEscape(time)
    ensures forall e <- JobEvents(chunks, code, time) :: Encodable(e)
  {
    ChunkEventsFromOutput(chunks);
    assert NeedsNoEscape(ChunkErrorMessage);
    assert NeedsNoEscape(ExitErrorMessage);
  }

  /** What the page receives for a run's events: the message of each event, in order. */
  lemma {:induction false} ParseWires(es: seq<Event>)
    requires forall e <- es :: Encodable(e)
    ensures MapSeq(Parse, MapSeq(Wire, es)) == MapSeq(MessageOf, es)
  {
    var l, r := MapSeq(Parse, MapSeq(Wire, es)), MapSeq(MessageOf, es);
    forall i | 0 <= i < |es| ensures l[i] == r[i] {
      assert es[i] in es;
      ParseWire(es[i]);
    }
  }

  /** A closed stream ignores every later frame. */
  lemma {:induction false} ClosedStreamIgnores(p: Page, ms: seq<Message>)
    requires !p.streamOpen
    ensures Delivered(p, ms) == p
    decreases |ms|
  {
    if ms != [] {
      ClosedStreamIgnores(p, ms[..|ms| - 1]);
    }
  }

  lemma DeliveredSnoc(p: Page, ms: seq<Message>, m: Message)
    ensures Delivered(p, ms + [m]) == Deliver(Delivered(p, ms), m)
  {
    assert (ms + [m])[..|ms|] == ms;
  }

  /**
   * While the downloader's output yields only percentages, the stream stays
   * open and nothing but the shown progress changes.
   */
  lemma {:induction false} ProgressKeepsListening(p: Page, es: seq<Event>)
    requires p.streamOpen
    requires forall e <- es :: e.Progress?
    ensures var r := Delivered(p, MapSeq(MessageOf, es));
      r == p.(progress := r.progress)
  {
    if es != [] {
      var init, last := es[..|es| - 1], es[|es| - 1];
      assert forall e <- init :: e in es;
      ProgressKeepsListening(p, init);
      assert es == init + [last];
      MapSeqAppend(MessageOf, init, [last]);
      DeliveredSnoc(p, MapSeq(MessageOf, init), MessageOf(last));
    }
  }

  /**
   * While the downloader's output is relayed, the page either is still
   * listening with only its progress changed, or has shown the chunk error,
   * stopped loading and closed the stream.
   */
  lemma {:induction false} OutputKeepsListeningOrShowsError(p: Page, es: seq<Event>)
    requires p.streamOpen
    requires forall e <- es :: FromOutput(e)
    ensures var r := Delivered(p, MapSeq(MessageOf, es));
      || r == p.(progress := r.progress)
      || (!r.streamOpen && !r.loading && r.error == Some(ChunkErrorMessage))
  {
    if es != [] {
      var init, last := es[..|es| - 1], es[|es| - 1];
      assert forall e <- init :: e in es;
      OutputKeepsListeningOrShowsError(p, init);
      assert es == init + [last];
      assert FromOutput(last);
      MapSeqAppend(MessageOf, init, [last]);
      DeliveredSnoc(p, MapSeq(MessageOf, init), MessageOf(last));
    }
  }

  /** The page's messages for a whole run: those of the output, then that of the exit. */
  lemma JobMessages(chunks: seq<Chunk>, code: Option<int>, time: string)
    requires NeedsNoEscape(time)
    ensures MapSeq(Parse, MapSeq(Wire, JobEvents(chunks, code, time)))
      == MapSeq(MessageOf, ChunkEvents(chunks)) + [MessageOf(Terminal(code, time))]
  {
    JobEventsEncodable(chunks, code, time);
    ParseWires(JobEvents(chunks, code, time));
    MapSeqAppend(MessageOf, ChunkEvents(chunks), [Terminal(code, time)]);
  }

  /**
   * A page listening to a run that fails — the downloader exits with a
   * non-zero code or is killed — ends showing an error, not loading, with
   * its stream closed.
   */
  lemma FailedRunShowsError(p: Page, chunks: seq<Chunk>, code: Option<int>, time: string)
    requires p.streamOpen && code != Some(0) && NeedsNoEscape(time)
    ensures var r := Delivered(p, MapSeq(Parse, MapSeq(Wire, JobEvents(chunks, code, time))));
      && !r.streamOpen && !r.loading
      && (r.error == Some(ChunkErrorMessage) || r.error == Some(ExitErrorMessage))
  {
    JobMessages(chunks, code, time);
    ChunkEventsFromOutput(chunks);
    OutputKeepsListeningOrShowsError(p, ChunkEvents(chunks));
    DeliveredSnoc(p, MapSeq(MessageOf, ChunkEvents(chunks)), MessageOf(Terminal(code, time)));
  }

  /**
   * A page listening to a run that succeeds, whose output reported no error,
   * ends at 100% with the time shown, not loading, with its stream closed and
   * its error as before.
   */
  lemma SucceededRunShowsTime(p: Page, chunks: seq<Chunk>, time: string)
    requires p.streamOpen && time != "" && NeedsNoEscape(time)
    requires forall e <- ChunkEvents(chunks) :: e.Progress?
    ensures var r := Delivered(p, MapSeq(Parse, MapSeq(Wire, JobEvents(chunks, Some(0), time))));
      && r.progress == CompletedTenths && r.timeTaken == Some(time)
      && !r.loading && !r.streamOpen && r.error == p.error && r.url == p.url
  {
    JobMessages(chunks, Some(0), time);
    ProgressKeepsListening(p, ChunkEvents(chunks));
    DeliveredSnoc(p, MapSeq(MessageOf, ChunkEvents(chunks)), MessageOf(Terminal(Some(0), time)));
  }
}
