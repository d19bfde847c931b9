/**
 * The `/download` route: the URL guard, the output file name, the relay of
 * the downloader's output to the progress channel, and what happens when the
 * downloader exits.
 *
 * The downloader itself is not modelled: a run is given as the chunks it
 * writes, in order, and the exit code `close` reports (`None` when it was
 * killed by a signal and Node reports `null`).
 */
module Download {
  import opened Wrappers
  import opened Text
  import opened Events
  import opened Scanner
  import opened Channel

  /** The name the downloader is told to write: `video_<timestamp>.mp4`. */
  function FileName(timestamp: nat): string {
    "video_" + Decimal(timestamp) + ".mp4"
  }

  /**
   * The name is `video_`, then decimal digits that read back as the
   * timestamp, then `.mp4`.
   */
  lemma FileNameParts(timestamp: nat)
    ensures var name := FileName(timestamp);
      && |name| > 10 && name[..6] == "video_" && name[|name| - 4..] == ".mp4"
      && AllDigits(name[6..|name| - 4]) && DigitsValue(name[6..|name| - 4]) == timestamp
  {
    DecimalDigits(timestamp);
    var name := FileName(timestamp);
    assert name[6..|name| - 4] == Decimal(timestamp);
  }

  /** Requests made at different milliseconds write different files. */
  lemma FileNameInjective(a: nat, b: nat)
    ensures FileName(a) == FileName(b) <==> a == b
  {
    FileNameParts(a);
    FileNameParts(b);
  }

  /** The `url` query parameter is truthy: present and not empty. */
  predicate Provided(url: Option<string>) {
    url.Some? && url.value != ""
  }

  const NoUrlBody := "No URL provided"
  const FailedBody := "Download failed"

  datatype JobState = Running | Succeeded | Failed

  datatype Chunk = Chunk(stream: Stream, text: string)

  /** The events one chunk makes the relay broadcast: none or one. */
  function Outcome(chunk: Chunk): seq<Event> {
    match Classify(chunk.stream, chunk.text)
    case Some(e) => [e]
    case None => []
  }

  /** The events a run's output makes the relay broadcast, in order. */
  function ChunkEvents(chunks: seq<Chunk>): seq<Event> {
    if chunks == [] then []
    else ChunkEvents(chunks[..|chunks| - 1]) + Outcome(chunks[|chunks| - 1])
  }

  /**
   * The event broadcast when the downloader exits: a completion, with the
   * time, exactly when the exit code is 0. It is never an event the output
   * can cause, so a subscriber can tell the end of a run apart.
   */
  function Terminal(code: Option<int>, time: string): (e: Event)
    ensures e.Completed? <==> code == Some(0)
    ensures e.Completed? ==> e.time == time
    ensures !FromOutput(e)
  {
    if code == Some(0) then Completed(time) else Failure(ExitErrorMessage)
  }

  /** Everything a run broadcasts: its output's events, then the exit event. */
  function JobEvents(chunks: seq<Chunk>, code: Option<int>, time: string): seq<Event> {
    ChunkEvents(chunks) + [Terminal(code, time)]
  }

  /**
   * How the request ends once the downloader exits and its exit event has
   * gone out: with exit code 0 the file is sent and then deleted, otherwise
   * the request is answered 500.
   */
  function Finish(code: Option<int>, name: string): seq<Write> {
    if code == Some(0) then [Act(SendFile(name)), Act(DeleteFile(name))] else [Act(Respond(500, FailedBody))]
  }

  /**
   * Finishing writes no frame; the file is sent and deleted exactly when the
   * exit code is 0, the deletion after the send; otherwise the request is
   * answered 500 and the file is left in place.
   */
  lemma FinishOrder(code: Option<int>, name: string)
    ensures var r := Finish(code, name);
      && r != [] && (forall w <- r :: w.Act?)
      && (Act(SendFile(name)) in r <==> code == Some(0))
      && (Act(DeleteFile(name)) in r <==> code == Some(0))
      && (Act(Respond(500, FailedBody)) in r <==> code != Some(0))
      && (forall i, j :: 0 <= i < |r| && 0 <= j < |r| && r[i] == Act(SendFile(name)) && r[j] == Act(DeleteFile(name)) ==> i < j)
  {
  }

  /** Number of completion events. */
  function Completions(events: seq<Event>): nat {
    if events == [] then 0
    else Completions(events[..|events| - 1]) + (if events[|events| - 1].Completed? then 1 else 0)
  }

  /** Number of exit-failure events. */
  function ExitFailures(events: seq<Event>): nat {
    if events == [] then 0
    else ExitFailures(events[..|events| - 1]) + (if events[|events| - 1] == Failure(ExitErrorMessage) then 1 else 0)
  }

  /** The events the downloader's output can cause: a percentage or the chunk-error message. */
  predicate FromOutput(e: Event) {
    e.Progress? || e == Failure(ChunkErrorMessage)
  }

  lemma OutcomeFromOutput(chunk: Chunk)
    ensures forall e <- Outcome(chunk) :: FromOutput(e)
  {
    ClassifyMeaning(chunk.stream, chunk.text);
  }

  /** The downloader's output never produces an exit event: those come only from `close`. */
  lemma {:induction false} ChunkEventsFromOutput(chunks: seq<Chunk>)
    ensures forall e <- ChunkEvents(chunks) :: FromOutput(e)
  {
    if chunks != [] {
      ChunkEventsFromOutput(chunks[..|chunks| - 1]);
      OutcomeFromOutput(chunks[|chunks| - 1]);
    }
  }

  /** Events caused by output are neither completions nor exit failures. */
  lemma {:induction false} OutputCountsNoExit(events: seq<Event>)
    requires forall e <- events :: FromOutput(e)
    ensures Completions(events) == 0 && ExitFailures(events) == 0
  {
    if events != [] {
      var init := events[..|events| - 1];
      assert forall e <- init :: e in events;
      OutputCountsNoExit(init);
      assert FromOutput(events[|events| - 1]);
    }
  }

  /**
   * A run broadcasts exactly one exit event, last: a completion with the
   * elapsed time when the exit code is 0, otherwise the exit failure and no
   * completion at all.
   */
  lemma JobEventsEndOnce(chunks: seq<Chunk>, code: Option<int>, time: string)
    ensures var es := JobEvents(chunks, code, time);
      && es[|es| - 1] == Terminal(code, time)
      && Completions(es) == (if code == Some(0) then 1 else 0)
      && ExitFailures(es) == (if code == Some(0) then 0 else 1)
  {
    var es := JobEvents(chunks, code, time);
    ChunkEventsFromOutput(chunks);
    OutputCountsNoExit(ChunkEvents(chunks));
    assert es[..|es| - 1] == ChunkEvents(chunks);
  }

  class DownloadJob {
    const url: string
    const fileName: string
    var state: JobState

    /**
     * A request with a URL names its file and starts the downloader on it;
     * the start is a step of the channel's trace.
     */
    constructor (url: string, timestamp: nat, channel: ProgressChannel)
      requires url != "" && channel.Valid()
      modifies channel
      ensures this.url == url && fileName == FileName(timestamp) && state == Running
      ensures channel.Valid() && channel.clients == old(channel.clients) && channel.nextId == old(channel.nextId)
      ensures channel.writes == old(channel.writes) + [Act(Spawn(fileName, url))]
    {
      this.url := url;
      fileName := FileName(timestamp);
      state := Running;
      new;
      channel.Record(Spawn(fileName, url));
    }

    /** One chunk from the downloader's standard output or standard error. */
    method OnOutput(chunk: Chunk, channel: ProgressChannel)
      requires channel.Valid()
      modifies channel
      ensures channel.Valid() && channel.clients == old(channel.clients) && channel.nextId == old(channel.nextId)
      ensures channel.writes == old(channel.writes) + Broadcasts(channel.clients, Outcome(chunk))
    {
      match Classify(chunk.stream, chunk.text)
      case Some(e) =>
        assert Broadcasts(channel.clients, [e]) == FanOut(channel.clients, e) by {
          assert [e][..0] == [];
        }
        channel.Broadcast(e);
      case None =>
    }

    /** Every chunk of a run, in the order the downloader wrote them. */
    method RelayOutput(chunks: seq<Chunk>, channel: ProgressChannel)
      requires channel.Valid()
      modifies channel
      ensures channel.Valid() && channel.clients == old(channel.clients) && channel.nextId == old(channel.nextId)
      ensures channel.writes == old(channel.writes) + Broadcasts(channel.clients, ChunkEvents(chunks))
    {
      var i := 0;
      while i < |chunks|
        invariant 0 <= i <= |chunks|
        invariant channel.Valid() && channel.clients == old(channel.clients) && channel.nextId == old(channel.nextId)
        invariant channel.writes == old(channel.writes) + Broadcasts(channel.clients, ChunkEvents(chunks[..i]))
      {
        ghost var done, step := Broadcasts(channel.clients, ChunkEvents(chunks[..i])), Broadcasts(channel.clients, Outcome(chunks[i]));
        RunStep(channel.clients, chunks, i);
        OnOutput(chunks[i], channel);
        TraceGrows(old(channel.writes), done, step);
        i := i + 1;
      }
      assert chunks[..i] == chunks;
    }

    /**
     * The downloader exited with `code`, after `time` seconds as `toFixed(2)`
     * prints them: the exit event's frames go out first, then the request is
     * finished.
     */
    method OnClose(code: Option<int>, time: string, channel: ProgressChannel)
      requires state == Running && channel.Valid()
      modifies this, channel
      ensures channel.Valid() && channel.clients == old(channel.clients) && channel.nextId == old(channel.nextId)
      ensures channel.writes == old(channel.writes) + FanOut(channel.clients, Terminal(code, time)) + Finish(code, fileName)
      ensures state == if code == Some(0) then Succeeded else Failed
    {
      if code != Some(0) {
        channel.Broadcast(Failure(ExitErrorMessage));
        channel.Record(Respond(500, FailedBody));
        state := Failed;
        return;
      }
      channel.Broadcast(Completed(time));
      channel.Record(SendFile(fileName));
      channel.Record(DeleteFile(fileName));
      state := Succeeded;
    }
  }

  /**
   * One `/download` request, driven by a scripted run of the downloader. The
   * list of progress connections is taken as fixed while the run lasts.
   */
  method HandleDownload(query: Option<string>, timestamp: nat, chunks: seq<Chunk>, code: Option<int>, time: string, channel: ProgressChannel)
    requires channel.Valid()
    modifies channel
    ensures channel.Valid() && channel.clients == old(channel.clients) && channel.nextId == old(channel.nextId)
    ensures !Provided(query) ==> channel.writes == old(channel.writes) + [Act(Respond(400, NoUrlBody))]
    ensures Provided(query) ==>
      channel.writes == old(channel.writes) + [Act(Spawn(FileName(timestamp), query.value))]
        + Broadcasts(channel.clients, JobEvents(chunks, code, time)) + Finish(code, FileName(timestamp))
  {
    if !Provided(query) {
      channel.Record(Respond(400, NoUrlBody));
      return;
    }
    var job := new DownloadJob(query.value, timestamp, channel);
    ghost var started := channel.writes;
    job.RelayOutput(chunks, channel);
    ghost var output, exit := Broadcasts(channel.clients, ChunkEvents(chunks)), FanOut(channel.clients, Terminal(code, time));
    RunClose(channel.clients, chunks, code, time);
    job.OnClose(code, time, channel);
    TraceGrows(started, output, exit);
  }

  /**
   * A page that opens its progress connection and then requests a download:
   * its connection receives exactly the run's events, the output's then the
   * exit event, as frames, and nothing when the request has no URL.
   */
  method WatchDownload(query: Option<string>, timestamp: nat, chunks: seq<Chunk>, code: Option<int>, time: string, channel: ProgressChannel)
    returns (id: ClientId)
    requires channel.Valid()
    modifies channel
    ensures channel.Valid() && id !in old(channel.clients) && channel.clients == old(channel.clients) + [id]
    ensures id == old(channel.nextId) && channel.nextId == old(channel.nextId) + 1
    ensures !Provided(query) ==> channel.Log(id) == [] && channel.Received(id) == []
    ensures Provided(query) ==>
      && channel.Log(id) == JobEvents(chunks, code, time)
      && channel.Received(id) == MapSeq(Wire, JobEvents(chunks, code, time))
  {
    id := channel.Subscribe();
    ghost var before := channel.writes;
    HandleDownload(query, timestamp, chunks, code, time, channel);
    if !Provided(query) {
      assert channel.writes[..|channel.writes| - 1] == before;
      return;
    }
    ghost var start := [Act(Spawn(FileName(timestamp), query.value))];
    ghost var run := Broadcasts(channel.clients, JobEvents(chunks, code, time));
    ghost var finish := Finish(code, FileName(timestamp));
    assert (before + start)[..|before|] == before;
    LogAfterBroadcasts(before + start, channel.clients, JobEvents(chunks, code, time), id);
    LogOfAppend(before + start + run, finish, id);
    FinishOrder(code, FileName(timestamp));
    LogOfAbsent(finish, id);
  }

  /** What one more chunk adds to the broadcasts. */
  lemma RunStep(clients: seq<ClientId>, chunks: seq<Chunk>, i: nat)
    requires i < |chunks|
    ensures Broadcasts(clients, ChunkEvents(chunks[..i + 1]))
      == Broadcasts(clients, ChunkEvents(chunks[..i])) + Broadcasts(clients, Outcome(chunks[i]))
  {
    assert chunks[..i + 1][..i] == chunks[..i];
    BroadcastsAppend(clients, ChunkEvents(chunks[..i]), Outcome(chunks[i]));
  }

  /** Appending to a trace in two steps appends both parts. */
  lemma TraceGrows(writes: seq<Write>, done: seq<Write>, step: seq<Write>)
    ensures writes + done + step == writes + (done + step)
  {
  }

  /** What the exit event adds to the broadcasts. */
  lemma RunClose(clients: seq<ClientId>, chunks: seq<Chunk>, code: Option<int>, time: string)
    ensures Broadcasts(clients, JobEvents(chunks, code, time))
      == Broadcasts(clients, ChunkEvents(chunks)) + FanOut(clients, Terminal(code, time))
  {
    var done, last := ChunkEvents(chunks), [Terminal(code, time)];
    BroadcastsAppend(clients, done, last);
    assert last[..0] == [];
  }
}
