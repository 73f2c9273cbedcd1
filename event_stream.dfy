/**
 * The streaming transport `AIEventStream`: one long-lived HTTP connection
 * whose URLSession delegate callbacks are delivered one at a time on a
 * serial queue. Each callback is a method the caller invokes in sequence;
 * the three observer callbacks are replaced by an append-only `log` of the
 * invocations they receive.
 *
 * The foreign pieces are inputs: the HTTP status of the response handed to
 * the response callback (absent when it is not an HTTP response), which the
 * later callbacks read back as the task's response, the chunk read as a
 * JSON dictionary by JSONSerialization (absent when it is not one), the
 * chunk decoded as UTF-8 (absent when it is not valid UTF-8), a transport
 * error, and the message decoder for the response type.
 */
module EventStream {
  import opened Wrappers
  import opened LineFraming

  newtype byte = x: int | 0 <= x < 256

  /** The errors the stream can report; `J` is an opaque JSON value. */
  datatype StreamError<J> =
    | TransportError(code: int)
      // an NSURLErrorDomain error whose user info is the JSON body of the chunk
    | BodyError(code: int, payload: map<string, J>)
      // an error synthesized from the HTTP status, with its localized description
    | StatusError(code: int, message: string)

  /** One invocation of an observer: onStart, onMessage or onComplete. */
  datatype Event<M, J> =
    | Start
    | Message(data: seq<byte>, message: Option<M>)
    | Complete(code: Option<int>, forceEnd: bool, error: Option<StreamError<J>>)

  /** URLSession.ResponseDisposition. */
  datatype Disposition = Cancel | Allow | BecomeDownload | BecomeStream

  /** The URLSession of a started stream: its configured extra headers, the request of its data task, and whether it was invalidated. */
  datatype Session<R> = Session(additionalHeaders: map<string, string>, task: R, invalidated: bool)

  /** The headers every stream session adds to the request. */
  const StreamConfigurationHeaders: map<string, string> :=
    map["Accept" := "text/event-stream", "Cache-Control" := "no-cache"]

  const DataPrefix: string := "data: "
  const AccessDenied: string := "Access denied"
  const GenerationFailed: string := "Text generation failed"

  /** The value decoded from one line: only a "data: " line is decoded, from what follows its first 6 characters. */
  function LineMessage<M>(line: string, decoder: string -> Option<M>): (message: Option<M>)
    ensures !HasPrefix(line, DataPrefix) ==> message == None
    ensures message.Some? ==> |line| >= 6 && line[..6] == DataPrefix && message == decoder(line[6..])
  {
    if HasPrefix(line, DataPrefix) then decoder(line[6..]) else None
  }

  /** The `for line in lines` loop: one message event per line, in order, each carrying the whole chunk `data`. */
  function LineEvents<M, J>(data: seq<byte>, lines: seq<string>, decoder: string -> Option<M>): (events: seq<Event<M, J>>)
    ensures |events| == |lines|
    ensures forall i :: 0 <= i < |lines| ==> events[i] == Message(data, LineMessage(lines[i], decoder))
  {
    if lines == [] then []
    else [Message(data, LineMessage(lines[0], decoder))] + LineEvents(data, lines[1..], decoder)
  }

  /** Framing one more line appends exactly its event. */
  lemma LineEventsAppend<M, J>(data: seq<byte>, lines: seq<string>, line: string, decoder: string -> Option<M>)
    ensures LineEvents<M, J>(data, lines + [line], decoder)
            == LineEvents(data, lines, decoder) + [Message(data, LineMessage(line, decoder))]
  {
    var longer := LineEvents<M, J>(data, lines + [line], decoder);
    var shorter := LineEvents<M, J>(data, lines, decoder);
    assert |longer| == |shorter| + 1;
    forall k | 0 <= k < |longer|
      ensures longer[k] == (shorter + [Message(data, LineMessage(line, decoder))])[k]
    {
      assert (lines + [line])[k] == if k < |lines| then lines[k] else line;
    }
  }

  /** The message events a framed chunk produces; text that is not UTF-8 is framed as "". */
  function ChunkEvents<M, J>(data: seq<byte>, text: Option<string>, decoder: string -> Option<M>): (events: seq<Event<M, J>>)
    ensures |events| >= 1
    ensures forall i :: 0 <= i < |events| ==> events[i].Message? && events[i].data == data
  {
    LineEvents(data, Split(text.GetOr("")), decoder)
  }

  /**
   * The guard on a chunk: when the response is HTTP and the chunk is a JSON
   * dictionary, it is recorded as an error unless the status is 2xx AND the
   * dictionary has an "error" key.
   */
  predicate RecordsBodyError<J>(status: Option<int>, json: Option<map<string, J>>) {
    status.Some? && json.Some? && !(200 <= status.value <= 299 && "error" in json.value)
  }

  /** The error synthesized from a failing HTTP status. */
  function SynthesizedError<J>(status: Option<int>): (error: Option<StreamError<J>>)
    ensures error.Some? <==> status.Some? && status.value >= 400
    ensures error.Some? ==> error.value.StatusError? && error.value.code == status.value
    ensures error.Some? ==> (error.value.message == AccessDenied <==> status.value == 403)
  {
    if status.Some? && status.value >= 400 then
      Some(StatusError(status.value, if status.value == 403 then AccessDenied else GenerationFailed))
    else None
  }

  /** The error a natural completion reports: transport error, else synthesized status error, else the stored fetch error. */
  function ReportedError<J>(status: Option<int>, transport: Option<StreamError<J>>, fetchError: Option<StreamError<J>>): (error: Option<StreamError<J>>)
    ensures transport.Some? ==> error == transport
    ensures transport.None? ==> error == SynthesizedError(status) || error == fetchError
    ensures error.None? <==> transport.None? && SynthesizedError<J>(status).None? && fetchError.None?
  {
    transport.OrElse(SynthesizedError(status)).OrElse(fetchError)
  }

  /** The onComplete invocation of a natural completion. */
  function CompletionEvent<M, J>(status: Option<int>, transport: Option<StreamError<J>>, fetchError: Option<StreamError<J>>): Event<M, J> {
    Complete(status, false, ReportedError(status, transport, fetchError))
  }

  /** A line has a decoded value exactly when it is a "data: " line whose remainder decodes. */
  lemma LineMessageDecodes<M>(line: string, decoder: string -> Option<M>)
    ensures LineMessage(line, decoder).Some? <==> HasPrefix(line, DataPrefix) && decoder(line[6..]).Some?
    ensures LineMessage(line, decoder).Some? ==> LineMessage(line, decoder) == decoder(line[6..])
  {
  }

  /** Prefixing a payload with "data: " hands exactly that payload to the decoder. */
  lemma DataLineRoundTrip<M>(payload: string, decoder: string -> Option<M>)
    ensures LineMessage(DataPrefix + payload, decoder) == decoder(payload)
  {
    assert (DataPrefix + payload)[..|DataPrefix|] == DataPrefix;
    assert (DataPrefix + payload)[6..] == payload;
  }

  /** A framed chunk yields one event per "\n" plus one, whatever the decoder. */
  lemma ChunkEventsCount<M, J>(data: seq<byte>, text: Option<string>, decoder: string -> Option<M>)
    ensures |ChunkEvents<M, J>(data, text, decoder)| == NewlineCount(text.GetOr("")) + 1
  {
    SplitCount(text.GetOr(""));
  }

  /**
   * Every event of a framed chunk is a message carrying the whole chunk, in
   * the order of the lines; the lines joined with "\n" are the text, none of
   * them holds a "\n", and an event has a decoded value exactly when its
   * line starts with "data: " and the remainder decodes.
   */
  lemma ChunkEventsAreLines<M, J>(data: seq<byte>, text: Option<string>, decoder: string -> Option<M>)
    ensures var lines := Split(text.GetOr(""));
            var events := ChunkEvents<M, J>(data, text, decoder);
            && Join(lines) == text.GetOr("")
            && |events| == |lines|
            && forall i :: 0 <= i < |events| ==>
                 && NoNewline(lines[i])
                 && events[i].Message?
                 && events[i].data == data
                 && events[i].message == LineMessage(lines[i], decoder)
                 && (events[i].message.Some? <==> HasPrefix(lines[i], DataPrefix) && decoder(lines[i][6..]).Some?)
  {
    JoinSplit(text.GetOr(""));
    SplitLinesHaveNoNewline(text.GetOr(""));
  }

  /** A chunk that is not UTF-8 is framed as "" and yields exactly one event, without a decoded value. */
  lemma UndecodableChunkEvents<M, J>(data: seq<byte>, decoder: string -> Option<M>)
    ensures ChunkEvents<M, J>(data, None, decoder) == [Message(data, None)]
  {
    assert Split("") == [""];
  }

  /**
   * A single "data: " line ended by "\n" yields two events: the decoded line
   * and one for the empty component after the final "\n".
   */
  lemma TerminatedDataLineEvents<M, J>(data: seq<byte>, payload: string, decoder: string -> Option<M>)
    requires NoNewline(payload)
    ensures ChunkEvents<M, J>(data, Some(DataPrefix + payload + "\n"), decoder)
            == [Message(data, decoder(payload)), Message(data, None)]
  {
    var line := DataPrefix + payload;
    assert NoNewline(line) by {
      assert forall k :: 0 <= k < |line| ==> line[k] == (if k < 6 then DataPrefix[k] else payload[k - 6]);
    }
    assert Join([line, ""]) == line + "\n";
    SplitJoin([line, ""]);
    DataLineRoundTrip(payload, decoder);
  }

  /**
   * The guard as written: a 2xx JSON body without "error" is recorded, a 2xx
   * body with "error" is framed, and any non-2xx JSON body is recorded.
   */
  lemma RecordsBodyErrorCases<J>(j: J)
    ensures RecordsBodyError(Some(200), Some(map["id" := j]))
    ensures !RecordsBodyError(Some(200), Some(map["error" := j]))
    ensures RecordsBodyError(Some(500), Some(map["error" := j]))
    ensures !RecordsBodyError<J>(None, Some(map["error" := j]))
    ensures !RecordsBodyError<J>(Some(500), None)
  {
    assert "id" != "error" by { assert "id"[0] != "error"[0]; }
  }

  /** The precedence of a natural completion's error. */
  lemma ReportedErrorPrecedence<J>(status: Option<int>, transport: Option<StreamError<J>>, fetchError: Option<StreamError<J>>)
    ensures transport.Some? ==> ReportedError(status, transport, fetchError) == transport
    ensures status.None? ==> ReportedError(status, transport, fetchError) == transport.OrElse(fetchError)
    ensures transport.None? && status.Some? && status.value >= 400 ==>
              ReportedError(status, transport, fetchError)
              == Some(StatusError(status.value, if status.value == 403 then AccessDenied else GenerationFailed))
    ensures transport.None? && (status.None? || status.value < 400) ==>
              ReportedError(status, transport, fetchError) == fetchError
  {
  }

  /** A recorded body error is reported exactly when there is no transport error and no failing status. */
  lemma BodyErrorReportedIff<J>(status: Option<int>, transport: Option<StreamError<J>>, code: int, payload: map<string, J>)
    requires transport.None? || !transport.value.BodyError?
    ensures ReportedError(status, transport, Some(BodyError(code, payload))) == Some(BodyError(code, payload))
            <==> transport.None? && (status.None? || status.value < 400)
  {
  }

  /** A natural completion is never forced and repeats the status it was given. */
  lemma CompletionEventShape<M, J>(status: Option<int>, transport: Option<StreamError<J>>, fetchError: Option<StreamError<J>>)
    ensures var e := CompletionEvent<M, J>(status, transport, fetchError);
            e.Complete? && !e.forceEnd && e.code == status
  {
  }

  /** A 500 response whose body was recorded still reports the generic status error. */
  lemma StatusErrorMasksBodyError<J>(payload: map<string, J>)
    ensures ReportedError(Some(500), None, Some(BodyError(500, payload)))
            == Some(StatusError(500, GenerationFailed))
  {
  }

  class AIEventStream<R, M, J> {
    const request: R
    /** The response type's decoder (JSONDecoder.aiDecoder); absent when the payload does not decode. */
    const decoder: string -> Option<M>

    var session: Option<Session<R>>
    /** The HTTP status of the task's response: absent before any response and for a non-HTTP response. */
    var responseStatus: Option<int>
    var isStreamActive: bool
    var fetchError: Option<StreamError<J>>

    /** Which observers are registered. */
    var hasOnStart: bool
    var hasOnMessage: bool
    var hasOnComplete: bool

    /** Every observer invocation, in order. */
    var log: seq<Event<M, J>>

    constructor (request: R, decoder: string -> Option<M>)
      ensures this.request == request && this.decoder == decoder
      ensures session == None && responseStatus == None && !isStreamActive && fetchError == None
      ensures !hasOnStart && !hasOnMessage && !hasOnComplete && log == []
    {
      this.request := request;
      this.decoder := decoder;
      session := None;
      responseStatus := None;
      isStreamActive := false;
      fetchError := None;
      hasOnStart, hasOnMessage, hasOnComplete := false, false, false;
      log := [];
    }

    method OnStart()
      modifies this`hasOnStart
      ensures hasOnStart
    {
      hasOnStart := true;
    }

    method OnMessage()
      modifies this`hasOnMessage
      ensures hasOnMessage
    {
      hasOnMessage := true;
    }

    method OnComplete()
      modifies this`hasOnComplete
      ensures hasOnComplete
    {
      hasOnComplete := true;
    }

    /** Opens the session and starts its data task, unless a session already exists. */
    method StartStream()
      modifies this`session
      ensures old(session).Some? ==> session == old(session)
      ensures old(session).None? ==> session == Some(Session(StreamConfigurationHeaders, request, false))
    {
      if session.Some? {
        return;
      }
      session := Some(Session(StreamConfigurationHeaders, request, false));
    }

    /** Forces completion: the stream goes inactive, the session is invalidated but kept, and onComplete gets (0, true, nil). */
    method StopStream()
      modifies this`isStreamActive, this`session, this`log
      ensures !isStreamActive
      ensures session.Some? == old(session).Some?
      ensures session.Some? ==> session == Some(old(session).value.(invalidated := true))
      ensures log == old(log) + (if hasOnComplete then [Complete(Some(0), true, None)] else [])
    {
      isStreamActive := false;
      if session.Some? {
        session := Some(session.value.(invalidated := true));
      }
      if hasOnComplete {
        log := log + [Complete(Some(0), true, None)];
      }
    }

    /**
     * Every response is allowed; the stream becomes active and onStart fires.
     * URLSession records the response on the task, so the later callbacks
     * see its status.
     */
    method DidReceiveResponse(status: Option<int>) returns (disposition: Disposition)
      modifies this`responseStatus, this`isStreamActive, this`log
      ensures disposition == Allow
      ensures responseStatus == status
      ensures isStreamActive
      ensures log == old(log) + (if hasOnStart then [Start] else [])
    {
      responseStatus := status;
      disposition := Allow;
      isStreamActive := true;
      if hasOnStart {
        log := log + [Start];
      }
    }

    /**
     * One chunk of the body. Ignored while inactive; recorded as the fetch
     * error when the guard says so; otherwise framed into lines, one message
     * event per line.
     */
    method DidReceiveData(data: seq<byte>, json: Option<map<string, J>>, text: Option<string>)
      modifies this`fetchError, this`log
      ensures !isStreamActive ==> fetchError == old(fetchError) && log == old(log)
      ensures isStreamActive && RecordsBodyError(responseStatus, json) ==>
                fetchError == Some(BodyError(responseStatus.value, json.value)) && log == old(log)
      ensures isStreamActive && !RecordsBodyError(responseStatus, json) ==>
                && fetchError == old(fetchError)
                && log == old(log) + (if hasOnMessage then ChunkEvents(data, text, decoder) else [])
    {
      if !isStreamActive {
        return;
      }
      if responseStatus.Some? && json.Some? {
        var code := responseStatus.value;
        if !(200 <= code <= 299 && "error" in json.value) {
          fetchError := Some(BodyError(code, json.value));
          return;
        }
      }
      var dataString := text.GetOr("");
      var lines := Split(dataString);
      var i := 0;
      while i < |lines|
        invariant 0 <= i <= |lines|
        invariant fetchError == old(fetchError)
        invariant log == old(log) + (if hasOnMessage then LineEvents(data, lines[..i], decoder) else [])
      {
        var line := lines[i];
        var message: Option<M> := None;
        if HasPrefix(line, DataPrefix) {
          message := decoder(line[6..]);
        }
        if hasOnMessage {
          assert lines[..i + 1] == lines[..i] + [line];
          LineEventsAppend<M, J>(data, lines[..i], line, decoder);
          log := log + [Message(data, message)];
        }
        i := i + 1;
      }
      assert lines[..i] == lines;
    }

    /** The task finished, with or without a transport error; onComplete gets the classified outcome. */
    method DidCompleteWithError(transportError: Option<StreamError<J>>)
      modifies this`log
      ensures log == old(log) + (if hasOnComplete then [CompletionEvent(responseStatus, transportError, fetchError)] else [])
    {
      if responseStatus.None? {
        if hasOnComplete {
          log := log + [Complete(None, false, transportError.OrElse(fetchError))];
        }
        return;
      }
      var code := responseStatus.value;
      var error := transportError;
      if code >= 400 && error.None? {
        var message := GenerationFailed;
        if code == 403 {
          message := AccessDenied;
        }
        error := Some(StatusError(code, message));
      }
      if hasOnComplete {
        log := log + [Complete(Some(code), false, error.OrElse(fetchError))];
      }
    }

    /** Redirects are followed with the proposed request unchanged. */
    method WillPerformHttpRedirection(proposed: R) returns (next: R)
      ensures next == proposed
    {
      next := proposed;
    }
  }

  /** Once a session exists, stopping and starting again leaves the same, now invalidated, session: the stream cannot restart. */
  method StopThenStart<R, M, J>(s: AIEventStream<R, M, J>)
    requires s.session.Some?
    modifies s
    ensures s.session == Some(old(s.session).value.(invalidated := true))
    ensures !s.isStreamActive
  {
    s.StopStream();
    s.StartStream();
  }

  /** A chunk arriving after stopStream adds nothing to the log and leaves the fetch error alone. */
  method StopThenData<R, M, J>(s: AIEventStream<R, M, J>, data: seq<byte>,
                               json: Option<map<string, J>>, text: Option<string>)
    modifies s
    ensures s.log == old(s.log) + (if s.hasOnComplete then [Complete(Some(0), true, None)] else [])
    ensures s.fetchError == old(s.fetchError)
  {
    s.StopStream();
    s.DidReceiveData(data, json, text);
  }

  /** Stopping twice reports two forced completions: nothing guards against a repeated stop. */
  method StopTwice<R, M, J>(s: AIEventStream<R, M, J>)
    modifies s
    ensures s.log == old(s.log) + (if s.hasOnComplete then [Complete(Some(0), true, None), Complete(Some(0), true, None)] else [])
  {
    s.StopStream();
    s.StopStream();
  }

  /** A completion delivered after stopStream is still reported: the forced completion is not the only one. */
  method StopThenLateCompletion<R, M, J>(s: AIEventStream<R, M, J>, transportError: Option<StreamError<J>>)
    modifies s
    ensures s.log == old(s.log) + (if s.hasOnComplete
                                   then [Complete(Some(0), true, None), CompletionEvent(old(s.responseStatus), transportError, old(s.fetchError))]
                                   else [])
  {
    s.StopStream();
    s.DidCompleteWithError(transportError);
  }

  /**
   * A whole stream with all observers registered: start, the response, one
   * framed chunk, and a successful completion. The log is exactly Start,
   * the chunk's messages, and the completion.
   */
  method RegisteredStream<R, M, J>(s: AIEventStream<R, M, J>, data: seq<byte>, status: int, text: Option<string>)
    requires s.hasOnStart && s.hasOnMessage && s.hasOnComplete
    requires s.log == [] && s.fetchError == None
    requires 200 <= status <= 299
    modifies s
    ensures s.log == [Start] + ChunkEvents(data, text, s.decoder) + [Complete(Some(status), false, None)]
  {
    s.StartStream();
    var _ := s.DidReceiveResponse(Some(status));
    s.DidReceiveData(data, None, text);
    s.DidCompleteWithError(None);
  }
}
