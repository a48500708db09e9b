/**
 * The browser's stream reader (app/static/js/chat.js): the `sendMessage`
 * loop that reads the response body, cuts it into lines at '\n' while keeping
 * the incomplete tail in `buffer`, and hands every `data: ` event to
 * `handleStreamChunk`, which grows the streaming message.
 */
module ChatClient {
  import opened Wrappers
  import opened Text

  // ---------------------------------------------------------------------
  // Lines: JavaScript's split('\n') and join('\n')
  // ---------------------------------------------------------------------

  predicate NoNewline(s: string) {
    '\n' !in s
  }

  /** `s.split('\n')`: the pieces between newlines, always at least one. */
  function Split(s: string): (pieces: seq<string>)
    ensures |pieces| >= 1
    ensures forall k :: 0 <= k < |pieces| ==> NoNewline(pieces[k])
  {
    if s == [] then [""]
    else
      var tail := Split(s[1..]);
      if s[0] == '\n' then [""] + tail
      else [[s[0]] + tail[0]] + tail[1..]
  }

  /** `pieces.join('\n')`. */
  function Join(pieces: seq<string>): string
    requires |pieces| >= 1
  {
    if |pieces| == 1 then pieces[0] else pieces[0] + "\n" + Join(pieces[1..])
  }

  /** Joining two runs of pieces puts one newline between them. */
  lemma {:induction false} JoinAppend(a: seq<string>, b: seq<string>)
    requires |a| >= 1 && |b| >= 1
    ensures Join(a + b) == Join(a) + "\n" + Join(b)
  {
    if |a| == 1 {
      assert (a + b)[1..] == b;
    } else {
      assert (a + b)[1..] == a[1..] + b;
      JoinAppend(a[1..], b);
    }
  }

  /** Splitting loses nothing: joining the pieces gives the text back. */
  lemma {:induction false} JoinSplit(s: string)
    ensures Join(Split(s)) == s
  {
    if s != [] {
      JoinSplit(s[1..]);
      var tail := Split(s[1..]);
      if s[0] == '\n' {
        assert ([""] + tail)[1..] == tail;
      } else {
        var pieces := [[s[0]] + tail[0]] + tail[1..];
        if |tail| == 1 {
          assert pieces == [[s[0]] + tail[0]];
        } else {
          assert pieces[1..] == tail[1..];
          assert Join(tail) == tail[0] + "\n" + Join(tail[1..]);
        }
        assert s == [s[0]] + s[1..];
      }
    }
  }

  /** A newline-free text in front of `x` joins the first piece of `x`. */
  lemma {:induction false} SplitLeading(p: string, x: string)
    requires NoNewline(p)
    ensures Split(p + x) == [p + Split(x)[0]] + Split(x)[1..]
  {
    if p == [] {
      assert p + x == x;
      assert p + Split(x)[0] == Split(x)[0];
      assert Split(x) == [Split(x)[0]] + Split(x)[1..];
    } else {
      assert (p + x)[0] == p[0];
      assert (p + x)[1..] == p[1..] + x;
      SplitLeading(p[1..], x);
      assert [p[0]] + (p[1..] + Split(x)[0]) == p + Split(x)[0];
    }
  }

  /** Splitting is the inverse of joining newline-free pieces. */
  lemma {:induction false} SplitJoin(pieces: seq<string>)
    requires |pieces| >= 1
    requires forall k :: 0 <= k < |pieces| ==> NoNewline(pieces[k])
    ensures Split(Join(pieces)) == pieces
  {
    var p := pieces[0];
    if |pieces| == 1 {
      SplitLeading(p, "");
      assert p + "" == p;
    } else {
      var rest := Join(pieces[1..]);
      SplitJoin(pieces[1..]);
      assert ("\n" + rest)[0] == '\n' && ("\n" + rest)[1..] == rest;
      assert Split("\n" + rest) == [""] + pieces[1..];
      SplitLeading(p, "\n" + rest);
      assert p + "\n" + rest == p + ("\n" + rest);
      assert p + "" == p;
      assert pieces == [p] + pieces[1..];
    }
  }

  /** Text appended to a buffer split into pieces extends the last piece. */
  lemma ExtendLast(taken: seq<string>, buffer: string, x: string)
    ensures Join(taken + Split(buffer + x)) == Join(taken + [buffer]) + x
  {
    JoinSplit(buffer + x);
    if taken != [] {
      JoinAppend(taken, Split(buffer + x));
      JoinAppend(taken, [buffer]);
    } else {
      assert taken + Split(buffer + x) == Split(buffer + x);
      assert taken + [buffer] == [buffer];
    }
  }

  /** The newline-terminated lines of `s`: every piece but the unfinished last. */
  function CompleteLines(s: string): (lines: seq<string>)
    ensures forall k :: 0 <= k < |lines| ==> NoNewline(lines[k])
  {
    var pieces := Split(s);
    pieces[..|pieces| - 1]
  }

  /**
   * Whatever the chunking of the body, once `taken` is complete and `buffer`
   * holds the tail of what was received in the first `i` chunks, the whole
   * body's complete lines are `taken` followed by the lines of the tail and
   * the rest of the body.
   */
  lemma ReceivedLines(chunks: seq<string>, i: nat, taken: seq<string>, buffer: string)
    requires i <= |chunks|
    requires forall k :: 0 <= k < |taken| ==> NoNewline(taken[k])
    requires NoNewline(buffer)
    requires Join(taken + [buffer]) == Concat(chunks[..i])
    ensures CompleteLines(Concat(chunks)) == taken + CompleteLines(buffer + Concat(chunks[i..]))
  {
    var rest := Concat(chunks[i..]);
    assert chunks == chunks[..i] + chunks[i..];
    ConcatAppend(chunks[..i], chunks[i..]);
    ExtendLast(taken, buffer, rest);
    var tail := Split(buffer + rest);
    SplitJoin(taken + tail);
    assert (taken + tail)[..|taken + tail| - 1] == taken + tail[..|tail| - 1];
  }

  // ---------------------------------------------------------------------
  // Events and the streaming message
  // ---------------------------------------------------------------------

  /**
   * A parsed event, by its `type` field; `AiComplete` records whether the
   * event carries the `message` its timestamp is read from.
   */
  datatype ClientEvent =
    | UserMessageEvent
    | AiStart
    | AiChunk(content: Option<string>)
    | AiComplete(hasMessage: bool)
    | ErrorEvent(error: string)
    | UnknownEvent(kind: string)

  /**
   * What the page shows of the reply being streamed: its text, whether the
   * cursor still blinks, whether the message element is still on the page,
   * whether input is still disabled (`isLoading`), and the errors shown.
   */
  datatype ClientView = ClientView(text: string, streaming: bool, attached: bool, loading: bool, errors: seq<string>)

  /** The page right after `sendMessage` has added the empty streaming message. */
  const Sending := ClientView("", true, true, true, [])

  /** `restoreUIState()`. */
  function RestoreUIState(v: ClientView): (w: ClientView)
    ensures !w.loading && w == v.(loading := false)
  {
    v.(loading := false)
  }

  /** `handleStreamChunk(chunk, ...)`. */
  function HandleStreamChunk(v: ClientView, e: ClientEvent): (w: ClientView)
    ensures e.AiChunk? && e.content.Some? ==> w.text == v.text + e.content.value
    ensures !e.AiChunk? || e.content.None? ==> w.text == v.text
    ensures e.ErrorEvent? <==> w.errors != v.errors
    ensures e.ErrorEvent? ==> !w.attached && !w.loading && w.errors == v.errors + [e.error]
    ensures !e.ErrorEvent? ==> w.attached == v.attached
    ensures e.AiComplete? ==> !w.streaming && w.loading == (v.loading && !e.hasMessage)
    ensures !e.AiComplete? && !e.ErrorEvent? ==> w.streaming == v.streaming && w.loading == v.loading
  {
    match e
    case AiChunk(content) =>
      if content.Some? && content.value != "" then v.(text := v.text + content.value)
      else
        assert content.Some? ==> v.text + content.value == v.text;
        v
    case AiComplete(hasMessage) =>
      // a missing `message` throws while reading its timestamp, before `restoreUIState()`
      var w := v.(streaming := false);
      if hasMessage then RestoreUIState(w) else w
    case ErrorEvent(error) => RestoreUIState(v.(attached := false, errors := v.errors + [error]))
    case _ => v
  }

  // ---------------------------------------------------------------------
  // Lines to events
  // ---------------------------------------------------------------------

  const DataPrefix := "data: "
  const DoneMarker := "[DONE]"

  /** What one complete line asks of the reader. */
  datatype LineAction = Skip | Finish | Deliver(event: ClientEvent)

  /**
   * A payload (`line.slice(6).trim()`): the end marker finishes, an empty
   * payload and one `JSON.parse` rejects (`parse` yields `None`) are skipped.
   */
  function PayloadAction(data: string, parse: string -> Option<ClientEvent>): (a: LineAction)
    ensures a.Finish? <==> data == DoneMarker
    ensures data == "" ==> a == Skip
    ensures a.Deliver? ==> parse(data) == Some(a.event)
    ensures data != DoneMarker && data != "" && parse(data).Some? ==> a == Deliver(parse(data).value)
  {
    if data == DoneMarker then Finish
    else if data == "" then Skip
    else match parse(data)
      case None => Skip
      case Some(e) => Deliver(e)
  }

  /** One complete line: only `data: ` lines are looked at. */
  function ClientLine(line: string, parse: string -> Option<ClientEvent>): LineAction {
    if StartsWith(line, DataPrefix) then PayloadAction(Strip(line[|DataPrefix|..]), parse) else Skip
  }

  function Actions(lines: seq<string>, parse: string -> Option<ClientEvent>): (r: seq<LineAction>)
    ensures |r| == |lines|
    ensures forall k :: 0 <= k < |lines| ==> r[k] == ClientLine(lines[k], parse)
  {
    seq(|lines|, k requires 0 <= k < |lines| => ClientLine(lines[k], parse))
  }

  lemma ActionsAppend(a: seq<string>, b: seq<string>, parse: string -> Option<ClientEvent>)
    ensures Actions(a + b, parse) == Actions(a, parse) + Actions(b, parse)
  {
  }

  /** The view after a run of line actions, and whether the end marker was reached. */
  datatype Progress = Progress(view: ClientView, finished: bool)

  /** The view after one action that is not the end marker. */
  function Apply(v: ClientView, a: LineAction): ClientView {
    match a
    case Deliver(e) => HandleStreamChunk(v, e)
    case _ => v
  }

  /** The actions applied in order until the end marker. */
  function Replay(actions: seq<LineAction>, v: ClientView): Progress {
    if actions == [] then Progress(v, false)
    else if actions[0].Finish? then Progress(v, true)
    else Replay(actions[1..], Apply(v, actions[0]))
  }

  /** A replay finishes exactly when the actions hold the end marker. */
  lemma {:induction false} ReplayFinishes(actions: seq<LineAction>, v: ClientView)
    ensures Replay(actions, v).finished <==> Finish in actions
  {
    if actions != [] && !actions[0].Finish? {
      ReplayFinishes(actions[1..], Apply(v, actions[0]));
      assert actions == [actions[0]] + actions[1..];
    }
  }

  /** Replaying two runs is replaying the second from where the first left off, unless the first finished. */
  lemma {:induction false} ReplayAppend(a: seq<LineAction>, b: seq<LineAction>, v: ClientView)
    ensures Replay(a + b, v) == (var p := Replay(a, v); if p.finished then p else Replay(b, p.view))
  {
    if a == [] {
      assert a + b == b;
    } else {
      assert (a + b)[0] == a[0] && (a + b)[1..] == a[1..] + b;
      ReplayAppend(a[1..], b, Apply(v, a[0]));
    }
  }

  /** The text a run of actions adds: the truthy `ai_chunk` contents in order, up to the end marker. */
  function Shown(actions: seq<LineAction>): string {
    if actions == [] then ""
    else match actions[0]
      case Finish => ""
      case Skip => Shown(actions[1..])
      case Deliver(e) =>
        (if e.AiChunk? && e.content.Some? then e.content.value else "") + Shown(actions[1..])
  }

  /** The streaming message's text is what it started with followed by exactly the delivered chunk contents. */
  lemma {:induction false} ReplayShows(actions: seq<LineAction>, v: ClientView)
    ensures Replay(actions, v).view.text == v.text + Shown(actions)
  {
    if actions == [] {
      assert v.text + "" == v.text;
    } else {
      ReplayShows(actions[1..], Apply(v, actions[0]));
      if actions[0].Finish? {
        assert v.text + "" == v.text;
      }
    }
  }

  /** Once the end marker has been read nothing after it is looked at. */
  lemma FinishedStaysFinished(a: seq<LineAction>, b: seq<LineAction>, v: ClientView)
    requires Replay(a, v).finished
    ensures Replay(a + b, v) == Replay(a, v)
  {
    ReplayAppend(a, b, v);
  }

  // ---------------------------------------------------------------------
  // The read loop
  // ---------------------------------------------------------------------

  lemma Regroup<T>(t: seq<T>, l: seq<T>, j: nat, c: seq<T>)
    requires j <= |l|
    ensures (t + l) + c == (t + l[..j]) + (l[j..] + c)
  {
    assert l == l[..j] + l[j..];
  }

  lemma SplitOffLast<T>(t: seq<T>, p: seq<T>)
    requires |p| >= 1
    ensures t + p == (t + p[..|p| - 1]) + [p[|p| - 1]]
  {
    assert p == p[..|p| - 1] + [p[|p| - 1]];
  }

  lemma TakeOneMore<T>(t: seq<T>, l: seq<T>, j: nat)
    requires j < |l|
    ensures t + l[..j + 1] == (t + l[..j]) + [l[j]]
  {
    assert l[..j + 1] == l[..j] + [l[j]];
  }

  /** One more complete line handled. */
  lemma LineStep(prefix: seq<string>, line: string, parse: string -> Option<ClientEvent>, v: ClientView)
    requires Replay(Actions(prefix, parse), Sending) == Progress(v, false)
    ensures Replay(Actions(prefix + [line], parse), Sending) ==
            if ClientLine(line, parse).Finish? then Progress(v, true) else Progress(Apply(v, ClientLine(line, parse)), false)
  {
    ActionsAppend(prefix, [line], parse);
    ReplayAppend(Actions(prefix, parse), Actions([line], parse), Sending);
    assert Actions([line], parse) == [ClientLine(line, parse)];
  }

  /** One more chunk received: the lines taken so far and the new pieces make up everything received. */
  lemma ChunkStep(chunks: seq<string>, i: nat, taken: seq<string>, buffer: string)
    requires i < |chunks|
    requires Join(taken + [buffer]) == Concat(chunks[..i])
    ensures Join(taken + Split(buffer + chunks[i])) == Concat(chunks[..i + 1])
  {
    ConcatAppend(chunks[..i], [chunks[i]]);
    assert chunks[..i + 1] == chunks[..i] + [chunks[i]];
    ExtendLast(taken, buffer, chunks[i]);
  }

  /** When the reader reports `done` the unfinished tail is dropped. */
  lemma BodyEnded(chunks: seq<string>, taken: seq<string>, buffer: string)
    requires forall k :: 0 <= k < |taken| ==> NoNewline(taken[k])
    requires NoNewline(buffer)
    requires Join(taken + [buffer]) == Concat(chunks)
    ensures CompleteLines(Concat(chunks)) == taken
  {
    assert chunks[..|chunks|] == chunks;
    ReceivedLines(chunks, |chunks|, taken, buffer);
    assert chunks[|chunks|..] == [];
    assert buffer + Concat(chunks[|chunks|..]) == buffer;
    SplitJoin([buffer]);
  }

  /** When the end marker is line `j` of the lines cut from chunk `i`, the lines after it do not matter. */
  lemma MarkerEnds(chunks: seq<string>, i: nat, taken: seq<string>, lines: seq<string>, j: nat, buffer: string,
                   parse: string -> Option<ClientEvent>)
    requires i < |chunks| && j < |lines|
    requires forall k :: 0 <= k < |taken| ==> NoNewline(taken[k])
    requires forall k :: 0 <= k < |lines| ==> NoNewline(lines[k])
    requires NoNewline(buffer)
    requires Join(taken + lines + [buffer]) == Concat(chunks[..i + 1])
    requires Replay(Actions(taken + lines[..j + 1], parse), Sending).finished
    ensures Replay(Actions(CompleteLines(Concat(chunks)), parse), Sending) == Replay(Actions(taken + lines[..j + 1], parse), Sending)
  {
    var upto := taken + lines;
    assert forall k :: 0 <= k < |upto| ==> NoNewline(upto[k]);
    ReceivedLines(chunks, i + 1, upto, buffer);
    var rest := CompleteLines(buffer + Concat(chunks[i + 1..]));
    var later := lines[j + 1..] + rest;
    Regroup(taken, lines, j + 1, rest);
    ActionsAppend(taken + lines[..j + 1], later, parse);
    FinishedStaysFinished(Actions(taken + lines[..j + 1], parse), Actions(later, parse), Sending);
  }

  /**
   * The read loop of `sendMessage`: `chunks` are the decoded chunks the
   * reader returns before reporting `done`. The page ends up as if the
   * complete lines of the whole body had been handled in order, up to the end
   * marker; a last line without its newline is never handled. Either way the
   * stream counts as completed and input is enabled again.
   */
  method ReadEventStream(chunks: seq<string>, parse: string -> Option<ClientEvent>) returns (view: ClientView, completed: bool)
    ensures completed
    ensures view == RestoreUIState(Replay(Actions(CompleteLines(Concat(chunks)), parse), Sending).view)
  {
    view := Sending;
    completed := false;
    var buffer := "";
    ghost var taken: seq<string> := [];
    var i := 0;
    while true
      invariant 0 <= i <= |chunks|
      invariant forall k :: 0 <= k < |taken| ==> NoNewline(taken[k])
      invariant NoNewline(buffer)
      invariant Join(taken + [buffer]) == Concat(chunks[..i])
      invariant Replay(Actions(taken, parse), Sending) == Progress(view, false)
      decreases |chunks| - i
    {
      if i == |chunks| {
        assert chunks[..i] == chunks;
        BodyEnded(chunks, taken, buffer);
        completed := true;
        break;
      }
      ChunkStep(chunks, i, taken, buffer);
      var pieces := Split(buffer + chunks[i]);
      buffer := pieces[|pieces| - 1];
      var lines := pieces[..|pieces| - 1];
      SplitOffLast(taken, pieces);
      var j := 0;
      assert taken + lines[..0] == taken;
      while j < |lines|
        invariant 0 <= j <= |lines|
        invariant Replay(Actions(taken + lines[..j], parse), Sending) == Progress(view, false)
      {
        LineStep(taken + lines[..j], lines[j], parse, view);
        TakeOneMore(taken, lines, j);
        var next, finished := HandleLine(view, lines[j], parse);
        if finished {
          MarkerEnds(chunks, i, taken, lines, j, buffer, parse);
          completed := true;
          break;
        }
        view := next;
        j := j + 1;
      }
      if completed {
        break;
      }
      assert lines[..j] == lines;
      taken := taken + lines;
      i := i + 1;
    }
    view := RestoreUIState(view);
  }

  /**
   * One pass of the `for (const line of lines)` body: a `data: ` line whose
   * trimmed payload is `[DONE]` finishes the stream; a non-empty payload that
   * parses is handed to `handleStreamChunk`; anything else leaves the page alone.
   */
  method HandleLine(view: ClientView, line: string, parse: string -> Option<ClientEvent>) returns (next: ClientView, finished: bool)
    ensures finished <==> ClientLine(line, parse).Finish?
    ensures next == Apply(view, ClientLine(line, parse))
  {
    next, finished := view, false;
    if StartsWith(line, DataPrefix) {
      var data := Strip(line[|DataPrefix|..]);
      assert ClientLine(line, parse) == PayloadAction(data, parse);
      if data == DoneMarker {
        finished := true;
        return;
      }
      if data != "" {
        var event := parse(data);
        if event.Some? {
          next := HandleStreamChunk(view, event.value);
        }
      }
    }
  }

  /** The text of the finished reply is exactly the truthy `ai_chunk` contents of the body's complete lines up to the end marker. */
  lemma DisplayedText(chunks: seq<string>, parse: string -> Option<ClientEvent>)
    ensures RestoreUIState(Replay(Actions(CompleteLines(Concat(chunks)), parse), Sending).view).text
         == Shown(Actions(CompleteLines(Concat(chunks)), parse))
  {
    ReplayShows(Actions(CompleteLines(Concat(chunks)), parse), Sending);
  }

  // ---------------------------------------------------------------------
  // The request around the read loop, and its `catch` branch
  // ---------------------------------------------------------------------

  /**
   * What `fetch('/api/chat/send-stream', ...)` gives: a rejected promise with
   * its error message, or a response with its status, status text and the
   * decoded chunks of its body.
   */
  datatype FetchOutcome =
    | Rejected(message: string)
    | Answered(status: nat, statusText: string, chunks: seq<string>)

  /** `response.ok`. */
  predicate Ok(status: nat) {
    200 <= status <= 299
  }

  function DigitChar(d: nat): char
    requires d < 10
  {
    (('0' as int) + d) as char
  }

  /** A number as JavaScript's template literal writes it. */
  function Decimal(n: nat): (s: string)
    ensures |s| >= 1
  {
    if n < 10 then [DigitChar(n)] else Decimal(n / 10) + [DigitChar(n % 10)]
  }

  /** The message of the error thrown for a response that is not ok: `HTTP ${status}: ${statusText}`. */
  function HttpErrorMessage(status: nat, statusText: string): string {
    "HTTP " + Decimal(status) + ": " + statusText
  }

  const TimeoutNotice := "请求超时，请稍后重试"
  const NetworkNotice := "网络连接失败，请检查网络"
  const SendFailedNotice := "发送消息失败，请重试"

  /** The error the `catch` branch shows for an error with this message. */
  function CatchNotice(message: string): (notice: string)
    ensures Contains(message, "timeout") || Contains(message, "Timeout") ==> notice == TimeoutNotice
    ensures !Contains(message, "timeout") && !Contains(message, "Timeout") && Contains(message, "Failed to fetch") ==> notice == NetworkNotice
    ensures notice == SendFailedNotice <==> !Contains(message, "timeout") && !Contains(message, "Timeout") && !Contains(message, "Failed to fetch")
  {
    if Contains(message, "timeout") || Contains(message, "Timeout") then TimeoutNotice
    else if Contains(message, "Failed to fetch") then NetworkNotice
    else SendFailedNotice
  }

  /** The page after the `catch` branch and the `finally` block: the streaming message is gone and one error is shown. */
  function Failed(message: string): ClientView {
    RestoreUIState(Sending.(attached := false, errors := [CatchNotice(message)]))
  }

  /** The page after `sendMessage` for a fetch outcome: the read loop's page when the response is ok, otherwise the `catch` branch's. */
  function SendView(outcome: FetchOutcome, parse: string -> Option<ClientEvent>): ClientView {
    match outcome
    case Rejected(message) => Failed(message)
    case Answered(status, statusText, chunks) =>
      if Ok(status) then RestoreUIState(Replay(Actions(CompleteLines(Concat(chunks)), parse), Sending).view)
      else Failed(HttpErrorMessage(status, statusText))
  }

  /**
   * The `try`/`catch`/`finally` of `sendMessage` around the read loop: a
   * rejected fetch or a response that is not ok throws before the body is
   * read, and the `finally` block enables input again on every path.
   */
  method SendMessageStream(outcome: FetchOutcome, parse: string -> Option<ClientEvent>) returns (view: ClientView)
    ensures view == SendView(outcome, parse)
    ensures !view.loading
  {
    if outcome.Rejected? {
      view := Failed(outcome.message);
    } else if !Ok(outcome.status) {
      view := Failed(HttpErrorMessage(outcome.status, outcome.statusText));
    } else {
      var completed;
      view, completed := ReadEventStream(outcome.chunks, parse);
      if completed {
        view := RestoreUIState(view);
      }
    }
    view := RestoreUIState(view);
  }

  /**
   * Nothing of a failed request reaches the page: the message element is
   * removed, input is enabled again and exactly one error is shown.
   */
  lemma FailureShowsOneError(outcome: FetchOutcome, parse: string -> Option<ClientEvent>)
    requires outcome.Rejected? || !Ok(outcome.status)
    ensures var v := SendView(outcome, parse);
      v.text == "" && !v.attached && !v.loading && |v.errors| == 1
      && v.errors[0] in {TimeoutNotice, NetworkNotice, SendFailedNotice}
  {
  }

  /** A status text that mentions `Timeout` (408 Request Timeout, 504 Gateway Timeout) is reported as a timeout. */
  lemma TimeoutStatusReported(status: nat, statusText: string, chunks: seq<string>, parse: string -> Option<ClientEvent>)
    requires !Ok(status) && Contains(statusText, "Timeout")
    ensures SendView(Answered(status, statusText, chunks), parse).errors == [TimeoutNotice]
  {
    ContainsSuffix("HTTP " + Decimal(status) + ": ", statusText, "Timeout");
    assert HttpErrorMessage(status, statusText) == ("HTTP " + Decimal(status) + ": ") + statusText;
  }

  /**
   * The 404 a server without the `/api/chat/send-stream` route answers with
   * goes through the `catch` branch: whatever the body, the reply is dropped
   * and the generic 发送消息失败 error is shown.
   */
  lemma NotFoundFails(statusText: string, chunks: seq<string>, parse: string -> Option<ClientEvent>)
    requires !Contains(statusText, "timeout") && !Contains(statusText, "Timeout") && !Contains(statusText, "Failed to fetch")
    ensures SendView(Answered(404, statusText, chunks), parse) == ClientView("", true, false, false, [SendFailedNotice])
  {
    var p := "HTTP 404: ";
    assert Decimal(404) == Decimal(40) + [DigitChar(4)];
    assert Decimal(40) == Decimal(4) + [DigitChar(0)];
    assert HttpErrorMessage(404, statusText) == p + statusText;
    NoNeedleInStatusPrefix(statusText, "timeout");
    NoNeedleInStatusPrefix(statusText, "Timeout");
    NoNeedleInStatusPrefix(statusText, "Failed to fetch");
  }

  /** None of the notices' keywords starts inside `HTTP 404: `. */
  lemma NoNeedleInStatusPrefix(s: string, t: string)
    requires t == "timeout" || t == "Timeout" || t == "Failed to fetch"
    ensures Contains("HTTP 404: " + s, t) <==> Contains(s, t)
  {
    var p := "HTTP 404: ";
    forall k | 0 <= k < |p|
      ensures !StartsWith(p[k..] + s, t)
    {
      var x := p[k..] + s;
      assert x[0] == p[k];
      if k + 1 < |p| {
        assert x[1] == p[k + 1];
      }
      assert k == 0 || k == 1 || k == 2 || k == 3 || k == 4 || k == 5 || k == 6 || k == 7 || k == 8 || k == 9;
    }
    ContainsAfterPrefix(p, s, t);
  }
}
