/**
 * The upstream client (app/services/api_service.py): effective settings,
 * the chat completion request with its demo mode and error messages, the
 * push-stream chunk normaliser, the older accumulating stream reader and the
 * connection probe. The network and `json.loads` are parameters.
 */
module ApiService {
  import opened Wrappers
  import opened Text
  import opened MessageModel
  import Cfg = ConfigModel

  // ---------------------------------------------------------------------
  // Payloads of the upstream push stream, as `json.loads` returns them
  // ---------------------------------------------------------------------

  /** A JSON value where the source expects text: `null` or a string. */
  datatype JValue = JNull | JString(s: string)

  /** The `delta` object of a streamed choice; `content` is `None` when the key is absent. */
  datatype Delta = Delta(content: Option<JValue>)

  /** One element of a streamed `choices` list; `delta` is `None` when the key is absent. */
  datatype StreamChoice = StreamChoice(delta: Option<Delta>)

  /**
   * The result of `json.loads(data)` for one `data: ` payload: a parse failure,
   * or an object of which only the three probed keys matter (`None` = key absent).
   */
  datatype Payload =
    | Unparseable
    | Object(choices: Option<seq<StreamChoice>>, content: Option<JValue>, text: Option<JValue>)

  const DataPrefix := "data: "
  const DoneMarker := "[DONE]"
  /** The prefix of the exception the stream reader raises on an unexpected error. */
  const StreamFailurePrefix := "响应处理失败: "
  /** `str(IndexError)` for `[][0]`. */
  const IndexErrorText := "list index out of range"
  /** `str(TypeError)` for `'' + None`. */
  const ConcatErrorText := "can only concatenate str (not \"NoneType\") to str"

  /** A value read with `.get(...)` and tested with `if content:`: its text when it is a non-empty string. */
  function TextOf(v: Option<JValue>): (o: Option<string>)
    ensures o.Some? <==> (v.Some? && v.value.JString? && v.value.s != "")
    ensures o.Some? ==> v == Some(JString(o.value))
  {
    match v
    case Some(JString(s)) => if s != "" then Some(s) else None
    case _ => None
  }

  /** `choice.get('delta', {})`. */
  function DeltaOf(c: StreamChoice): Delta {
    c.delta.GetOr(Delta(None))
  }

  /** What one parsed chunk contributes: a fragment, nothing, or an exception. */
  datatype Extraction = Fragment(text: string) | NoFragment | Raises(error: string)

  /**
   * The envelope probe of `_stream_response_generator`: the first of `choices`,
   * `content` and `text` that is present as a key decides, and only a truthy
   * string becomes a fragment. An empty `choices` list raises `IndexError`.
   */
  function ExtractFragment(chunk: Payload): (e: Extraction)
    requires chunk.Object?
    ensures e.Raises? <==> chunk.choices == Some([])
    ensures e.Fragment? ==> e.text != ""
    ensures chunk.choices.Some? && chunk.choices.value != [] ==>
              (e.Fragment? <==> TextOf(DeltaOf(chunk.choices.value[0]).content).Some?)
    ensures e.Fragment? ==>
              if chunk.choices.Some? then DeltaOf(chunk.choices.value[0]).content == Some(JString(e.text))
              else if chunk.content.Some? then chunk.content == Some(JString(e.text))
              else chunk.text == Some(JString(e.text))
  {
    var content :=
      if chunk.choices.Some? then
        (if chunk.choices.value == [] then None else TextOf(DeltaOf(chunk.choices.value[0]).content))
      else if chunk.content.Some? then TextOf(chunk.content)
      else TextOf(chunk.text);
    if chunk.choices == Some([]) then Raises(IndexErrorText)
    else if content.Some? then Fragment(content.value)
    else NoFragment
  }

  /** Once `choices` is present, the flat `content` and `text` keys are never consulted. */
  lemma ChoicesShadowFlatKeys(choices: seq<StreamChoice>, c1: Option<JValue>, t1: Option<JValue>, c2: Option<JValue>, t2: Option<JValue>)
    ensures ExtractFragment(Object(Some(choices), c1, t1)) == ExtractFragment(Object(Some(choices), c2, t2))
  {
  }

  /** Without `choices`, a present `content` key shadows `text`; only a chunk with neither uses `text`. */
  lemma ContentShadowsText(c: JValue, t1: Option<JValue>, t2: Option<JValue>, t: Option<JValue>)
    ensures ExtractFragment(Object(None, Some(c), t1)) == ExtractFragment(Object(None, Some(c), t2))
    ensures ExtractFragment(Object(None, None, t)) == if TextOf(t).Some? then Fragment(TextOf(t).value) else NoFragment
  {
  }

  /** The effect of one raw line on the fragment stream. */
  datatype LineEffect = Ignore | Yield(fragment: string) | EndOfStream | Fail(error: string)

  /** How `_stream_response_generator` treats one line of `response.iter_lines()`. */
  function ClassifyLine(line: string, parse: string -> Payload): LineEffect {
    if line == "" || !StartsWith(line, DataPrefix) then Ignore else DataEffect(line[|DataPrefix|..], parse)
  }

  lemma ClassifyLineCases(line: string, parse: string -> Payload)
    ensures var e := ClassifyLine(line, parse);
      && ((line == "" || !StartsWith(line, DataPrefix)) ==> e == Ignore)
      && (StartsWith(line, DataPrefix) && Strip(line[|DataPrefix|..]) == DoneMarker ==> e == EndOfStream)
      && (StartsWith(line, DataPrefix) && Strip(line[|DataPrefix|..]) != DoneMarker && parse(line[|DataPrefix|..]).Unparseable? ==> e == Ignore)
      && (e.Yield? ==> e.fragment != "")
      && (e.Fail? ==> e.error == StreamFailurePrefix + IndexErrorText)
  {
  }

  /** The effect of a `data: ` line with payload `data`. */
  function DataEffect(data: string, parse: string -> Payload): LineEffect {
    if Strip(data) == DoneMarker then EndOfStream else ChunkEffect(parse(data))
  }

  /** The effect of a payload other than the end marker, once parsed. */
  function ChunkEffect(chunk: Payload): (e: LineEffect)
    ensures e.Yield? ==> e.fragment != ""
    ensures e.Fail? ==> e.error == StreamFailurePrefix + IndexErrorText
    ensures !e.EndOfStream?
  {
    if chunk.Unparseable? then Ignore
    else match ExtractFragment(chunk)
      case Fragment(f) => Yield(f)
      case NoFragment => Ignore
      case Raises(err) => Fail(StreamFailurePrefix + err)
  }

  /** What the fragment generator produces: the fragments it yields, then possibly the exception it raises. */
  datatype StreamOutcome = StreamOutcome(fragments: seq<string>, error: Option<string>)

  function Prepend(fs: seq<string>, o: StreamOutcome): StreamOutcome {
    StreamOutcome(fs + o.fragments, o.error)
  }

  lemma PrependTwice(a: seq<string>, b: seq<string>, o: StreamOutcome)
    ensures Prepend(a + b, o) == Prepend(a, Prepend(b, o))
  {
    assert (a + b) + o.fragments == a + (b + o.fragments);
  }

  /** The effect of every line, in order. */
  function Effects(lines: seq<string>, parse: string -> Payload): (es: seq<LineEffect>)
    ensures |es| == |lines|
    ensures forall i :: 0 <= i < |lines| ==> es[i] == ClassifyLine(lines[i], parse)
  {
    seq(|lines|, i requires 0 <= i < |lines| => ClassifyLine(lines[i], parse))
  }

  lemma EffectsSplit(pre: seq<string>, line: string, post: seq<string>, parse: string -> Payload)
    ensures Effects(pre + [line] + post, parse) == Effects(pre, parse) + [ClassifyLine(line, parse)] + Effects(post, parse)
  {
    var lhs := Effects(pre + [line] + post, parse);
    var rhs := Effects(pre, parse) + [ClassifyLine(line, parse)] + Effects(post, parse);
    assert |lhs| == |rhs|;
    forall i | 0 <= i < |lhs| ensures lhs[i] == rhs[i] {
      if i < |pre| {
        assert (pre + [line] + post)[i] == pre[i];
      } else if i == |pre| {
        assert (pre + [line] + post)[i] == line;
      } else {
        assert (pre + [line] + post)[i] == post[i - |pre| - 1];
      }
    }
  }

  lemma EffectsConcat(a: seq<string>, b: seq<string>, parse: string -> Payload)
    ensures Effects(a + b, parse) == Effects(a, parse) + Effects(b, parse)
  {
    var lhs := Effects(a + b, parse);
    var rhs := Effects(a, parse) + Effects(b, parse);
    assert |lhs| == |rhs|;
    forall i | 0 <= i < |lhs| ensures lhs[i] == rhs[i] {
      if i < |a| {
        assert (a + b)[i] == a[i];
      } else {
        assert (a + b)[i] == b[i - |a|];
      }
    }
  }

  /** Running the generator over the line effects: fragments until the end marker or the failure. */
  function Run(effects: seq<LineEffect>): (o: StreamOutcome)
    ensures (forall k :: 0 <= k < |effects| && effects[k].Yield? ==> effects[k].fragment != "") ==>
              forall i :: 0 <= i < |o.fragments| ==> o.fragments[i] != ""
    ensures |o.fragments| <= |effects|
  {
    if effects == [] then StreamOutcome([], None)
    else match effects[0]
      case Ignore => Run(effects[1..])
      case Yield(f) => Prepend([f], Run(effects[1..]))
      case EndOfStream => StreamOutcome([], None)
      case Fail(err) => StreamOutcome([], Some(err))
  }

  /** The fragments `_stream_response_generator(response)` yields from the lines of `response`. */
  function Normalize(lines: seq<string>, parse: string -> Payload): (o: StreamOutcome)
    ensures forall i :: 0 <= i < |o.fragments| ==> o.fragments[i] != ""
    ensures |o.fragments| <= |lines|
  {
    EffectsYieldText(lines, parse);
    Run(Effects(lines, parse))
  }

  lemma EffectsYieldText(lines: seq<string>, parse: string -> Payload)
    ensures var es := Effects(lines, parse);
      forall k :: 0 <= k < |es| && es[k].Yield? ==> es[k].fragment != ""
  {
    forall k | 0 <= k < |lines| {
      ClassifyLineCases(lines[k], parse);
    }
  }

  /** The generator reads one line at a time: the first line's effect, then the rest. */
  lemma NormalizeStep(lines: seq<string>, parse: string -> Payload)
    requires lines != []
    ensures Normalize(lines, parse) == match ClassifyLine(lines[0], parse)
      case Ignore => Normalize(lines[1..], parse)
      case Yield(f) => Prepend([f], Normalize(lines[1..], parse))
      case EndOfStream => StreamOutcome([], None)
      case Fail(err) => StreamOutcome([], Some(err))
  {
    assert Effects(lines, parse)[1..] == Effects(lines[1..], parse);
  }

  function Terminates(e: LineEffect): bool { e.EndOfStream? || e.Fail? }

  /** How many leading lines are read before the stream ends: up to the end marker or the failing line. */
  function LinesBeforeEnd(effects: seq<LineEffect>): (n: nat)
    ensures n <= |effects|
    ensures forall i :: 0 <= i < n ==> !Terminates(effects[i])
    ensures n < |effects| ==> Terminates(effects[n])
  {
    if effects == [] then 0
    else if Terminates(effects[0]) then 0
    else
      var n := LinesBeforeEnd(effects[1..]);
      assert forall i :: 1 <= i <= n ==> effects[i] == effects[1..][i - 1];
      1 + n
  }

  /** The fragment a single line contributes on its own. */
  function Contribution(e: LineEffect): seq<string> {
    if e.Yield? then [e.fragment] else []
  }

  function ConcatMap(effects: seq<LineEffect>): seq<string> {
    if effects == [] then [] else Contribution(effects[0]) + ConcatMap(effects[1..])
  }

  /**
   * The generator is a per-line map: its fragments are, in line order, those of
   * the lines before the end marker or failure; it raises exactly when a failing
   * line comes before any end marker.
   */
  lemma {:induction false} RunIsConcatMap(effects: seq<LineEffect>)
    ensures var n := LinesBeforeEnd(effects);
      && Run(effects).fragments == ConcatMap(effects[..n])
      && Run(effects).error == if n < |effects| && effects[n].Fail? then Some(effects[n].error) else None
  {
    if effects != [] && !Terminates(effects[0]) {
      RunIsConcatMap(effects[1..]);
      var n := LinesBeforeEnd(effects[1..]);
      assert effects[..n + 1] == [effects[0]] + effects[1..][..n];
    }
  }

  lemma NormalizeIsConcatMap(lines: seq<string>, parse: string -> Payload)
    ensures var es := Effects(lines, parse); var n := LinesBeforeEnd(es);
      && Normalize(lines, parse).fragments == ConcatMap(es[..n])
      && Normalize(lines, parse).error == if n < |lines| && ClassifyLine(lines[n], parse).Fail?
                                          then Some(ClassifyLine(lines[n], parse).error) else None
  {
    RunIsConcatMap(Effects(lines, parse));
  }

  lemma {:induction false} RunIgnoreRemovable(pre: seq<LineEffect>, post: seq<LineEffect>)
    ensures Run(pre + [Ignore] + post) == Run(pre + post)
  {
    if pre == [] {
      assert pre + [Ignore] + post == [Ignore] + post;
      assert ([Ignore] + post)[0] == Ignore;
      assert ([Ignore] + post)[1..] == post && pre + post == post;
    } else {
      assert (pre + [Ignore] + post)[0] == pre[0];
      assert (pre + post)[0] == pre[0];
      assert (pre + [Ignore] + post)[1..] == pre[1..] + [Ignore] + post;
      assert (pre + post)[1..] == pre[1..] + post;
      RunIgnoreRemovable(pre[1..], post);
    }
  }

  /** A line that the generator ignores can be removed without changing its output. */
  lemma IgnoredLineRemovable(pre: seq<string>, line: string, post: seq<string>, parse: string -> Payload)
    requires ClassifyLine(line, parse) == Ignore
    ensures Normalize(pre + [line] + post, parse) == Normalize(pre + post, parse)
  {
    EffectsSplit(pre, line, post, parse);
    EffectsConcat(pre, post, parse);
    RunIgnoreRemovable(Effects(pre, parse), Effects(post, parse));
  }

  /** Empty lines and lines without the exact `data: ` prefix never produce a fragment. */
  lemma NonDataLineRemovable(pre: seq<string>, line: string, post: seq<string>, parse: string -> Payload)
    requires line == "" || !StartsWith(line, DataPrefix)
    ensures Normalize(pre + [line] + post, parse) == Normalize(pre + post, parse)
  {
    ClassifyLineCases(line, parse);
    IgnoredLineRemovable(pre, line, post, parse);
  }

  /** A payload that fails to parse is skipped: it neither yields nor ends the stream. */
  lemma UnparseableLineRemovable(pre: seq<string>, line: string, post: seq<string>, parse: string -> Payload)
    requires StartsWith(line, DataPrefix) && Strip(line[|DataPrefix|..]) != DoneMarker
    requires parse(line[|DataPrefix|..]) == Unparseable
    ensures Normalize(pre + [line] + post, parse) == Normalize(pre + post, parse)
  {
    ClassifyLineCases(line, parse);
    IgnoredLineRemovable(pre, line, post, parse);
  }

  lemma {:induction false} RunStopsAtEnd(pre: seq<LineEffect>, post: seq<LineEffect>)
    ensures Run(pre + [EndOfStream] + post) == Run(pre + [EndOfStream])
  {
    if pre == [] {
      assert pre + [EndOfStream] + post == [EndOfStream] + post;
      assert pre + [EndOfStream] == [EndOfStream];
    } else {
      assert (pre + [EndOfStream] + post)[0] == pre[0];
      assert (pre + [EndOfStream])[0] == pre[0];
      assert (pre + [EndOfStream] + post)[1..] == pre[1..] + [EndOfStream] + post;
      assert (pre + [EndOfStream])[1..] == pre[1..] + [EndOfStream];
      RunStopsAtEnd(pre[1..], post);
    }
  }

  /** After a `data: [DONE]` line nothing that follows contributes. */
  lemma EndMarkerStops(pre: seq<string>, line: string, post: seq<string>, parse: string -> Payload)
    requires StartsWith(line, DataPrefix) && Strip(line[|DataPrefix|..]) == DoneMarker
    ensures Normalize(pre + [line] + post, parse) == Normalize(pre + [line], parse)
  {
    ClassifyLineCases(line, parse);
    EffectsSplit(pre, line, post, parse);
    EffectsSplit(pre, line, [], parse);
    assert pre + [line] + [] == pre + [line];
    assert Effects([], parse) == [];
    assert Effects(pre, parse) + [EndOfStream] + [] == Effects(pre, parse) + [EndOfStream];
    RunStopsAtEnd(Effects(pre, parse), Effects(post, parse));
  }

  /** The demo fragments streamed when no API key is configured. */
  const DemoChunks: seq<string> := ["您好！", "我是", "AI", "助手，", "很高兴", "为您", "服务！", "请问", "有什么", "我可以", "帮助您的吗？"]

  /** The canned reply sent when no API key is configured and no stream is requested. */
  const CannedGreeting := "您好！我是AI助手，很高兴为您服务！请问有什么我可以帮助您的吗？"

  /** Three steps of `''.join` at position `k`. */
  lemma ConcatUnfold3(p: seq<string>, k: nat)
    requires k + 3 <= |p|
    ensures Concat(p[k..]) == p[k] + (p[k + 1] + (p[k + 2] + Concat(p[k + 3..])))
  {
    ConcatUnfold(p, k);
    ConcatUnfold(p, k + 1);
    ConcatUnfold(p, k + 2);
  }

  /** `''.join` of eleven parts, right-nested as `Concat` unfolds. */
  lemma ConcatEleven(p: seq<string>)
    requires |p| == 11
    ensures Concat(p) == p[0] + (p[1] + (p[2] + (p[3] + (p[4] + (p[5] + (p[6] + (p[7] + (p[8] + (p[9] + p[10])))))))))
  {
    ConcatUnfold3(p, 0);
    ConcatUnfold3(p, 3);
    ConcatUnfold3(p, 6);
    ConcatUnfold(p, 9);
    ConcatUnfold(p, 10);
    assert p[11..] == [];
    assert p[0..] == p;
    assert p[10] + "" == p[10];
  }

  lemma GreetingSpelledOut()
    ensures "您好！" + ("我是" + ("AI" + ("助手，" + ("很高兴" + ("为您" + ("服务！" + ("请问" + ("有什么" + ("我可以" + "帮助您的吗？")))))))))
         == CannedGreeting
  {
  }

  /** The demo stream has eleven fragments, none of them empty. */
  lemma DemoChunksNonEmpty()
    ensures |DemoChunks| == 11
    ensures "" !in DemoChunks
  {
  }

  /** The demo fragments spell out the canned greeting. */
  lemma DemoChunksSpellGreeting()
    ensures Concat(DemoChunks) == CannedGreeting
  {
    ConcatEleven(DemoChunks);
    GreetingSpelledOut();
  }

  /**
   * `_stream_response_generator(response)`, with the fragments it yields
   * collected in order; `response == None` is the no-key demo mode.
   */
  method StreamResponseGenerator(response: Option<seq<string>>, parse: string -> Payload)
    returns (fragments: seq<string>, error: Option<string>)
    ensures response.None? ==> fragments == DemoChunks && error == None
    ensures response.Some? ==> StreamOutcome(fragments, error) == Normalize(response.value, parse)
  {
    var chunkCount := 0;
    fragments, error := [], None;
    if response.None? {
      for k := 0 to |DemoChunks|
        invariant fragments == DemoChunks[..k]
      {
        fragments := fragments + [DemoChunks[k]];
      }
      return;
    }
    var lines := response.value;
    var i := 0;
    assert lines[i..] == lines && [] + Normalize(lines, parse).fragments == Normalize(lines, parse).fragments;
    while i < |lines|
      invariant 0 <= i <= |lines|
      invariant chunkCount == |fragments|
      invariant Normalize(lines, parse) == Prepend(fragments, Normalize(lines[i..], parse))
    {
      var effect := GeneratorLine(lines[i], parse);
      NormalizeAt(lines, i, parse);
      match effect {
        case EndOfStream => break;
        case Fail(err) => error := Some(err); return;
        case Ignore =>
        case Yield(f) =>
          PrependTwice(fragments, [f], Normalize(lines[i + 1..], parse));
          chunkCount := chunkCount + 1;
          fragments := fragments + [f];
      }
      i := i + 1;
    }
  }

  /**
   * One pass of the generator's loop body over `line`: skip it, yield a
   * fragment, stop at the end marker, or raise.
   */
  method GeneratorLine(line: string, parse: string -> Payload) returns (effect: LineEffect)
    ensures effect == ClassifyLine(line, parse)
  {
    if line == "" || !StartsWith(line, DataPrefix) {
      return Ignore;
    }
    var data := line[|DataPrefix|..];
    assert ClassifyLine(line, parse) == DataEffect(data, parse);
    if Strip(data) == DoneMarker {
      return EndOfStream;
    }
    var chunk := parse(data);
    assert DataEffect(data, parse) == ChunkEffect(chunk);
    if chunk.Unparseable? {
      return Ignore;
    }
    var content: Option<string> := None;
    if chunk.choices.Some? {
      if chunk.choices.value == [] {
        return Fail(StreamFailurePrefix + IndexErrorText);
      }
      content := TextOf(DeltaOf(chunk.choices.value[0]).content);
    } else if chunk.content.Some? {
      content := TextOf(chunk.content);
    } else if chunk.text.Some? {
      content := TextOf(chunk.text);
    }
    assert ExtractFragment(chunk) == if content.Some? then Fragment(content.value) else NoFragment;
    effect := if content.Some? then Yield(content.value) else Ignore;
  }

  /** The generator reads line `i` and then the lines after it. */
  lemma NormalizeAt(lines: seq<string>, i: nat, parse: string -> Payload)
    requires i < |lines|
    ensures Normalize(lines[i..], parse) == match ClassifyLine(lines[i], parse)
      case Ignore => Normalize(lines[i + 1..], parse)
      case Yield(f) => Prepend([f], Normalize(lines[i + 1..], parse))
      case EndOfStream => StreamOutcome([], None)
      case Fail(err) => StreamOutcome([], Some(err))
  {
    NormalizeStep(lines[i..], parse);
    assert lines[i..][0] == lines[i] && lines[i..][1..] == lines[i + 1..];
  }

  // ---------------------------------------------------------------------
  // Non-streaming replies
  // ---------------------------------------------------------------------

  /** `choices[0]['message']` of a completion; `content` is `None` when the key is absent. */
  datatype ReplyMessage = ReplyMessage(content: Option<string>)
  /** An element of a completion's `choices`; `message` is `None` when the key is absent. */
  datatype ReplyChoice = ReplyChoice(message: Option<ReplyMessage>)
  /** A parsed completion body; `choices` is `None` when the key is absent. */
  datatype Envelope = Envelope(choices: Option<seq<ReplyChoice>>)

  /** `{'choices': [{'message': {'role': 'assistant', 'content': content}}]}`. */
  function AssistantEnvelope(content: string): Envelope {
    Envelope(Some([ReplyChoice(Some(ReplyMessage(Some(content))))]))
  }

  /** The effect of one line on `_handle_stream_response`'s accumulator. */
  datatype LegacyEffect = Keep | Append(s: string) | Stop | Crash(error: string)

  /**
   * How `_handle_stream_response` treats one line: it reads only
   * `chunk.get('choices', [{}])[0].get('delta', {})`, appends its `content`
   * whenever the key is present (an empty string included), and fails on an
   * empty `choices` list or a `null` content.
   */
  function LegacyLine(line: string, parse: string -> Payload): LegacyEffect {
    if line == "" || !StartsWith(line, DataPrefix) then Keep else LegacyData(line[|DataPrefix|..], parse)
  }

  /** The effect on the accumulator of a `data: ` line with payload `data`. */
  function LegacyData(data: string, parse: string -> Payload): LegacyEffect {
    if Strip(data) == DoneMarker then Stop else LegacyChunk(parse(data))
  }

  /** The effect on the accumulator of a payload other than the end marker, once parsed. */
  function LegacyChunk(chunk: Payload): LegacyEffect {
    match chunk
    case Unparseable => Keep
    case Object(choices, _, _) =>
      if choices.None? then Keep
      else if choices.value == [] then Crash(IndexErrorText)
      else match DeltaOf(choices.value[0]).content
        case None => Keep
        case Some(JNull) => Crash(ConcatErrorText)
        case Some(JString(s)) => Append(s)
  }

  /** The effect on the accumulator of every line, in order. */
  function LegacyEffects(lines: seq<string>, parse: string -> Payload): (es: seq<LegacyEffect>)
    ensures |es| == |lines|
    ensures forall i :: 0 <= i < |lines| ==> es[i] == LegacyLine(lines[i], parse)
  {
    seq(|lines|, i requires 0 <= i < |lines| => LegacyLine(lines[i], parse))
  }

  /** The text accumulated over the line effects, or the error hit first. */
  function LegacyRun(effects: seq<LegacyEffect>): Result<string> {
    if effects == [] then Success("")
    else match effects[0]
      case Keep => LegacyRun(effects[1..])
      case Append(s) => Extend(s, LegacyRun(effects[1..]))
      case Stop => Success("")
      case Crash(err) => Failure(err)
  }

  /** The text `_handle_stream_response` accumulates, or the error it hits. */
  function LegacyContent(lines: seq<string>, parse: string -> Payload): Result<string> {
    LegacyRun(LegacyEffects(lines, parse))
  }

  /** The accumulator after `prefix` has been appended, followed by what the remaining lines give. */
  function Extend(prefix: string, r: Result<string>): Result<string> {
    match r
    case Success(rest) => Success(prefix + rest)
    case Failure(err) => Failure(err)
  }

  lemma ExtendEmpty(r: Result<string>)
    ensures Extend("", r) == r
  {
    if r.Success? {
      assert "" + r.value == r.value;
    }
  }

  lemma ExtendTwice(a: string, b: string, r: Result<string>)
    ensures Extend(a + b, r) == Extend(a, Extend(b, r))
  {
    if r.Success? {
      assert (a + b) + r.value == a + (b + r.value);
    }
  }

  /** `_handle_stream_response(response)`: the accumulated text wrapped as a completion envelope. */
  method HandleStreamResponse(lines: seq<string>, parse: string -> Payload) returns (r: Result<Envelope>)
    ensures LegacyContent(lines, parse).Success? ==> r == Success(AssistantEnvelope(LegacyContent(lines, parse).value))
    ensures LegacyContent(lines, parse).Failure? ==> r == Failure(StreamFailurePrefix + LegacyContent(lines, parse).error)
  {
    ghost var effects := LegacyEffects(lines, parse);
    var content := "";
    var i := 0;
    assert effects[i..] == effects;
    ExtendEmpty(LegacyContent(lines, parse));
    while i < |lines|
      invariant 0 <= i <= |lines|
      invariant LegacyContent(lines, parse) == Extend(content, LegacyRun(effects[i..]))
    {
      var effect := LegacyLineStep(lines[i], parse);
      LegacyRunStep(effects, i);
      match effect {
        case Stop => break;
        case Crash(err) => return Failure(StreamFailurePrefix + err);
        case Keep =>
        case Append(t) =>
          ExtendTwice(content, t, LegacyRun(effects[i + 1..]));
          content := content + t;
      }
      i := i + 1;
    }
    assert content + "" == content;
    return Success(AssistantEnvelope(content));
  }

  /**
   * One pass of `_handle_stream_response`'s loop body over `line`: keep the
   * accumulator, append to it, stop at the end marker, or fail.
   */
  method LegacyLineStep(line: string, parse: string -> Payload) returns (effect: LegacyEffect)
    ensures effect == LegacyLine(line, parse)
  {
    if line == "" || !StartsWith(line, DataPrefix) {
      return Keep;
    }
    var data := line[|DataPrefix|..];
    assert LegacyLine(line, parse) == LegacyData(data, parse);
    if Strip(data) == DoneMarker {
      return Stop;
    }
    var chunk := parse(data);
    assert LegacyData(data, parse) == LegacyChunk(chunk);
    if chunk.Unparseable? {
      return Keep;
    }
    var delta := Delta(None);
    if chunk.choices.Some? {
      if chunk.choices.value == [] {
        return Crash(IndexErrorText);
      }
      delta := DeltaOf(chunk.choices.value[0]);
    }
    if delta.content.None? {
      return Keep;
    }
    if delta.content.value.JNull? {
      return Crash(ConcatErrorText);
    }
    effect := Append(delta.content.value.s);
  }

  /** The older reader consumes one line effect at a time. */
  lemma LegacyRunStep(effects: seq<LegacyEffect>, i: nat)
    requires i < |effects|
    ensures LegacyRun(effects[i..]) == match effects[i]
      case Keep => LegacyRun(effects[i + 1..])
      case Append(t) => Extend(t, LegacyRun(effects[i + 1..]))
      case Stop => Success("")
      case Crash(err) => Failure(err)
  {
    assert effects[i..][0] == effects[i] && effects[i..][1..] == effects[i + 1..];
  }

  /** A line on which both readers are known to agree: an OpenAI-style chunk with a string or absent delta content. */
  predicate OpenAiLine(line: string, parse: string -> Payload) {
    StartsWith(line, DataPrefix) && Strip(line[|DataPrefix|..]) != DoneMarker && parse(line[|DataPrefix|..]).Object? ==>
      var chunk := parse(line[|DataPrefix|..]);
      chunk.choices.Some? && chunk.choices.value != [] && DeltaOf(chunk.choices.value[0]).content != Some(JNull)
  }

  /** How the two readers' effects of one line correspond. */
  predicate Corresponds(le: LegacyEffect, e: LineEffect) {
    match e
    case Ignore => le == Keep || le == Append("")
    case Yield(f) => le == Append(f)
    case EndOfStream => le == Stop
    case Fail(_) => false
  }

  lemma LineCorrespondence(line: string, parse: string -> Payload)
    requires OpenAiLine(line, parse)
    ensures Corresponds(LegacyLine(line, parse), ClassifyLine(line, parse))
  {
    if line != "" && StartsWith(line, DataPrefix) && Strip(line[|DataPrefix|..]) != DoneMarker {
      ChunkCorrespondence(parse(line[|DataPrefix|..]));
    }
  }

  lemma ChunkCorrespondence(chunk: Payload)
    requires chunk.Object? ==> chunk.choices.Some? && chunk.choices.value != [] && DeltaOf(chunk.choices.value[0]).content != Some(JNull)
    ensures Corresponds(LegacyChunk(chunk), ChunkEffect(chunk))
  {
  }

  lemma {:induction false} RunsCorrespond(les: seq<LegacyEffect>, es: seq<LineEffect>)
    requires |les| == |es|
    requires forall i :: 0 <= i < |es| ==> Corresponds(les[i], es[i])
    ensures Run(es).error == None
    ensures LegacyRun(les) == Success(Concat(Run(es).fragments))
  {
    if es != [] {
      RunsCorrespond(les[1..], es[1..]);
      var rest := Run(es[1..]).fragments;
      match es[0]
      case Yield(f) =>
        ConcatUnfold([f] + rest, 0);
        assert ([f] + rest)[0..] == [f] + rest && ([f] + rest)[1..] == rest;
      case Ignore =>
        if les[0] == Append("") {
          assert "" + Concat(rest) == Concat(rest);
        }
      case EndOfStream =>
    }
  }

  /**
   * On a stream of OpenAI-style chunks the older reader's text is the
   * concatenation of the fragments the generator yields, and neither fails.
   */
  lemma LegacyAgreesWithNormalize(lines: seq<string>, parse: string -> Payload)
    requires forall i :: 0 <= i < |lines| ==> OpenAiLine(lines[i], parse)
    ensures Normalize(lines, parse).error == None
    ensures LegacyContent(lines, parse) == Success(Concat(Normalize(lines, parse).fragments))
  {
    forall i | 0 <= i < |lines|
      ensures Corresponds(LegacyEffects(lines, parse)[i], Effects(lines, parse)[i])
    {
      LineCorrespondence(lines[i], parse);
    }
    RunsCorrespond(LegacyEffects(lines, parse), Effects(lines, parse));
  }

  // ---------------------------------------------------------------------
  // Settings and requests
  // ---------------------------------------------------------------------

  /** Python's `a or b` on strings. */
  function Or(a: string, b: string): string {
    if a != "" then a else b
  }

  /**
   * `get_api_config()`: each setting is the stored one when that is non-empty,
   * otherwise the application default (`app` holds `OPENAI_API_URL`,
   * `OPENAI_API_KEY` and `OPENAI_MODEL`).
   */
  function GetApiConfig(rows: seq<Cfg.ConfigRow>, app: Cfg.OpenAiConfig): (c: Cfg.OpenAiConfig)
    ensures c.apiUrl != "" <==> Cfg.GetOpenaiConfig(rows).apiUrl != "" || app.apiUrl != ""
    ensures c.apiKey != "" <==> Cfg.GetOpenaiConfig(rows).apiKey != "" || app.apiKey != ""
    ensures c.model != "" <==> Cfg.GetOpenaiConfig(rows).model != "" || app.model != ""
    ensures Cfg.GetOpenaiConfig(rows).apiUrl != "" ==> c.apiUrl == Cfg.GetOpenaiConfig(rows).apiUrl
    ensures Cfg.GetOpenaiConfig(rows).apiKey != "" ==> c.apiKey == Cfg.GetOpenaiConfig(rows).apiKey
    ensures Cfg.GetOpenaiConfig(rows).model != "" ==> c.model == Cfg.GetOpenaiConfig(rows).model
  {
    var stored := Cfg.GetOpenaiConfig(rows);
    Cfg.OpenAiConfig(Or(stored.apiUrl, app.apiUrl), Or(stored.apiKey, app.apiKey), Or(stored.model, app.model))
  }

  /** Settings saved by the administrator, when non-empty, are the ones used. */
  lemma SavedSettingsWin(rows: seq<Cfg.ConfigRow>, app: Cfg.OpenAiConfig, apiUrl: string, apiKey: string, model: string, now: int)
    requires apiUrl != "" && apiKey != "" && model != ""
    ensures GetApiConfig(Cfg.SetOpenaiConfig(rows, apiUrl, apiKey, model, now), app) == Cfg.OpenAiConfig(apiUrl, apiKey, model)
  {
    Cfg.SetThenGetOpenaiConfig(rows, apiUrl, apiKey, model, now);
  }

  /** Saving empty settings brings back every application default, the model included. */
  lemma ClearedSettingsFallBack(rows: seq<Cfg.ConfigRow>, app: Cfg.OpenAiConfig, now: int)
    ensures GetApiConfig(Cfg.SetOpenaiConfig(rows, "", "", "", now), app) == app
  {
    Cfg.SetThenGetOpenaiConfig(rows, "", "", "", now);
  }

  /** With nothing stored the model is the stock one, whatever the application default says. */
  lemma EmptyStoreModel(app: Cfg.OpenAiConfig)
    ensures GetApiConfig([], app) == Cfg.OpenAiConfig(app.apiUrl, app.apiKey, Cfg.DefaultModel)
  {
  }

  /** A `{role, content}` entry of the request's `messages`. */
  datatype ApiMessage = ApiMessage(role: Role, content: string)

  /** The POST the client sends: endpoint, bearer key and the JSON body's model, messages, stream flag and token cap. */
  datatype ApiRequest = ApiRequest(url: string, apiKey: string, model: string, messages: seq<ApiMessage>, stream: bool, maxTokens: nat)

  /**
   * What the network makes of a request: one of the `requests` exceptions
   * (an HTTP error status counts as `RequestFailed`), or a response with its
   * lines and its body as `response.json()` parses it (`None` = not JSON).
   */
  datatype HttpOutcome =
    | Timeout(detail: string)
    | ConnectionFailed(detail: string)
    | RequestFailed(detail: string)
    | Response(lines: seq<string>, json: Option<Envelope>)

  /** What `send_chat_request` returns or raises. */
  datatype ChatResponse = Completion(envelope: Envelope) | FragmentStream(outcome: StreamOutcome) | Raised(error: string)

  const TimeoutMessage := "API请求超时，请稍后重试"
  const UnreachableMessage := "无法连接到API服务，请检查网络连接"
  const RequestFailedPrefix := "API请求失败: "
  const MalformedMessage := "API响应格式错误"
  /** `max_tokens` of a chat request. */
  const ChatMaxTokens: nat := 2000

  /** `send_chat_request(messages, stream)` under settings `config`, with `network` answering the POST. */
  function SendChatRequest(config: Cfg.OpenAiConfig, messages: seq<ApiMessage>, stream: bool,
                           network: ApiRequest -> HttpOutcome, parse: string -> Payload): (r: ChatResponse)
    ensures config.apiKey == "" ==> r == if stream then FragmentStream(StreamOutcome(DemoChunks, None))
                                         else Completion(AssistantEnvelope(CannedGreeting))
    ensures r.Raised? ==> r.error in {TimeoutMessage, UnreachableMessage, MalformedMessage} || StartsWith(r.error, RequestFailedPrefix)
    ensures r.Raised? ==> config.apiKey != ""
    ensures stream ==> !r.Completion?
    ensures !stream ==> !r.FragmentStream?
  {
    if config.apiKey == "" then
      if stream then FragmentStream(StreamOutcome(DemoChunks, None)) else Completion(AssistantEnvelope(CannedGreeting))
    else
      match network(ApiRequest(config.apiUrl, config.apiKey, config.model, messages, stream, ChatMaxTokens))
      case Timeout(_) => Raised(TimeoutMessage)
      case ConnectionFailed(_) => Raised(UnreachableMessage)
      case RequestFailed(detail) =>
        assert StartsWith(RequestFailedPrefix + detail, RequestFailedPrefix);
        Raised(RequestFailedPrefix + detail)
      case Response(lines, json) =>
        if stream then FragmentStream(Normalize(lines, parse))
        else if json.Some? then Completion(json.value) else Raised(MalformedMessage)
  }

  /** Without an API key no request is sent: the answer does not depend on the network. */
  lemma NoKeyNoNetwork(config: Cfg.OpenAiConfig, messages: seq<ApiMessage>, stream: bool,
                       n1: ApiRequest -> HttpOutcome, n2: ApiRequest -> HttpOutcome, parse: string -> Payload)
    requires config.apiKey == ""
    ensures SendChatRequest(config, messages, stream, n1, parse) == SendChatRequest(config, messages, stream, n2, parse)
  {
  }

  /** The demo stream and the canned reply carry the same text. */
  lemma DemoStreamMatchesCannedReply(config: Cfg.OpenAiConfig, messages: seq<ApiMessage>, network: ApiRequest -> HttpOutcome, parse: string -> Payload)
    requires config.apiKey == ""
    ensures SendChatRequest(config, messages, true, network, parse).outcome.fragments == DemoChunks
    ensures Concat(SendChatRequest(config, messages, true, network, parse).outcome.fragments) ==
            SendChatRequest(config, messages, false, network, parse).envelope.choices.value[0].message.value.content.value
  {
    DemoChunksSpellGreeting();
  }

  /** The result of `test_connection(...)`. */
  datatype ProbeResult = ProbeResult(success: bool, message: string)

  const ProbeSucceeded := "API连接测试成功"
  const ProbeFailedPrefix := "API连接测试失败: "
  /** `max_tokens` of the connection probe. */
  const ProbeMaxTokens: nat := 10

  /**
   * The settings `test_connection(api_url, api_key, model)` probes: when any
   * override is truthy each truthy override replaces the effective setting,
   * otherwise the effective settings are used as they are.
   */
  function ProbeConfig(rows: seq<Cfg.ConfigRow>, app: Cfg.OpenAiConfig, apiUrl: string, apiKey: string, model: string): (c: Cfg.OpenAiConfig)
    ensures apiUrl == "" && apiKey == "" && model == "" ==> c == GetApiConfig(rows, app)
    ensures c.apiUrl == (if apiUrl != "" then apiUrl else GetApiConfig(rows, app).apiUrl)
    ensures c.apiKey == (if apiKey != "" then apiKey else GetApiConfig(rows, app).apiKey)
    ensures c.model == (if model != "" then model else GetApiConfig(rows, app).model)
  {
    if apiUrl != "" || apiKey != "" || model != "" then
      var config := GetApiConfig(rows, app);
      Cfg.OpenAiConfig(Or(apiUrl, config.apiUrl), Or(apiKey, config.apiKey), Or(model, config.model))
    else
      GetApiConfig(rows, app)
  }

  /** `test_connection(...)`: one small request; any `requests` exception becomes a failure message, never an exception. */
  function TestConnection(rows: seq<Cfg.ConfigRow>, app: Cfg.OpenAiConfig, apiUrl: string, apiKey: string, model: string,
                          network: ApiRequest -> HttpOutcome): (r: ProbeResult)
    ensures r.success <==> network(ProbeRequest(ProbeConfig(rows, app, apiUrl, apiKey, model))).Response?
    ensures r.success ==> r.message == ProbeSucceeded
    ensures !r.success ==> r.message == ProbeFailedPrefix + network(ProbeRequest(ProbeConfig(rows, app, apiUrl, apiKey, model))).detail
  {
    match network(ProbeRequest(ProbeConfig(rows, app, apiUrl, apiKey, model)))
    case Response(_, _) => ProbeResult(true, ProbeSucceeded)
    case Timeout(detail) => ProbeResult(false, ProbeFailedPrefix + detail)
    case ConnectionFailed(detail) => ProbeResult(false, ProbeFailedPrefix + detail)
    case RequestFailed(detail) => ProbeResult(false, ProbeFailedPrefix + detail)
  }

  /** The probe request: a single user message "Hello" with a token cap of 10. */
  function ProbeRequest(c: Cfg.OpenAiConfig): ApiRequest {
    ApiRequest(c.apiUrl, c.apiKey, c.model, [ApiMessage(UserRole, "Hello")], false, ProbeMaxTokens)
  }
}
