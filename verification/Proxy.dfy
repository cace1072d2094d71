/** Rebuilding an assistant message from the stripped events of a proxy server. */
module Proxy {
  import opened Messages
  import opened Framing
  import opened JsText

  const EMPTY_OBJECT: Json := "{}"

  /** A content block. `partialJson` is there only while a tool call is being received;
      `redacted` and `thoughtSignature` exist in messages but in no proxy event. */
  datatype Content =
    | TextContent(text: string, signature: Option<string>)
    | ThinkingContent(thinking: string, signature: Option<string>, redacted: bool)
    | CallContent(id: string, name: string, arguments: Json, thoughtSignature: Option<string>,
                  partialJson: Option<string>)

  datatype ProxyEvent =
    | Started
    | TextStart(index: nat)
    | TextDelta(index: nat, delta: string)
    | TextEnd(index: nat, signature: Option<string>)
    | ThinkingStart(index: nat)
    | ThinkingDelta(index: nat, delta: string)
    | ThinkingEnd(index: nat, signature: Option<string>)
    | CallStart(index: nat, id: string, name: string)
    | CallDelta(index: nat, delta: string)
    | CallEnd(index: nat)
    | Done(reason: StopReason, usage: Json)
    | Failed(reason: StopReason, errorMessage: Option<string>, usage: Json)
    | Unknown(kind: string)
  {
    predicate Indexed() {
      !Started? && !Done? && !Failed? && !Unknown?
    }
  }

  /** What the decoder pushes: the event it processed, and the finished block if it ends one. */
  datatype Update = Update(event: ProxyEvent, ended: Option<Content>) | Broken(reason: StopReason, message: string)

  /** The message being rebuilt. JavaScript arrays may have holes, so does `content`. */
  datatype Partial = Partial(
    content: seq<Option<Content>>,
    stopReason: StopReason,
    errorMessage: Option<string>,
    usage: Json)

  const NEW_PARTIAL := Partial([], Stop, None, "{}")

  /** The two parsers the decoder relies on. */
  datatype Parsers = Parsers(streaming: string -> Json, event: string -> Result<ProxyEvent>)

  function Get(content: seq<Option<Content>>, index: nat): Option<Content> {
    if index < |content| then content[index] else None
  }

  /** `content[index] = block`, which may leave holes before it. */
  function Put(content: seq<Option<Content>>, index: nat, block: Content): (result: seq<Option<Content>>)
    ensures |result| == if index < |content| then |content| else index + 1
    ensures forall i: nat :: Get(result, i) == if i == index then Some(block) else Get(content, i)
  {
    if index < |content| then content[index := Some(block)]
    else content + seq(index - |content|, _ => None) + [Some(block)]
  }

  function ParseStreamingJson(parsers: Parsers, text: string): Json {
    if Trim(text) == "" then EMPTY_OBJECT else parsers.streaming(text)
  }

  /** What one event makes of the block at its index; an event for a block of another kind
      throws, except that the end of a tool call is then ignored. */
  function Revise(parsers: Parsers, block: Option<Content>, event: ProxyEvent): Result<Option<Content>>
    requires event.Indexed()
  {
    match event
    case TextStart(_) => Ok(Some(TextContent("", None)))
    case TextDelta(_, delta) =>
      if block.Some? && block.value.TextContent? then Ok(Some(block.value.(text := block.value.text + delta)))
      else Threw("Received text_delta for non-text content")
    case TextEnd(_, signature) =>
      if block.Some? && block.value.TextContent? then Ok(Some(TextContent(block.value.text, signature)))
      else Threw("Received text_end for non-text content")
    case ThinkingStart(_) => Ok(Some(ThinkingContent("", None, false)))
    case ThinkingDelta(_, delta) =>
      if block.Some? && block.value.ThinkingContent?
        then Ok(Some(block.value.(thinking := block.value.thinking + delta)))
      else Threw("Received thinking_delta for non-thinking content")
    case ThinkingEnd(_, signature) =>
      if block.Some? && block.value.ThinkingContent? then
        Ok(Some(ThinkingContent(block.value.thinking, signature, block.value.redacted)))
      else Threw("Received thinking_end for non-thinking content")
    case CallStart(_, id, name) => Ok(Some(CallContent(id, name, EMPTY_OBJECT, None, Some(""))))
    case CallDelta(_, delta) =>
      if block.Some? && block.value.CallContent? then
        var json := block.value.partialJson.GetOr("undefined") + delta;
        Ok(Some(block.value.(partialJson := Some(json), arguments := ParseStreamingJson(parsers, json))))
      else Threw("Received toolcall_delta for non-toolCall content")
    case CallEnd(_) =>
      if block.Some? && block.value.CallContent? then Ok(Some(block.value.(partialJson := None))) else Ok(block)
  }

  /** What the decoder pushes for an indexed event, given the block it leaves. */
  function UpdatesFor(event: ProxyEvent, block: Option<Content>): seq<Update>
    requires event.Indexed()
  {
    if event.TextEnd? || event.ThinkingEnd? then [Update(event, block)]
    else if !event.CallEnd? then [Update(event, None)]
    else if block.Some? && block.value.CallContent? then [Update(event, block)]
    else []
  }

  /** The decoder's state: the message, and all it has pushed. */
  datatype Decoder = Decoder(partial: Partial, pushed: seq<Update>)

  const NEW_DECODER := Decoder(NEW_PARTIAL, [])

  function Process(parsers: Parsers, d: Decoder, event: ProxyEvent): Result<Decoder> {
    match event
    case Started => Ok(d.(pushed := d.pushed + [Update(event, None)]))
    case Done(reason, usage) =>
      Ok(Decoder(d.partial.(stopReason := reason, usage := usage), d.pushed + [Update(event, None)]))
    case Failed(reason, errorMessage, usage) =>
      Ok(Decoder(d.partial.(stopReason := reason, errorMessage := errorMessage, usage := usage),
                 d.pushed + [Update(event, None)]))
    case Unknown(_) => Ok(d)
    case _ =>
      match Revise(parsers, Get(d.partial.content, event.index), event)
      case Threw(reason) => Threw(reason)
      case Ok(None) => Ok(d)
      case Ok(Some(block)) =>
        Ok(Decoder(d.partial.(content := Put(d.partial.content, event.index, block)),
                   d.pushed + UpdatesFor(event, Some(block))))
  }

  /** A line carries an event when it starts with `data: ` and has anything after that. */
  function Payload(line: string): string {
    if "data: " <= line then Trim(line[6..]) else ""
  }

  function DecodeLine(parsers: Parsers, d: Decoder, line: string): Result<Decoder> {
    if Payload(line) == "" then Ok(d)
    else
      match parsers.event(Payload(line))
      case Threw(reason) => Threw(reason)
      case Ok(event) => Process(parsers, d, event)
  }

  /** A decoder after some lines: where it stands, and what it threw, if it did. */
  datatype Decoded = Decoded(decoder: Decoder, thrown: Option<string>)

  /** Decoding goes no further than the first line that throws. */
  function DecodeLines(parsers: Parsers, d: Decoder, lines: seq<string>): Decoded {
    if lines == [] then Decoded(d, None)
    else
      var before := DecodeLines(parsers, d, lines[..|lines| - 1]);
      if before.thrown.Some? then before
      else
        match DecodeLine(parsers, before.decoder, lines[|lines| - 1])
        case Threw(reason) => Decoded(before.decoder, Some(reason))
        case Ok(next) => Decoded(next, None)
  }

  /** The error report: the message keeps what was decoded before. */
  function Break(d: Decoder, aborted: bool, message: string): Decoder {
    var reason := if aborted then Aborted else StopReason.Error;
    Decoder(d.partial.(stopReason := reason, errorMessage := Some(message)), d.pushed + [Broken(reason, message)])
  }

  function Conclude(decoded: Decoded): Decoder {
    if decoded.thrown.Some? then Break(decoded.decoder, false, decoded.thrown.value) else decoded.decoder
  }

  const ABORT_MESSAGE := "Request aborted by user"

  /** What is made of a response whose text was read up to its end or up to an abort. The
      text alone decides, not how it was cut into reads. */
  function Received(parsers: Parsers, text: string, aborted: bool): Decoder {
    var decoded := DecodeLines(parsers, NEW_DECODER, Lines(text));
    if decoded.thrown.None? && aborted then Break(decoded.decoder, true, ABORT_MESSAGE) else Conclude(decoded)
  }

  lemma {:induction false} DecodeAppend(parsers: Parsers, d: Decoder, a: seq<string>, b: seq<string>)
    ensures DecodeLines(parsers, d, a + b) ==
      var first := DecodeLines(parsers, d, a);
      if first.thrown.Some? then first else DecodeLines(parsers, first.decoder, b)
    decreases |b|
  {
    if b == [] {
      assert a + b == a;
    } else {
      DecodeAppend(parsers, d, a, b[..|b| - 1]);
      assert (a + b)[..|a + b| - 1] == a + b[..|b| - 1];
    }
  }

  class ProxyStream {
    const parsers: Parsers
    var content: seq<Option<Content>>
    var stopReason: StopReason
    var errorMessage: Option<string>
    var usage: Json
    var pushed: seq<Update>
    var buffer: string

    function Value(): Decoder
      reads this
    {
      Decoder(Partial(content, stopReason, errorMessage, usage), pushed)
    }

    constructor (parsers: Parsers)
      ensures this.parsers == parsers && Value() == NEW_DECODER && buffer == ""
    {
      this.parsers := parsers;
      this.content := [];
      this.stopReason := Stop;
      this.errorMessage := None;
      this.usage := "{}";
      this.pushed := [];
      this.buffer := "";
    }

    method Push(update: Update)
      modifies this`pushed
      ensures pushed == old(pushed) + [update]
    {
      pushed := pushed + [update];
    }

    method Store(index: nat, block: Content, update: Update)
      modifies this`content, this`pushed
      ensures content == Put(old(content), index, block) && pushed == old(pushed) + [update]
    {
      content := Put(content, index, block);
      Push(update);
    }

    method ProcessTextEvent(event: ProxyEvent) returns (thrown: Option<string>)
      requires event.TextStart? || event.TextDelta? || event.TextEnd?
      modifies this`content, this`pushed
      ensures match Process(parsers, old(Value()), event)
              case Ok(next) => thrown == None && Value() == next
              case Threw(reason) => thrown == Some(reason) && Value() == old(Value())
    {
      hide Put;
      var block := Get(content, event.index);
      if event.TextStart? {
        Store(event.index, TextContent("", None), Update(event, None));
      } else if block.None? || !block.value.TextContent? {
        return Some(if event.TextDelta? then "Received text_delta for non-text content"
                    else "Received text_end for non-text content");
      } else if event.TextDelta? {
        Store(event.index, block.value.(text := block.value.text + event.delta), Update(event, None));
      } else {
        var ended := TextContent(block.value.text, event.signature);
        Store(event.index, ended, Update(event, Some(ended)));
      }
      return None;
    }

    method ProcessThinkingEvent(event: ProxyEvent) returns (thrown: Option<string>)
      requires event.ThinkingStart? || event.ThinkingDelta? || event.ThinkingEnd?
      modifies this`content, this`pushed
      ensures match Process(parsers, old(Value()), event)
              case Ok(next) => thrown == None && Value() == next
              case Threw(reason) => thrown == Some(reason) && Value() == old(Value())
    {
      hide Put;
      var block := Get(content, event.index);
      if event.ThinkingStart? {
        Store(event.index, ThinkingContent("", None, false), Update(event, None));
      } else if block.None? || !block.value.ThinkingContent? {
        return Some(if event.ThinkingDelta? then "Received thinking_delta for non-thinking content"
                    else "Received thinking_end for non-thinking content");
      } else if event.ThinkingDelta? {
        Store(event.index, block.value.(thinking := block.value.thinking + event.delta), Update(event, None));
      } else {
        var ended := ThinkingContent(block.value.thinking, event.signature, block.value.redacted);
        Store(event.index, ended, Update(event, Some(ended)));
      }
      return None;
    }

    method ProcessCallEvent(event: ProxyEvent) returns (thrown: Option<string>)
      requires event.CallStart? || event.CallDelta? || event.CallEnd?
      modifies this`content, this`pushed
      ensures match Process(parsers, old(Value()), event)
              case Ok(next) => thrown == None && Value() == next
              case Threw(reason) => thrown == Some(reason) && Value() == old(Value())
    {
      hide Put, ParseStreamingJson;
      var block := Get(content, event.index);
      if event.CallStart? {
        Store(event.index, CallContent(event.id, event.name, EMPTY_OBJECT, None, Some("")), Update(event, None));
      } else if block.None? || !block.value.CallContent? {
        if event.CallDelta? {
          return Some("Received toolcall_delta for non-toolCall content");
        }
        KeepsBlock(content, event.index);
      } else if event.CallDelta? {
        var json := block.value.partialJson.GetOr("undefined") + event.delta;
        var grown := block.value.(partialJson := Some(json), arguments := ParseStreamingJson(parsers, json));
        Store(event.index, grown, Update(event, None));
      } else {
        var ended := block.value.(partialJson := None);
        Store(event.index, ended, Update(event, Some(ended)));
      }
      return None;
    }

    /** Applies one event in place; None when it is accepted, else what it throws. */
    method ProcessProxyEvent(event: ProxyEvent) returns (thrown: Option<string>)
      modifies this`content, this`stopReason, this`errorMessage, this`usage, this`pushed
      ensures match Process(parsers, old(Value()), event)
              case Ok(next) => thrown == None && Value() == next
              case Threw(reason) => thrown == Some(reason) && Value() == old(Value())
    {
      thrown := None;
      match event {
        case Started =>
          Push(Update(event, None));
        case Done(reason, used) =>
          stopReason := reason;
          usage := used;
          Push(Update(event, None));
        case Failed(reason, message, used) =>
          stopReason := reason;
          errorMessage := message;
          usage := used;
          Push(Update(event, None));
        case Unknown(_) =>
          // The source writes a warning to the console.
        case TextStart(_) => thrown := ProcessTextEvent(event);
        case TextDelta(_, _) => thrown := ProcessTextEvent(event);
        case TextEnd(_, _) => thrown := ProcessTextEvent(event);
        case ThinkingStart(_) => thrown := ProcessThinkingEvent(event);
        case ThinkingDelta(_, _) => thrown := ProcessThinkingEvent(event);
        case ThinkingEnd(_, _) => thrown := ProcessThinkingEvent(event);
        case _ => thrown := ProcessCallEvent(event);
      }
    }

    method ProcessLine(line: string) returns (thrown: Option<string>)
      modifies this`content, this`stopReason, this`errorMessage, this`usage, this`pushed
      ensures match DecodeLine(parsers, old(Value()), line)
              case Ok(next) => thrown == None && Value() == next
              case Threw(reason) => thrown == Some(reason) && Value() == old(Value())
    {
      hide Process, Trim;
      if "data: " <= line {
        var data := Trim(line[6..]);
        if data != "" {
          match parsers.event(data) {
            case Threw(reason) =>
              return Some(reason);
            case Ok(event) =>
              thrown := ProcessProxyEvent(event);
              return;
          }
        }
      }
      return None;
    }

    /** Decodes lines in order until one throws. */
    method ProcessLines(lines: seq<string>) returns (thrown: Option<string>)
      modifies this`content, this`stopReason, this`errorMessage, this`usage, this`pushed
      ensures Decoded(Value(), thrown) == DecodeLines(parsers, old(Value()), lines)
    {
      hide DecodeLine;
      for i := 0 to |lines|
        invariant Decoded(Value(), None) == DecodeLines(parsers, old(Value()), lines[..i])
      {
        assert lines[..i + 1][..i] == lines[..i];
        thrown := ProcessLine(lines[i]);
        if thrown.Some? {
          assert lines == lines[..i + 1] + lines[i + 1..];
          DecodeAppend(parsers, old(Value()), lines[..i + 1], lines[i + 1..]);
          return;
        }
      }
      assert lines[..|lines|] == lines;
      return None;
    }

    /** Takes in one read: decodes the lines it completes and keeps the unfinished one.
        `before` is all the text read so far. */
    method ReadChunk(chunk: string, ghost before: string) returns (thrown: Option<string>)
      requires buffer == Tail(before)
      requires Decoded(Value(), None) == DecodeLines(parsers, NEW_DECODER, Lines(before))
      modifies this
      ensures Decoded(Value(), thrown) == DecodeLines(parsers, NEW_DECODER, Lines(before + chunk))
      ensures buffer == Tail(before + chunk)
    {
      LinesAppend(before, chunk);
      DecodeAppend(parsers, NEW_DECODER, Lines(before), Lines(Tail(before) + chunk));
      buffer := buffer + chunk;
      var lines := Split(buffer);
      buffer := lines[|lines| - 1];
      thrown := ProcessLines(lines[..|lines| - 1]);
    }

    /** Reads until the response ends. The abort signal is noticed after the `abortAt`-th
        read, or at the end; never if `abortAt` exceeds the number of reads. */
    method ReadAll(chunks: seq<string>, abortAt: nat)
      requires Value() == NEW_DECODER && buffer == ""
      modifies this
      ensures Value() == Received(parsers, Concat(if abortAt < |chunks| then chunks[..abortAt] else chunks),
                                  abortAt <= |chunks|)
    {
      var i := 0;
      while i < |chunks|
        invariant 0 <= i <= |chunks| && i <= abortAt
        invariant buffer == Tail(Concat(chunks[..i]))
        invariant Decoded(Value(), None) == DecodeLines(parsers, NEW_DECODER, Lines(Concat(chunks[..i])))
      {
        if i == abortAt {
          Catch(true, ABORT_MESSAGE);
          return;
        }
        NextChunk(chunks, i);
        var thrown := ReadChunk(chunks[i], Concat(chunks[..i]));
        i := i + 1;
        if thrown.Some? {
          NothingAfterThrow(parsers, chunks, i, if abortAt < |chunks| then abortAt else |chunks|);
          assert chunks[..|chunks|] == chunks;
          Catch(false, thrown.value);
          return;
        }
      }
      assert chunks[..i] == chunks;
      if abortAt == |chunks| {
        Catch(true, ABORT_MESSAGE);
      }
    }

    method Catch(aborted: bool, message: string)
      modifies this`stopReason, this`errorMessage, this`pushed
      ensures Value() == Break(old(Value()), aborted, message)
    {
      stopReason := if aborted then Aborted else StopReason.Error;
      errorMessage := Some(message);
      Push(Broken(stopReason, message));
    }
  }

  lemma KeepsBlock(content: seq<Option<Content>>, index: nat)
    ensures Get(content, index).Some? ==> Put(content, index, Get(content, index).value) == content
  {
    if Get(content, index).Some? {
      assert content[index := content[index]] == content;
    }
  }

  lemma NextChunk(chunks: seq<string>, i: nat)
    requires i < |chunks|
    ensures Concat(chunks[..i + 1]) == Concat(chunks[..i]) + chunks[i]
  {
    assert chunks[..i + 1][..i] == chunks[..i];
  }

  lemma {:induction false} ConcatPrefix(chunks: seq<string>, i: nat, j: nat)
    requires i <= j <= |chunks|
    ensures Concat(chunks[..i]) <= Concat(chunks[..j])
  {
    if i < j {
      ConcatPrefix(chunks, i, j - 1);
      NextChunk(chunks, j - 1);
    }
  }

  /** Reads after a throw would not have changed what was decoded. */
  lemma NothingAfterThrow(parsers: Parsers, chunks: seq<string>, i: nat, j: nat)
    requires i <= j <= |chunks|
    requires DecodeLines(parsers, NEW_DECODER, Lines(Concat(chunks[..i]))).thrown.Some?
    ensures DecodeLines(parsers, NEW_DECODER, Lines(Concat(chunks[..j]))) ==
            DecodeLines(parsers, NEW_DECODER, Lines(Concat(chunks[..i])))
  {
    ConcatPrefix(chunks, i, j);
    var a := Concat(chunks[..i]);
    var b := Concat(chunks[..j])[|a|..];
    assert Concat(chunks[..j]) == a + b;
    LinesAppend(a, b);
    DecodeAppend(parsers, NEW_DECODER, Lines(a), Lines(Tail(a) + b));
  }
}
