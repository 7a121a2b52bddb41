/**
 * The bounded parser of pi's event stream, against the plain reading of the whole stream: cut it into
 * lines, decode each, join the assistant's text, and only then cap what is too long.
 */
module PiStream {
  import opened Basics

  type byte = x: int | 0 <= x < 256
  type bytes = seq<byte>

  datatype Block = Block(kind: string, text: bytes)

  datatype StreamMessage = StreamMessage(role: string, content: seq<Block>, stopReason: string, errorMessage: string)

  datatype StreamEvent = StreamEvent(kind: string, message: Option<StreamMessage>)

  /** White-space trimming and JSON decoding of one line. */
  datatype Codec = Codec(trim: bytes -> bytes, unmarshal: bytes -> Option<StreamEvent>)

  /** What one ReadLine call delivers: a piece of a line, and whether more of it follows. */
  datatype Chunk = Chunk(data: bytes, isPrefix: bool)

  const MAX_LINE_SIZE := 8 * 1024 * 1024

  datatype Parsed = Parsed(
    text: bytes, textTruncated: bool, failure: string, recognised: bool, raw: bytes, rawTruncated: bool)

  // --------------------------------------------------------- the plain parse

  /** The lines the chunks make up; a line whose last chunk never comes is not one. */
  function Lines(chunks: seq<Chunk>, begun: bytes): seq<bytes> {
    if chunks == [] then []
    else if chunks[0].isPrefix then Lines(chunks[1..], begun + chunks[0].data)
    else [begun + chunks[0].data] + Lines(chunks[1..], [])
  }

  /** The event a line stands for: none when it is overlong, blank, undecodable or untyped. */
  function LineEvents(codec: Codec, line: bytes): seq<StreamEvent> {
    if |line| > MAX_LINE_SIZE then []
    else
      var trimmed := codec.trim(line);
      if trimmed == [] then []
      else
        var ev := codec.unmarshal(trimmed);
        if ev == None || ev.value.kind == "" then [] else [ev.value]
  }

  function Events(codec: Codec, lines: seq<bytes>): seq<StreamEvent> {
    if lines == [] then [] else Events(codec, Init(lines)) + LineEvents(codec, Last(lines))
  }

  predicate AssistantEnd(ev: StreamEvent) {
    ev.kind == "message_end" && ev.message.Some? && ev.message.value.role == "assistant"
  }

  function BlockText(blocks: seq<Block>): bytes {
    if blocks == [] then []
    else BlockText(Init(blocks)) + if Last(blocks).kind == "text" then Last(blocks).text else []
  }

  /** All the assistant said, uncapped. */
  function AllText(events: seq<StreamEvent>): bytes {
    if events == [] then []
    else
      AllText(Init(events)) + if AssistantEnd(Last(events)) then BlockText(Last(events).message.value.content) else []
  }

  function StopFailure(m: StreamMessage): string {
    if m.stopReason == "error" || m.stopReason == "aborted" then
      if m.errorMessage == "" then "stopReason " + m.stopReason else m.errorMessage
    else ""
  }

  /** Only the last of the assistant's messages decides. */
  function Failure(events: seq<StreamEvent>): string {
    if events == [] then ""
    else if AssistantEnd(Last(events)) then StopFailure(Last(events).message.value)
    else Failure(Init(events))
  }

  function Joined(chunks: seq<Chunk>): bytes {
    if chunks == [] then [] else chunks[0].data + Joined(chunks[1..])
  }

  predicate Exceeds(all: bytes, limit: int) {
    |all| > if limit < 0 then 0 else limit
  }

  function PlainParse(codec: Codec, chunks: seq<Chunk>, limit: int): Parsed {
    var events := Events(codec, Lines(chunks, []));
    var text := AllText(events);
    var raw := Joined(chunks);
    Parsed(Take(text, limit), Exceeds(text, limit), Failure(events), events != [],
           Take(raw, limit), Exceeds(raw, limit))
  }

  // ------------------------------------------- what the plain parse promises

  /** An assistant's message that has ended. */
  predicate Said(ev: StreamEvent, m: StreamMessage) {
    ev.kind == "message_end" && ev.message == Some(m) && m.role == "assistant"
  }

  /** Position k holds the assistant's last message. */
  ghost predicate LastSaid(events: seq<StreamEvent>, k: nat, m: StreamMessage) {
    k < |events| && Said(events[k], m) && forall j, n | k < j < |events| :: !Said(events[j], n)
  }

  /** Only the assistant's last message decides: it failed if it stopped on an error or was aborted. */
  lemma {:induction false} LastMessageDecides(events: seq<StreamEvent>, k: nat, m: StreamMessage)
    requires LastSaid(events, k, m)
    ensures Failure(events) == "" <==> m.stopReason != "error" && m.stopReason != "aborted"
    ensures Failure(events) != "" ==>
              Failure(events) == if m.errorMessage != "" then m.errorMessage else "stopReason " + m.stopReason
  {
    if k < |events| - 1 {
      assert !AssistantEnd(Last(events)) by {
        if AssistantEnd(Last(events)) {
          assert Said(events[|events| - 1], Last(events).message.value);
        }
      }
      LastMessageDecides(Init(events), k, m);
    }
  }

  lemma {:induction false} SilenceDoesNotFail(events: seq<StreamEvent>)
    requires forall j, n | 0 <= j < |events| :: !Said(events[j], n)
    ensures Failure(events) == "" && AllText(events) == []
  {
    if events != [] {
      assert !AssistantEnd(Last(events)) by {
        if AssistantEnd(Last(events)) {
          assert Said(events[|events| - 1], Last(events).message.value);
        }
      }
      SilenceDoesNotFail(Init(events));
    }
  }

  function Flat(parts: seq<bytes>): bytes {
    if parts == [] then [] else Flat(Init(parts)) + Last(parts)
  }

  /** What an event adds: the text blocks of a message the assistant ended, in order, or nothing. */
  ghost predicate Adds(part: bytes, ev: StreamEvent) {
    && (forall m | Said(ev, m) :: exists texts :: BlockParts(texts, m.content) && part == Flat(texts))
    && ((forall m :: !Said(ev, m)) ==> part == [])
  }

  ghost predicate Parts(parts: seq<bytes>, events: seq<StreamEvent>) {
    |parts| == |events| && forall k | 0 <= k < |events| :: Adds(parts[k], events[k])
  }

  /** Text k is that of block k, if it is a text block. */
  predicate BlockParts(texts: seq<bytes>, blocks: seq<Block>) {
    |texts| == |blocks|
    && forall k | 0 <= k < |blocks| :: texts[k] == if blocks[k].kind == "text" then blocks[k].text else []
  }

  lemma {:induction false} BlocksAreRead(blocks: seq<Block>) returns (texts: seq<bytes>)
    ensures BlockParts(texts, blocks) && BlockText(blocks) == Flat(texts)
  {
    if blocks == [] {
      texts := [];
    } else {
      var earlier := BlocksAreRead(Init(blocks));
      var own := if Last(blocks).kind == "text" then Last(blocks).text else [];
      LastOfAppend(earlier, own);
      texts := earlier + [own];
    }
  }

  function AddedText(ev: StreamEvent): bytes {
    if AssistantEnd(ev) then BlockText(ev.message.value.content) else []
  }

  lemma AddedTextIsRead(ev: StreamEvent)
    ensures Adds(AddedText(ev), ev)
  {
    if AssistantEnd(ev) {
      var m := ev.message.value;
      var texts := BlocksAreRead(m.content);
      assert Said(ev, m) && BlockParts(texts, m.content);
    }
  }

  lemma PartsGrow(parts: seq<bytes>, events: seq<StreamEvent>, part: bytes)
    requires events != [] && Parts(parts, Init(events)) && Adds(part, Last(events))
    ensures Parts(parts + [part], events) && Flat(parts + [part]) == Flat(parts) + part
  {
    LastOfAppend(parts, part);
    var all := parts + [part];
    forall k | 0 <= k < |events|
      ensures Adds(all[k], events[k])
    {
      assert k < |parts| ==> all[k] == parts[k] && events[k] == Init(events)[k];
    }
  }

  /** The text is what the assistant's messages say, every one of them, in order. */
  lemma {:induction false} TextIsRead(events: seq<StreamEvent>) returns (parts: seq<bytes>)
    ensures Parts(parts, events) && AllText(events) == Flat(parts)
  {
    if events == [] {
      parts := [];
    } else {
      var earlier := TextIsRead(Init(events));
      AddedTextIsRead(Last(events));
      PartsGrow(earlier, events, AddedText(Last(events)));
      parts := earlier + [AddedText(Last(events))];
    }
  }

  /** A flag of truncation means that something was cut. */
  lemma TruncatedIff(all: bytes, limit: int)
    ensures Exceeds(all, limit) <==> Take(all, limit) != all
  {
  }

  // ------------------------------------------------------ how lines are read

  /** Chunks of one line: all but the last announce more of it. */
  predicate OneLine(chunks: seq<Chunk>) {
    && chunks != [] && !Last(chunks).isPrefix
    && forall k | 0 <= k < |chunks| - 1 :: chunks[k].isPrefix
  }

  lemma {:induction false} OneLineIsRead(chunks: seq<Chunk>, rest: seq<Chunk>, begun: bytes)
    requires OneLine(chunks)
    ensures Lines(chunks + rest, begun) == [begun + Joined(chunks)] + Lines(rest, [])
  {
    assert (chunks + rest)[1..] == chunks[1..] + rest;
    if |chunks| > 1 {
      assert OneLine(chunks[1..]) by {
        assert forall k | 0 <= k < |chunks| - 2 :: chunks[1..][k] == chunks[k + 1];
      }
      OneLineIsRead(chunks[1..], rest, begun + chunks[0].data);
      Associates(begun, chunks[0].data, Joined(chunks[1..]));
    } else {
      assert chunks[1..] == [] && [] + rest == rest;
      assert Joined(chunks) == chunks[0].data + [] == chunks[0].data;
    }
  }

  lemma {:induction false} RestIsUnfinished(chunks: seq<Chunk>, begun: bytes)
    requires forall k | 0 <= k < |chunks| :: chunks[k].isPrefix
    ensures Lines(chunks, begun) == []
  {
    if chunks != [] {
      RestIsUnfinished(chunks[1..], begun + chunks[0].data);
    }
  }

  function AllChunks(groups: seq<seq<Chunk>>): seq<Chunk> {
    if groups == [] then [] else groups[0] + AllChunks(groups[1..])
  }

  /** The lines of a stream are what its lines' chunks join to, one by one; an unfinished rest adds none. */
  lemma {:induction false} LinesAreRead(groups: seq<seq<Chunk>>, rest: seq<Chunk>)
    requires forall g | 0 <= g < |groups| :: OneLine(groups[g])
    requires forall k | 0 <= k < |rest| :: rest[k].isPrefix
    ensures var lines := Lines(AllChunks(groups) + rest, []);
            |lines| == |groups| && forall g | 0 <= g < |groups| :: lines[g] == Joined(groups[g])
  {
    if groups == [] {
      assert AllChunks(groups) + rest == rest;
      RestIsUnfinished(rest, []);
    } else {
      var later := AllChunks(groups[1..]) + rest;
      assert AllChunks(groups) + rest == groups[0] + later;
      OneLineIsRead(groups[0], later, []);
      assert [] + Joined(groups[0]) == Joined(groups[0]);
      LinesAreRead(groups[1..], rest);
    }
  }

  /** A line is an event exactly if it is short enough, not blank, and decodes to a typed one. */
  predicate Decodes(codec: Codec, line: bytes, ev: StreamEvent) {
    && |line| <= 8388608 && codec.trim(line) != []
    && codec.unmarshal(codec.trim(line)) == Some(ev) && ev.kind != ""
  }

  /** Strictly increasing positions of lines: each decodes to its event, and every other line to none. */
  ghost predicate DecodedAt(codec: Codec, lines: seq<bytes>, events: seq<StreamEvent>, places: seq<nat>) {
    && |places| == |events|
    && (forall j, k | 0 <= j < k < |places| :: places[j] < places[k])
    && (forall k | 0 <= k < |places| :: places[k] < |lines| && Decodes(codec, lines[places[k]], events[k]))
    && (forall p, ev | 0 <= p < |lines| && Decodes(codec, lines[p], ev) :: p in places)
  }

  lemma LineIsDecoded(codec: Codec, line: bytes)
    ensures |LineEvents(codec, line)| <= 1
    ensures forall ev :: Decodes(codec, line, ev) <==> LineEvents(codec, line) == [ev]
  {
  }

  lemma OtherLine(codec: Codec, lines: seq<bytes>, events: seq<StreamEvent>, places: seq<nat>)
    requires lines != [] && DecodedAt(codec, Init(lines), events, places)
    requires forall ev :: !Decodes(codec, Last(lines), ev)
    ensures DecodedAt(codec, lines, events, places)
  {
    forall p, ev | 0 <= p < |lines| && Decodes(codec, lines[p], ev)
      ensures p in places
    {
      assert lines[p] == if p < |lines| - 1 then Init(lines)[p] else Last(lines);
    }
  }

  lemma DecodedLine(codec: Codec, lines: seq<bytes>, events: seq<StreamEvent>, places: seq<nat>, ev: StreamEvent)
    requires lines != [] && DecodedAt(codec, Init(lines), events, places) && Decodes(codec, Last(lines), ev)
    ensures DecodedAt(codec, lines, events + [ev], places + [|lines| - 1])
  {
    forall p, e | 0 <= p < |lines| && Decodes(codec, lines[p], e)
      ensures p in places + [|lines| - 1]
    {
      if p < |lines| - 1 {
        assert Decodes(codec, Init(lines)[p], e);
      }
    }
  }

  /** The events are those of the lines, every line that is one, in order. */
  lemma {:induction false} EventsAreRead(codec: Codec, lines: seq<bytes>) returns (places: seq<nat>)
    ensures DecodedAt(codec, lines, Events(codec, lines), places)
  {
    if lines == [] {
      places := [];
    } else {
      places := EventsAreRead(codec, Init(lines));
      var own := LineEvents(codec, Last(lines));
      LineIsDecoded(codec, Last(lines));
      if own == [] {
        assert Events(codec, Init(lines)) + [] == Events(codec, Init(lines));
        OtherLine(codec, lines, Events(codec, Init(lines)), places);
      } else {
        assert own == [own[0]];
        DecodedLine(codec, lines, Events(codec, Init(lines)), places, own[0]);
        places := places + [|lines| - 1];
      }
    }
  }

  // ---------------------------------------------------- the streaming parser

  /** `kept` is what fits of `all`, and `cut` says whether something did not. */
  ghost predicate Capped(kept: bytes, cut: bool, all: bytes, limit: int) {
    kept == Take(all, limit) && cut == Exceeds(all, limit)
  }

  class StreamResult {
    const codec: Codec
    const limit: int
    var text: bytes
    var textTruncated: bool
    var failure: string
    var recognised: bool
    var raw: bytes
    var rawTruncated: bool

    constructor (codec: Codec, limit: int)
      ensures this.codec == codec && this.limit == limit
      ensures Reflects([]) && Capped(raw, rawTruncated, [], limit)
    {
      this.codec, this.limit := codec, limit;
      text, textTruncated, failure, recognised := [], false, "", false;
      raw, rawTruncated := [], false;
    }

    /** The result so far is that of the plain parse of these events. */
    ghost predicate Reflects(events: seq<StreamEvent>)
      reads this
    {
      && Capped(text, textTruncated, AllText(events), limit)
      && failure == Failure(events)
      && recognised == (events != [])
    }

    method AddRaw(chunk: bytes, ghost all: bytes)
      requires Capped(raw, rawTruncated, all, limit)
      modifies this`raw, this`rawTruncated
      ensures Capped(raw, rawTruncated, all + chunk, limit)
    {
      var room := limit - |raw|;
      if room <= 0 {
        if |chunk| > 0 {
          rawTruncated := true;
        }
        return;
      }
      if |chunk| > room {
        raw := raw + chunk[..room];
        rawTruncated := true;
        return;
      }
      raw := raw + chunk;
    }

    method AddText(block: bytes, ghost all: bytes)
      requires Capped(text, textTruncated, all, limit)
      modifies this`text, this`textTruncated
      ensures Capped(text, textTruncated, all + block, limit)
    {
      var room := limit - |text|;
      if room <= 0 {
        if block != [] {
          textTruncated := true;
        }
      } else if |block| > room {
        text := text + block[..room];
        textTruncated := true;
      } else {
        text := text + block;
      }
    }

    /** Adds a message's text blocks, in order. */
    method AddBlocks(blocks: seq<Block>, ghost all: bytes)
      requires Capped(text, textTruncated, all, limit)
      modifies this`text, this`textTruncated
      ensures Capped(text, textTruncated, all + BlockText(blocks), limit)
    {
      assert all + [] == all;
      for k := 0 to |blocks|
        invariant Capped(text, textTruncated, all + BlockText(blocks[..k]), limit)
      {
        assert Init(blocks[..k + 1]) == blocks[..k] && Last(blocks[..k + 1]) == blocks[k];
        ghost var before := BlockText(blocks[..k]);
        if blocks[k].kind == "text" {
          AddText(blocks[k].text, all + before);
          assert all + before + blocks[k].text == all + (before + blocks[k].text);
        } else {
          assert before + [] == before;
        }
      }
      assert blocks[..|blocks|] == blocks;
    }

    /** Decodes one line; only an assistant's message_end adds text or settles the failure. */
    method HandleLine(line: bytes, ghost events: seq<StreamEvent>)
      requires |line| <= MAX_LINE_SIZE && Reflects(events)
      modifies this`text, this`textTruncated, this`failure, this`recognised
      ensures Reflects(events + LineEvents(codec, line))
    {
      assert events + [] == events;
      var trimmed := codec.trim(line);
      if |trimmed| == 0 {
        return;
      }
      var decoded := codec.unmarshal(trimmed);
      if decoded == None || decoded.value.kind == "" {
        return;
      }
      var ev := decoded.value;
      LastOfAppend(events, ev);
      assert LineEvents(codec, line) == [ev] && events + [ev] != [];
      recognised := true;
      if ev.kind != "message_end" || ev.message == None || ev.message.value.role != "assistant" {
        return;
      }
      var m := ev.message.value;
      AddBlocks(m.content, AllText(events));
      failure := "";
      if m.stopReason == "error" || m.stopReason == "aborted" {
        failure := m.errorMessage;
        if failure == "" {
          failure := "stopReason " + m.stopReason;
        }
      }
    }

    /** The end of a line: handled, or skipped when it grew too long to hold. */
    method EndLine(line: bytes, overlong: bool, ghost begun: bytes, ghost lines: seq<bytes>)
      requires Holds(line, overlong, begun)
      requires Reflects(Events(codec, lines))
      modifies this`text, this`textTruncated, this`failure, this`recognised
      ensures Reflects(Events(codec, lines + [begun]))
    {
      LastOfAppend(lines, begun);
      if !overlong {
        HandleLine(line, Events(codec, lines));
      } else {
        assert Events(codec, lines) + [] == Events(codec, lines);
      }
    }
  }

  /** The line so far, or nothing of it once it is too long to hold. */
  ghost predicate Holds(line: bytes, overlong: bool, begun: bytes) {
    if overlong then |begun| > MAX_LINE_SIZE else line == begun && |line| <= MAX_LINE_SIZE
  }

  method Extended(line: bytes, overlong: bool, data: bytes, ghost begun: bytes) returns (line': bytes, overlong': bool)
    requires Holds(line, overlong, begun)
    ensures Holds(line', overlong', begun + data)
  {
    line', overlong' := line, overlong;
    if !overlong {
      line' := line + data;
      if |line'| > MAX_LINE_SIZE {
        overlong', line' := true, [];
      }
    }
  }

  /** Takes in one chunk: into the raw output, into the line, and at a line's end into the result. */
  method TakeChunk(res: StreamResult, chunk: Chunk, line: bytes, overlong: bool,
                   ghost all: bytes, ghost begun: bytes, ghost lines: seq<bytes>)
    returns (line': bytes, overlong': bool, ghost begun': bytes, ghost lines': seq<bytes>)
    requires Capped(res.raw, res.rawTruncated, all, res.limit)
    requires res.Reflects(Events(res.codec, lines)) && Holds(line, overlong, begun)
    modifies res
    ensures Capped(res.raw, res.rawTruncated, all + chunk.data, res.limit)
    ensures res.Reflects(Events(res.codec, lines')) && Holds(line', overlong', begun')
    ensures begun' == if chunk.isPrefix then begun + chunk.data else []
    ensures lines' == if chunk.isPrefix then lines else lines + [begun + chunk.data]
  {
    res.AddRaw(chunk.data, all);
    line', overlong' := Extended(line, overlong, chunk.data, begun);
    begun', lines' := begun + chunk.data, lines;
    if !chunk.isPrefix {
      res.EndLine(line', overlong', begun', lines);
      lines' := lines + [begun'];
      line', overlong', begun' := [], false, [];
    }
  }

  /** One pass over the chunks, holding at most one line of bounded size, gives the plain parse. */
  method ParseStream(codec: Codec, chunks: seq<Chunk>, limit: int) returns (r: Parsed)
    ensures r == PlainParse(codec, chunks, limit)
  {
    var res := new StreamResult(codec, limit);
    var line: bytes, overlong := [], false;
    ghost var begun: bytes, lines: seq<bytes> := [], [];
    assert chunks[0..] == chunks && [] + Lines(chunks, []) == Lines(chunks, []);
    for i := 0 to |chunks|
      invariant res.codec == codec && res.limit == limit
      invariant Capped(res.raw, res.rawTruncated, Joined(chunks[..i]), limit)
      invariant res.Reflects(Events(codec, lines))
      invariant Lines(chunks, []) == lines + Lines(chunks[i..], begun)
      invariant Holds(line, overlong, begun)
    {
      JoinedNext(chunks, i);
      LinesNext(chunks, i, begun, lines);
      line, overlong, begun, lines := TakeChunk(res, chunks[i], line, overlong, Joined(chunks[..i]), begun, lines);
    }
    assert chunks[..|chunks|] == chunks && lines + [] == lines;
    r := Parsed(res.text, res.textTruncated, res.failure, res.recognised, res.raw, res.rawTruncated);
  }

  lemma LinesNext(chunks: seq<Chunk>, i: nat, begun: bytes, lines: seq<bytes>)
    requires i < |chunks|
    ensures lines + Lines(chunks[i..], begun)
         == if chunks[i].isPrefix then lines + Lines(chunks[i + 1..], begun + chunks[i].data)
            else lines + [begun + chunks[i].data] + Lines(chunks[i + 1..], [])
  {
    assert chunks[i..][1..] == chunks[i + 1..];
  }

  lemma {:induction false} JoinedNext(chunks: seq<Chunk>, i: nat)
    requires i < |chunks|
    ensures Joined(chunks[..i + 1]) == Joined(chunks[..i]) + chunks[i].data
  {
    if i == 0 {
      assert chunks[..1] == [chunks[0]];
    } else {
      JoinedNext(chunks[1..], i - 1);
      assert chunks[..i + 1][1..] == chunks[1..][..i] && chunks[..i][1..] == chunks[1..][..i - 1];
    }
  }

  // ------------------------------------------------- how the stream is chunked

  /** What the last line holds when its final chunk never comes. */
  function Unfinished(chunks: seq<Chunk>, begun: bytes): bytes {
    if chunks == [] then begun
    else Unfinished(chunks[1..], if chunks[0].isPrefix then begun + chunks[0].data else [])
  }

  function Concat(lines: seq<bytes>): bytes {
    if lines == [] then [] else lines[0] + Concat(lines[1..])
  }

  /** The lines and the unfinished rest are the stream. */
  lemma {:induction false} LinesCoverChunks(chunks: seq<Chunk>, begun: bytes)
    ensures Concat(Lines(chunks, begun)) + Unfinished(chunks, begun) == begun + Joined(chunks)
  {
    if chunks != [] {
      var rest, line := chunks[1..], begun + chunks[0].data;
      if chunks[0].isPrefix {
        LinesCoverChunks(rest, line);
      } else {
        LinesCoverChunks(rest, []);
        assert Lines(chunks, begun)[1..] == Lines(rest, []);
        assert line + Concat(Lines(rest, [])) + Unfinished(rest, []) == line + ([] + Joined(rest));
      }
      assert line + Joined(rest) == begun + (chunks[0].data + Joined(rest));
    }
  }

  /** The result depends on the lines and the unfinished rest alone, however the reader cut them up. */
  lemma ChunkingDoesNotMatter(codec: Codec, a: seq<Chunk>, b: seq<Chunk>, limit: int)
    requires Lines(a, []) == Lines(b, []) && Unfinished(a, []) == Unfinished(b, [])
    ensures PlainParse(codec, a, limit) == PlainParse(codec, b, limit)
  {
    LinesCoverChunks(a, []);
    LinesCoverChunks(b, []);
    assert [] + Joined(a) == Joined(a) && [] + Joined(b) == Joined(b);
  }

  /** Every byte of the stream reaches a line exactly when no line is left without its final chunk. */
  lemma EveryByteIsReadIff(chunks: seq<Chunk>)
    ensures Concat(Lines(chunks, [])) == Joined(chunks) <==> Unfinished(chunks, []) == []
  {
    LinesCoverChunks(chunks, []);
    assert [] + Joined(chunks) == Joined(chunks);
  }

  /**
   * A last line without its final chunk is lost: the reader reports such a chunk as a prefix exactly
   * when the stream ends without a newline just as its buffer is full.
   */
  lemma UnfinishedLineIsLost(codec: Codec, line: bytes, limit: int)
    requires LineEvents(codec, line) != []
    ensures PlainParse(codec, [Chunk(line, false)], limit).recognised
    ensures !PlainParse(codec, [Chunk(line, true)], limit).recognised
  {
    assert [] + line == line;
    assert Lines([], line) == [];
    assert [Chunk(line, false)][1..] == [] && [Chunk(line, true)][1..] == [];
    assert Lines([Chunk(line, false)], []) == [line];
    assert Lines([Chunk(line, true)], []) == Lines([], line);
    LastOfAppend([], line);
  }
}
