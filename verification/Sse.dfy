/**
 * The incremental frame splitter of apps/web/lib/sse.ts: whatever way a text is cut into
 * chunks, the frames are those of the whole text, and they are its blank-line-separated
 * blocks in the sense of section 9.2.5 of the WHATWG HTML standard.
 */
module Sse {
  import opened Prelude
  import opened JsText

  // ---------------------------------------------------------------------------
  // Line endings
  // ---------------------------------------------------------------------------

  function ReplaceCrLf(s: string): string {
    if s == [] then []
    else if |s| >= 2 && s[0] == '\r' && s[1] == '\n' then "\n" + ReplaceCrLf(s[2..])
    else [s[0]] + ReplaceCrLf(s[1..])
  }

  function ReplaceCr(s: string): string {
    if s == [] then [] else [if s[0] == '\r' then '\n' else s[0]] + ReplaceCr(s[1..])
  }

  /** The two replacements `push` and `flush` make, one after the other. */
  function Normalized(s: string): string {
    ReplaceCr(ReplaceCrLf(s))
  }

  /** The standard's reading in one pass: CRLF, CR and LF each end a line. */
  function Unified(s: string): string {
    if s == [] then []
    else if s[0] != '\r' then [s[0]] + Unified(s[1..])
    else "\n" + Unified(s[if |s| >= 2 && s[1] == '\n' then 2 else 1..])
  }

  lemma {:induction false} NormalizedIsUnified(s: string)
    ensures Normalized(s) == Unified(s)
  {
    if s != [] {
      if |s| >= 2 && s[0] == '\r' && s[1] == '\n' {
        NormalizedIsUnified(s[2..]);
        assert ReplaceCrLf(s) == ['\n'] + ReplaceCrLf(s[2..]);
        assert ReplaceCrLf(s)[1..] == ReplaceCrLf(s[2..]);
      } else {
        NormalizedIsUnified(s[1..]);
        assert ReplaceCrLf(s)[1..] == ReplaceCrLf(s[1..]);
      }
    }
  }

  predicate NoCr(s: string) {
    forall i :: 0 <= i < |s| ==> s[i] != '\r'
  }

  lemma {:induction false} UnifiedHasNoCr(s: string)
    ensures NoCr(Unified(s))
  {
    if s != [] {
      UnifiedHasNoCr(s[if s[0] == '\r' && |s| >= 2 && s[1] == '\n' then 2 else 1..]);
    }
  }

  lemma {:induction false} UnifiedIdempotent(s: string)
    requires NoCr(s)
    ensures Unified(s) == s
  {
    if s != [] {
      UnifiedIdempotent(s[1..]);
    }
  }

  predicate CutsCrLf(a: string, b: string) {
    a != [] && b != [] && a[|a| - 1] == '\r' && b[0] == '\n'
  }

  /** How many characters the first line ending or character of a non-empty text takes. */
  function Head(s: string): (n: nat)
    requires s != []
    ensures 1 <= n <= |s|
  {
    if s[0] == '\r' && |s| >= 2 && s[1] == '\n' then 2 else 1
  }

  lemma UnifiedUnfolds(s: string)
    requires s != []
    ensures Unified(s) == [if s[0] == '\r' then '\n' else s[0]] + Unified(s[Head(s)..])
  {
  }

  lemma UnifiedOfMore(a: string, b: string)
    requires a != [] && !CutsCrLf(a, b)
    ensures Head(a + b) == Head(a)
    ensures Unified(a + b) == [if a[0] == '\r' then '\n' else a[0]] + Unified(a[Head(a)..] + b)
  {
    assert (a + b)[Head(a)..] == a[Head(a)..] + b;
    UnifiedUnfolds(a + b);
  }

  /** Texts can be unified piecewise unless the cut runs through a CRLF. */
  lemma {:induction false} UnifiedConcat(a: string, b: string)
    requires !CutsCrLf(a, b)
    ensures Unified(a + b) == Unified(a) + Unified(b)
  {
    if |a| == 0 {
      assert a + b == b;
    } else {
      var n, c := Head(a), [if a[0] == '\r' then '\n' else a[0]];
      UnifiedOfMore(a, b);
      UnifiedUnfolds(a);
      UnifiedConcat(a[n..], b);
      assert c + (Unified(a[n..]) + Unified(b)) == (c + Unified(a[n..])) + Unified(b);
    }
  }

  // ---------------------------------------------------------------------------
  // Splitting at blank lines
  // ---------------------------------------------------------------------------

  function Glue(c: char, parts: seq<string>): (glued: seq<string>)
    requires parts != []
    ensures |glued| == |parts|
  {
    [[c] + parts[0]] + parts[1..]
  }

  predicate StartsBlank(s: string) {
    |s| >= 2 && s[0] == '\n' && s[1] == '\n'
  }

  /** `s.split("\n\n")`. */
  function Split(s: string): (parts: seq<string>)
    ensures |parts| >= 1
  {
    if |s| < 2 then [s]
    else if StartsBlank(s) then [""] + Split(s[2..])
    else Glue(s[0], Split(s[1..]))
  }

  function Init(parts: seq<string>): seq<string>
    requires parts != []
  {
    parts[..|parts| - 1]
  }

  function Last(parts: seq<string>): string
    requires parts != []
  {
    parts[|parts| - 1]
  }

  /** A text that splits into one part is that part. */
  lemma {:induction false} SplitSingle(s: string)
    requires |Split(s)| == 1
    ensures Split(s) == [s]
  {
    if |s| >= 2 {
      SplitSingle(s[1..]);
      assert [s[0]] + s[1..] == s;
    }
  }

  lemma GlueOver(c: char, rest: seq<string>, more: seq<string>)
    requires |rest| > 1 && more != []
    ensures Glue(c, Init(rest) + more) == Init(Glue(c, rest)) + more
    ensures Last(Glue(c, rest)) == Last(rest)
  {
  }

  lemma BlankOver(rest: seq<string>, more: seq<string>)
    requires rest != []
    ensures [""] + (Init(rest) + more) == Init([""] + rest) + more
    ensures Last([""] + rest) == Last(rest)
  {
  }

  lemma SplitAtBlank(s: string)
    requires StartsBlank(s)
    ensures Split(s) == [""] + Split(s[2..])
  {
  }

  lemma SplitAtText(s: string)
    requires |s| >= 2 && !StartsBlank(s)
    ensures Split(s) == Glue(s[0], Split(s[1..]))
  {
  }

  /** Text appended later can only affect the part that is still open. */
  lemma {:induction false} SplitExtends(a: string, b: string)
    ensures Split(a + b) == Init(Split(a)) + Split(Last(Split(a)) + b)
  {
    if |Split(a)| == 1 {
      SplitSingle(a);
      assert Init(Split(a)) == [];
    } else if StartsBlank(a) {
      SplitExtends(a[2..], b);
      assert (a + b)[2..] == a[2..] + b;
      SplitAtBlank(a);
      SplitAtBlank(a + b);
      BlankOver(Split(a[2..]), Split(Last(Split(a[2..])) + b));
    } else {
      SplitExtends(a[1..], b);
      assert (a + b)[1..] == a[1..] + b;
      SplitAtText(a);
      SplitAtText(a + b);
      GlueOver(a[0], Split(a[1..]), Split(Last(Split(a[1..])) + b));
    }
  }

  lemma {:induction false} LastHasNoCr(s: string)
    requires NoCr(s)
    ensures NoCr(Last(Split(s)))
  {
    if |s| >= 2 {
      if StartsBlank(s) {
        LastHasNoCr(s[2..]);
      } else {
        LastHasNoCr(s[1..]);
      }
    }
  }

  // ---------------------------------------------------------------------------
  // The splitter
  // ---------------------------------------------------------------------------

  function NonBlank(parts: seq<string>): seq<string> {
    if parts == [] then []
    else if IsBlank(parts[0]) then NonBlank(parts[1..])
    else [parts[0]] + NonBlank(parts[1..])
  }

  lemma {:induction false} NonBlankConcat(a: seq<string>, b: seq<string>)
    ensures NonBlank(a + b) == NonBlank(a) + NonBlank(b)
  {
    if a == [] {
      assert a + b == b;
    } else {
      NonBlankConcat(a[1..], b);
      assert (a + b)[1..] == a[1..] + b && (a + b)[0] == a[0];
      if !IsBlank(a[0]) {
        assert [a[0]] + (NonBlank(a[1..]) + NonBlank(b)) == ([a[0]] + NonBlank(a[1..])) + NonBlank(b);
      }
    }
  }

  predicate EndsInCr(s: string) {
    |s| > 0 && s[|s| - 1] == '\r'
  }

  /** A trailing lone CR is held back: it may be the first half of a CRLF. */
  function Held(s: string): string {
    if EndsInCr(s) then "\r" else ""
  }

  function Body(s: string): string {
    if EndsInCr(s) then s[..|s| - 1] else s
  }

  function PushFrames(buffer: string, chunk: string): seq<string> {
    NonBlank(Init(Split(Normalized(Body(buffer + chunk)))))
  }

  function PushRest(buffer: string, chunk: string): string {
    Last(Split(Normalized(Body(buffer + chunk)))) + Held(buffer + chunk)
  }

  function FlushFrames(buffer: string): seq<string> {
    if IsBlank(Normalized(buffer)) then [] else [Normalized(buffer)]
  }

  class SseFrameSplitter {
    var buffer: string

    constructor ()
      ensures buffer == ""
    {
      buffer := "";
    }

    method Push(chunk: string) returns (frames: seq<string>)
      modifies this
      ensures frames == PushFrames(old(buffer), chunk)
      ensures buffer == PushRest(old(buffer), chunk)
    {
      buffer := buffer + chunk;
      ghost var whole := buffer;
      var held := "";
      if |buffer| > 0 && buffer[|buffer| - 1] == '\r' {
        held := "\r";
        buffer := buffer[..|buffer| - 1];
      }
      assert buffer == Body(whole) && held == Held(whole);
      var parts := Split(ReplaceCr(ReplaceCrLf(buffer)));
      assert parts == Split(Normalized(Body(whole)));
      buffer := parts[|parts| - 1] + held;
      frames := NonBlank(parts[..|parts| - 1]);
    }

    method Flush() returns (tail: Option<string>)
      modifies this
      ensures buffer == ""
      ensures FlushFrames(old(buffer)) == if tail.Some? then [tail.value] else []
    {
      var text := ReplaceCr(ReplaceCrLf(buffer));
      buffer := "";
      tail := if IsBlank(text) then None else Some(text);
    }
  }

  // ---------------------------------------------------------------------------
  // Chunking is irrelevant
  // ---------------------------------------------------------------------------

  function Joined(chunks: seq<string>): string {
    if chunks == [] then "" else Joined(chunks[..|chunks| - 1]) + chunks[|chunks| - 1]
  }

  /** Frames and buffer after pushing the chunks in order. */
  function Pushed(chunks: seq<string>): (seq<string>, string) {
    if chunks == [] then ([], "")
    else
      var (frames, buffer) := Pushed(chunks[..|chunks| - 1]);
      var chunk := chunks[|chunks| - 1];
      (frames + PushFrames(buffer, chunk), PushRest(buffer, chunk))
  }

  /** Everything a consumer sees: push, ..., push, flush. */
  function AllFrames(chunks: seq<string>): seq<string> {
    Pushed(chunks).0 + FlushFrames(Pushed(chunks).1)
  }

  /** The reader loop: every read is pushed, then the decoder's tail, then the splitter is flushed. */
  method StreamFrames(received: seq<string>, decoderTail: string) returns (frames: seq<string>)
    ensures frames == AllFrames(received + [decoderTail])
  {
    var splitter := new SseFrameSplitter();
    frames := [];
    for k := 0 to |received|
      invariant (frames, splitter.buffer) == Pushed(received[..k])
    {
      assert received[..k + 1][..k] == received[..k];
      var more := splitter.Push(received[k]);
      frames := frames + more;
    }
    assert received[..|received|] == received == (received + [decoderTail])[..|received|];
    var more := splitter.Push(decoderTail);
    var tail := splitter.Flush();
    frames := frames + more;
    if tail.Some? {
      frames := frames + [tail.value];
    }
  }

  function Parts(text: string): (parts: seq<string>)
    ensures parts != []
  {
    Split(Unified(Body(text)))
  }

  /** The part still open, and the text the next push completes, in terms of all text so far. */
  function Buffered(text: string): string {
    Last(Parts(text)) + Held(text)
  }

  lemma OpenPartHasNoCr(text: string)
    ensures NoCr(Last(Parts(text)))
  {
    UnifiedHasNoCr(Body(text));
    LastHasNoCr(Unified(Body(text)));
  }

  lemma BodyOfConcat(front: string, back: string)
    requires back != ""
    ensures Body(front + back) == front + Body(back)
    ensures Held(front + back) == Held(back)
  {
    assert (front + back)[|front + back| - 1] == back[|back| - 1];
  }

  lemma BodyWithHeld(text: string)
    ensures text == Body(text) + Held(text)
    ensures Held(text) == "" ==> !EndsInCr(Body(text))
  {
  }

  lemma BodyOfOpen(front: string)
    requires NoCr(front)
    ensures Body(front) == front && Held(front) == ""
  {
  }

  lemma BodyExtends(text: string, chunk: string) returns (rest: string)
    ensures Body(text + chunk) == Body(text) + rest
    ensures !CutsCrLf(Body(text), rest)
    ensures Held(text + chunk) == Held(Buffered(text) + chunk)
    ensures Body(Buffered(text) + chunk) == Last(Parts(text)) + rest
  {
    var openPart, back := Last(Parts(text)), Held(text) + chunk;
    OpenPartHasNoCr(text);
    BodyWithHeld(text);
    rest := Body(back);
    assert text + chunk == Body(text) + back;
    assert Buffered(text) + chunk == openPart + back;
    if back == "" {
      BodyOfOpen(openPart);
      assert Body(text) + back == text && openPart + back == openPart;
    } else {
      BodyOfConcat(Body(text), back);
      BodyOfConcat(openPart, back);
    }
  }

  /** One push moves the splitter from the state of the text so far to the state of the longer text. */
  lemma PushExtends(text: string, chunk: string)
    ensures PushRest(Buffered(text), chunk) == Buffered(text + chunk)
    ensures NonBlank(Init(Parts(text))) + PushFrames(Buffered(text), chunk) == NonBlank(Init(Parts(text + chunk)))
  {
    var rest := BodyExtends(text, chunk);
    var openPart := Last(Parts(text));
    OpenPartHasNoCr(text);
    UnifiedIdempotent(openPart);
    UnifiedConcat(openPart, rest);
    NormalizedIsUnified(openPart + rest);
    UnifiedConcat(Body(text), rest);
    SplitExtends(Unified(Body(text)), Unified(rest));
    var more := Split(openPart + Unified(rest));
    assert Parts(text + chunk) == Init(Parts(text)) + more;
    assert Init(Parts(text + chunk)) == Init(Parts(text)) + Init(more);
    NonBlankConcat(Init(Parts(text)), Init(more));
  }

  /** After any chunks the splitter's state depends only on the text they add up to. */
  lemma {:induction false} PushedDependsOnText(chunks: seq<string>)
    ensures Pushed(chunks) == (NonBlank(Init(Parts(Joined(chunks)))), Buffered(Joined(chunks)))
  {
    if chunks == [] {
      var text := Joined(chunks);
      assert text == "" && Unified(text) == "" && Split("") == [""];
      assert Parts(text) == [""];
      assert Init([""]) == [];
      assert Buffered(text) == "";
    } else {
      PushedDependsOnText(chunks[..|chunks| - 1]);
      PushExtends(Joined(chunks[..|chunks| - 1]), chunks[|chunks| - 1]);
    }
  }

  /** Any way of cutting a text into chunks yields the frames of one push of the whole text. */
  lemma ChunkingIsIrrelevant(chunks: seq<string>)
    ensures AllFrames(chunks) == AllFrames([Joined(chunks)])
  {
    PushedDependsOnText(chunks);
    PushedDependsOnText([Joined(chunks)]);
    assert Joined([Joined(chunks)]) == Joined(chunks);
  }

  // ---------------------------------------------------------------------------
  // What the frames are
  // ---------------------------------------------------------------------------

  /** The lines of a text whose line endings are unified. */
  function Lines(s: string): (lines: seq<string>)
    ensures lines != []
  {
    if |s| == 0 then [""]
    else if s[0] == '\n' then [""] + Lines(s[1..])
    else Glue(s[0], Lines(s[1..]))
  }

  function WithoutEmpty(lines: seq<string>): seq<string> {
    if lines == [] then []
    else if |lines[0]| == 0 then WithoutEmpty(lines[1..])
    else [lines[0]] + WithoutEmpty(lines[1..])
  }

  /** The non-empty lines at the front. */
  function FirstRun(lines: seq<string>): (run: seq<string>)
    ensures |run| <= |lines|
  {
    if lines == [] || |lines[0]| == 0 then [] else [lines[0]] + FirstRun(lines[1..])
  }

  /** Maximal runs of non-empty lines: the stream's event blocks, the last one even without its blank line. */
  function Blocks(lines: seq<string>): seq<seq<string>>
    decreases |lines|
  {
    if lines == [] then []
    else if |lines[0]| == 0 then Blocks(lines[1..])
    else [FirstRun(lines)] + Blocks(lines[|FirstRun(lines)|..])
  }

  /** A block says something when some line has a character other than white space. */
  predicate HasText(block: seq<string>) {
    exists i :: 0 <= i < |block| && !IsBlank(block[i])
  }

  function WithText(blocks: seq<seq<string>>): seq<seq<string>> {
    if blocks == [] then []
    else if HasText(blocks[0]) then [blocks[0]] + WithText(blocks[1..])
    else WithText(blocks[1..])
  }

  /** The lines a frame carries. */
  function Payload(frame: string): seq<string> {
    WithoutEmpty(Lines(frame))
  }

  function Payloads(frames: seq<string>): seq<seq<string>> {
    if frames == [] then [] else [Payload(frames[0])] + Payloads(frames[1..])
  }

  lemma GlueConcat(c: char, front: seq<string>, back: seq<string>)
    requires front != []
    ensures Glue(c, front + back) == Glue(c, front) + back
  {
    assert (front + back)[0] == front[0] && (front + back)[1..] == front[1..] + back;
  }

  lemma {:induction false} LinesConcat(a: string, b: string)
    ensures Lines(a + "\n" + b) == Lines(a) + Lines(b)
  {
    var s := a + "\n" + b;
    if |a| == 0 {
      assert s[0] == '\n' && s[1..] == b;
    } else {
      LinesConcat(a[1..], b);
      assert s[0] == a[0] && s[1..] == a[1..] + "\n" + b;
      var front, back := Lines(a[1..]), Lines(b);
      if a[0] == '\n' {
        assert [""] + (front + back) == ([""] + front) + back;
      } else {
        GlueConcat(a[0], front, back);
      }
    }
  }

  lemma {:induction false} FirstRunStops(front: seq<string>, back: seq<string>)
    ensures FirstRun(front + [""] + back) == FirstRun(front)
  {
    if front != [] && |front[0]| > 0 {
      FirstRunStops(front[1..], back);
      assert (front + [""] + back)[1..] == front[1..] + [""] + back;
    }
  }

  lemma {:induction false} BlocksConcat(front: seq<string>, back: seq<string>)
    ensures Blocks(front + [""] + back) == Blocks(front) + Blocks(back)
    decreases |front|
  {
    var all := front + [""] + back;
    if front == [] {
      assert all[1..] == back;
    } else if |front[0]| == 0 {
      BlocksConcat(front[1..], back);
      assert all[1..] == front[1..] + [""] + back;
    } else {
      var n := |FirstRun(front)|;
      FirstRunStops(front, back);
      BlocksConcat(front[n..], back);
      assert all[n..] == front[n..] + [""] + back;
    }
  }

  lemma {:induction false} WithoutEmptyConcat(a: seq<string>, b: seq<string>)
    ensures WithoutEmpty(a + b) == WithoutEmpty(a) + WithoutEmpty(b)
  {
    if a == [] {
      assert a + b == b;
    } else {
      WithoutEmptyConcat(a[1..], b);
      assert (a + b)[1..] == a[1..] + b && (a + b)[0] == a[0];
      if |a[0]| > 0 {
        assert [a[0]] + (WithoutEmpty(a[1..]) + WithoutEmpty(b)) == ([a[0]] + WithoutEmpty(a[1..])) + WithoutEmpty(b);
      }
    }
  }

  function AsBlocks(run: seq<string>): seq<seq<string>> {
    if run == [] then [] else [run]
  }

  lemma {:induction false} FullRun(lines: seq<string>)
    requires forall i :: 0 <= i < |lines| ==> |lines[i]| > 0
    ensures FirstRun(lines) == lines && WithoutEmpty(lines) == lines
  {
    if lines != [] {
      FullRun(lines[1..]);
    }
  }

  /** Non-empty lines, perhaps with one empty line behind them, form at most one block. */
  lemma BlockOfRun(lines: seq<string>)
    requires forall i :: 0 <= i < |lines| - 1 ==> |lines[i]| > 0
    ensures Blocks(lines) == AsBlocks(WithoutEmpty(lines))
  {
    if lines != [] && |lines[|lines| - 1]| == 0 {
      var run := lines[..|lines| - 1];
      assert lines == run + [""] + [];
      FullRun(run);
      FullBlock(run);
      BlocksConcat(run, []);
      assert lines == run + [""];
      WithoutEmptyConcat(run, [""]);
      assert [""][1..] == [] && WithoutEmpty([""]) == [];
    } else {
      FullRun(lines);
      FullBlock(lines);
    }
  }

  /** Lines that are all non-empty but perhaps the outermost two form at most one block. */
  lemma OneBlock(lines: seq<string>)
    requires lines != []
    requires forall i :: 0 < i < |lines| - 1 ==> |lines[i]| > 0
    ensures Blocks(lines) == AsBlocks(WithoutEmpty(lines))
  {
    if |lines[0]| == 0 {
      BlockOfRun(lines[1..]);
    } else {
      BlockOfRun(lines);
    }
  }

  lemma FullBlock(run: seq<string>)
    requires FirstRun(run) == run
    ensures Blocks(run) == AsBlocks(run)
  {
    if run != [] {
      assert run[|run|..] == [];
    }
  }

  /** Inside a part no line is empty. */
  lemma {:induction false} PartHasNoInnerBlank(part: string)
    requires |Split(part)| == 1
    ensures forall i :: 0 < i < |Lines(part)| - 1 ==> |Lines(part)[i]| > 0
    ensures part != "" && part[0] != '\n' ==> |Lines(part)[0]| > 0
  {
    if |part| >= 2 {
      PartHasNoInnerBlank(part[1..]);
    } else if part != "" {
      assert Lines(part[1..]) == [""];
    }
  }

  /** The first part of a text with several, and the text behind the blank line that ends it. */
  lemma {:induction false} FirstPart(s: string) returns (rest: string)
    requires |Split(s)| > 1
    ensures s == Split(s)[0] + "\n\n" + rest
    ensures Split(s) == [Split(s)[0]] + Split(rest)
    ensures |Split(Split(s)[0])| == 1
    ensures |rest| < |s|
  {
    if StartsBlank(s) {
      rest := s[2..];
    } else {
      rest := FirstPart(s[1..]);
      var inner := Split(s[1..])[0];
      assert s == [s[0]] + s[1..];
      assert Split(s)[0] == [s[0]] + inner;
      var first := Split(s)[0];
      assert first[1..] == inner;
      assert |inner| >= 1 ==> inner[0] == s[1];
      assert !StartsBlank(first);
    }
  }

  lemma {:induction false} HasTextGlue(c: char, lines: seq<string>)
    requires lines != []
    ensures HasText(Glue(c, lines)) <==> !IsSpace(c) || HasText(lines)
  {
    var glued := Glue(c, lines);
    if HasText(lines) {
      var i :| 0 <= i < |lines| && !IsBlank(lines[i]);
      if i == 0 {
        var k :| 0 <= k < |lines[0]| && !IsSpace(lines[0][k]);
        assert glued[0][k + 1] == lines[0][k];
      }
      assert !IsBlank(glued[i]);
    } else if IsSpace(c) {
      assert forall i :: 0 <= i < |lines| ==> IsBlank(lines[i]);
      assert IsBlank(glued[0]);
    } else {
      assert glued[0][0] == c;
      assert !IsBlank(glued[0]);
    }
  }

  lemma {:induction false} TextIsInSomeLine(s: string)
    ensures HasText(Lines(s)) <==> !IsBlank(s)
  {
    if s == "" {
      assert Lines(s) == [""];
    } else {
      TextIsInSomeLine(s[1..]);
      assert IsBlank(s) <==> IsSpace(s[0]) && IsBlank(s[1..]);
      if s[0] == '\n' {
        HasTextCons("", Lines(s[1..]));
      } else {
        HasTextGlue(s[0], Lines(s[1..]));
      }
    }
  }

  lemma HasTextCons(line: string, lines: seq<string>)
    ensures HasText([line] + lines) <==> !IsBlank(line) || HasText(lines)
  {
    var all := [line] + lines;
    if HasText(lines) {
      var i :| 0 <= i < |lines| && !IsBlank(lines[i]);
      assert all[i + 1] == lines[i];
    } else if !IsBlank(line) {
      assert all[0] == line;
    }
  }

  lemma {:induction false} HasTextWithoutEmpty(lines: seq<string>)
    ensures HasText(WithoutEmpty(lines)) <==> HasText(lines)
  {
    if lines != [] {
      HasTextWithoutEmpty(lines[1..]);
      assert lines == [lines[0]] + lines[1..];
      HasTextCons(lines[0], lines[1..]);
      if |lines[0]| > 0 {
        HasTextCons(lines[0], WithoutEmpty(lines[1..]));
      } else {
        assert IsBlank(lines[0]);
      }
    }
  }

  /** A frame is dropped exactly when its lines say nothing. */
  lemma PayloadHasText(part: string)
    ensures HasText(Payload(part)) <==> !IsBlank(part)
  {
    TextIsInSomeLine(part);
    HasTextWithoutEmpty(Lines(part));
  }

  lemma {:induction false} WithTextConcat(a: seq<seq<string>>, b: seq<seq<string>>)
    ensures WithText(a + b) == WithText(a) + WithText(b)
  {
    if a == [] {
      assert a + b == b;
    } else {
      WithTextConcat(a[1..], b);
      assert (a + b)[1..] == a[1..] + b && (a + b)[0] == a[0];
      if HasText(a[0]) {
        assert [a[0]] + (WithText(a[1..]) + WithText(b)) == ([a[0]] + WithText(a[1..])) + WithText(b);
      }
    }
  }

  lemma {:induction false} PayloadsConcat(a: seq<string>, b: seq<string>)
    ensures Payloads(a + b) == Payloads(a) + Payloads(b)
  {
    if a == [] {
      assert a + b == b;
    } else {
      PayloadsConcat(a[1..], b);
      assert (a + b)[1..] == a[1..] + b && (a + b)[0] == a[0];
      assert [Payload(a[0])] + (Payloads(a[1..]) + Payloads(b)) == ([Payload(a[0])] + Payloads(a[1..])) + Payloads(b);
    }
  }

  lemma OnePartIsOneBlock(part: string)
    requires |Split(part)| == 1
    ensures Payloads(NonBlank([part])) == WithText(Blocks(Lines(part)))
  {
    PartHasNoInnerBlank(part);
    OneBlock(Lines(part));
    PayloadHasText(part);
    var run := Payload(part);
    assert [part][1..] == [] && [run][1..] == [];
    assert NonBlank([part]) == if IsBlank(part) then [] else [part];
    assert Payloads([part]) == [run];
    assert WithText([run]) == if HasText(run) then [run] else [];
  }

  lemma BlocksAtBlankLine(part: string, rest: string)
    ensures Blocks(Lines(part + "\n\n" + rest)) == Blocks(Lines(part)) + Blocks(Lines(rest))
  {
    LinesConcat(part, "\n" + rest);
    assert part + "\n" + ("\n" + rest) == part + "\n\n" + rest;
    assert ("\n" + rest)[1..] == rest;
    assert Lines(part) + ([""] + Lines(rest)) == Lines(part) + [""] + Lines(rest);
    BlocksConcat(Lines(part), Lines(rest));
  }

  /** The non-blank parts of a text carry exactly its non-blank blocks. */
  lemma {:induction false} PartsAreBlocks(s: string)
    ensures Payloads(NonBlank(Split(s))) == WithText(Blocks(Lines(s)))
    decreases |s|
  {
    if |Split(s)| == 1 {
      SplitSingle(s);
      OnePartIsOneBlock(s);
    } else {
      var rest := FirstPart(s);
      var part := Split(s)[0];
      PartsAreBlocks(rest);
      OnePartIsOneBlock(part);
      BlocksAtBlankLine(part, rest);
      NonBlankConcat([part], Split(rest));
      PayloadsConcat(NonBlank([part]), NonBlank(Split(rest)));
      WithTextConcat(Blocks(Lines(part)), Blocks(Lines(rest)));
    }
  }

  /** A line ending behind the last part changes neither what it carries nor whether it is blank. */
  lemma TrailingLineEnd(part: string)
    ensures Payload(part + "\n") == Payload(part)
    ensures IsBlank(part + "\n") <==> IsBlank(part)
  {
    LinesConcat(part, "");
    assert part + "\n" + "" == part + "\n";
    WithoutEmptyConcat(Lines(part), [""]);
    PayloadHasText(part);
    PayloadHasText(part + "\n");
  }

  lemma FlushCarriesLastPart(text: string)
    ensures Payloads(FlushFrames(Buffered(text))) == Payloads(NonBlank([Last(Parts(text))]))
  {
    var openPart := Last(Parts(text));
    OpenPartHasNoCr(text);
    NormalizedIsUnified(Buffered(text));
    UnifiedIdempotent(openPart);
    UnifiedConcat(openPart, Held(text));
    assert Unified("\r") == "\n" && Unified("") == "";
    TrailingLineEnd(openPart);
    assert openPart + "" == openPart;
    assert [openPart][1..] == [];
  }

  lemma BodyHasTheBlocks(text: string)
    ensures Blocks(Lines(Unified(text))) == Blocks(Lines(Unified(Body(text))))
  {
    BodyWithHeld(text);
    if EndsInCr(text) {
      var body := Unified(Body(text));
      UnifiedConcat(Body(text), "\r");
      assert Unified("\r") == "\n";
      LinesConcat(body, "");
      assert body + "\n" + "" == body + "\n";
      assert Lines(body) + [""] == Lines(body) + [""] + [];
      BlocksConcat(Lines(body), []);
    }
  }

  lemma SamePayloadAtTheEnd(parts: seq<string>, tail: seq<string>)
    requires parts != [] && Payloads(tail) == Payloads(NonBlank([Last(parts)]))
    ensures Payloads(NonBlank(Init(parts)) + tail) == Payloads(NonBlank(parts))
  {
    PayloadsConcat(NonBlank(Init(parts)), tail);
    assert parts == Init(parts) + [Last(parts)];
    NonBlankConcat(Init(parts), [Last(parts)]);
    PayloadsConcat(NonBlank(Init(parts)), NonBlank([Last(parts)]));
  }

  lemma PartsPlusFlush(text: string)
    ensures Payloads(NonBlank(Init(Parts(text))) + FlushFrames(Buffered(text))) == Payloads(NonBlank(Parts(text)))
  {
    FlushCarriesLastPart(text);
    SamePayloadAtTheEnd(Parts(text), FlushFrames(Buffered(text)));
  }

  /**
   * However the text arrives, the frames carry, in order, exactly the blocks of lines the
   * standard's blank lines delimit in it, leaving out blocks of nothing but white space.
   */
  lemma FramesAreTheBlocks(chunks: seq<string>)
    ensures Payloads(AllFrames(chunks)) == WithText(Blocks(Lines(Unified(Joined(chunks)))))
  {
    var text := Joined(chunks);
    PushedDependsOnText(chunks);
    PartsPlusFlush(text);
    PartsAreBlocks(Unified(Body(text)));
    BodyHasTheBlocks(text);
  }

  /** The one case in which a frame keeps line ends the blank-line split would have cut off. */
  predicate KeepsTrailingBlankLine(text: string) {
    var openPart := Last(Parts(text));
    EndsInCr(text) && !IsBlank(openPart) && openPart[|openPart| - 1] == '\n'
  }

  lemma {:induction false} LastPartIsOpen(s: string)
    ensures |Split(Last(Split(s)))| == 1
  {
    if |s| >= 2 {
      if StartsBlank(s) {
        LastPartIsOpen(s[2..]);
      } else {
        LastPartIsOpen(s[1..]);
        if |Split(s[1..])| == 1 {
          SplitSingle(s);
        }
      }
    }
  }

  /** A part followed by one line end is one part still, unless the line end completes a blank line. */
  lemma {:induction false} SplitWithLineEnd(part: string)
    requires |Split(part)| == 1
    ensures Split(part + "\n") ==
            if part != [] && part[|part| - 1] == '\n' then [part[..|part| - 1], ""] else [part + "\n"]
  {
    if |part| >= 2 {
      SplitWithLineEnd(part[1..]);
      assert (part + "\n")[1..] == part[1..] + "\n";
      SplitAtText(part + "\n");
      assert part[1..][|part| - 2] == part[|part| - 1];
      assert [part[0]] + part[1..][..|part| - 2] == part[..|part| - 1];
      assert [part[0]] + (part[1..] + "\n") == part + "\n";
    } else if part != [] {
      assert (part + "\n")[1..] == "\n" && (part + "\n")[2..] == "";
      assert [part[0]] + "\n" == part + "\n" && part[..0] == "";
    }
  }

  lemma FlushWithHeldCr(text: string)
    requires EndsInCr(text)
    ensures var openPart := Last(Parts(text));
            && FlushFrames(Buffered(text)) == (if IsBlank(openPart) then [] else [openPart + "\n"])
            && Split(Unified(text)) == Init(Parts(text)) + Split(openPart + "\n")
  {
    var openPart := Last(Parts(text));
    OpenPartHasNoCr(text);
    NormalizedIsUnified(Buffered(text));
    UnifiedIdempotent(openPart);
    UnifiedConcat(openPart, "\r");
    assert Unified("\r") == "\n";
    TrailingLineEnd(openPart);
    BodyWithHeld(text);
    UnifiedConcat(Body(text), "\r");
    SplitExtends(Unified(Body(text)), "\n");
  }

  /**
   * Exactly when the frames are, character for character, the non-blank parts of the whole text
   * split at blank lines: always, except when there is more than white space behind the last
   * blank line, then a line end, and then a bare CR that ends the text.  The last frame then
   * keeps those two line ends.
   */
  lemma FramesAreSplitIff(chunks: seq<string>)
    ensures var text := Joined(chunks);
            AllFrames(chunks) == NonBlank(Split(Unified(text))) <==> !KeepsTrailingBlankLine(text)
  {
    var text := Joined(chunks);
    PushedDependsOnText(chunks);
    if EndsInCr(text) {
      HeldCrFrames(text);
    } else {
      PlainFrames(text);
    }
  }

  lemma HeldCrFrames(text: string)
    requires EndsInCr(text)
    ensures NonBlank(Init(Parts(text))) + FlushFrames(Buffered(text)) == NonBlank(Split(Unified(text))) <==>
            !KeepsTrailingBlankLine(text)
  {
    var front, openPart := Init(Parts(text)), Last(Parts(text));
    FlushWithHeldCr(text);
    LastPartIsOpen(Unified(Body(text)));
    SplitWithLineEnd(openPart);
    NonBlankConcat(front, Split(openPart + "\n"));
    LastFrames(openPart);
    SameTail(NonBlank(front), FlushFrames(Buffered(text)), NonBlank(Split(openPart + "\n")));
    if KeepsTrailingBlankLine(text) {
      assert [openPart + "\n"][0] != [openPart[..|openPart| - 1]][0];
    }
  }

  lemma PlainFlush(text: string)
    requires !EndsInCr(text)
    ensures FlushFrames(Buffered(text)) == NonBlank([Last(Parts(text))])
  {
    var openPart := Last(Parts(text));
    OpenPartHasNoCr(text);
    NormalizedIsUnified(openPart);
    UnifiedIdempotent(openPart);
    assert Buffered(text) == openPart;
    assert [openPart][1..] == [];
  }

  lemma PlainFrames(text: string)
    requires !EndsInCr(text)
    ensures NonBlank(Init(Parts(text))) + FlushFrames(Buffered(text)) == NonBlank(Split(Unified(text)))
  {
    var parts := Parts(text);
    PlainFlush(text);
    assert parts == Init(parts) + [Last(parts)];
    NonBlankConcat(Init(parts), [Last(parts)]);
  }

  lemma LastFrames(openPart: string)
    ensures IsBlank(openPart) ==> NonBlank([openPart + "\n"]) == []
    ensures !IsBlank(openPart) ==> NonBlank([openPart + "\n"]) == [openPart + "\n"]
    ensures openPart != [] && openPart[|openPart| - 1] == '\n' ==>
              NonBlank([openPart[..|openPart| - 1], ""]) == if IsBlank(openPart) then [] else [openPart[..|openPart| - 1]]
  {
    TrailingLineEnd(openPart);
    assert [openPart + "\n"][1..] == [];
    if openPart != [] && openPart[|openPart| - 1] == '\n' {
      var cut := openPart[..|openPart| - 1];
      assert cut + "\n" == openPart;
      TrailingLineEnd(cut);
      assert [cut, ""][1..] == [""] && [""][1..] == [];
    }
  }
}
