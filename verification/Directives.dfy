/** Deterministic directives: where they are found in a document, at which byte offsets, and what
    the kernel will say about the evidence made from them. */
module Directives {
  import opened Lines
  import opened Sequences
  import opened TextRules
  import opened Utf8
  import opened Wrappers
  import Json

  // --------------------------------------------------------------------------- fences

  datatype Fence = Fence(mark: char, length: nat)

  /** A fence line: its run of marks and what follows the run. */
  datatype Marker = Marker(mark: char, length: nat, rest: string)

  function RunLength(text: string, c: char): (n: nat)
    ensures n <= |text| && forall i :: 0 <= i < n ==> text[i] == c
    ensures n < |text| ==> text[n] != c
  {
    if text == "" || text[0] != c then 0
    else
      var n := RunLength(text[1..], c);
      assert forall i :: 1 <= i < n + 1 ==> text[i] == text[1..][i - 1];
      n + 1
  }

  /** Up to three spaces, then three or more backticks or tildes, then anything. */
  function FenceMarker(text: string): Option<Marker> {
    var spaces := RunLength(text, ' ');
    if spaces > 3 || spaces == |text| then None
    else
      var c := text[spaces];
      var run := RunLength(text[spaces..], c);
      if (c == '`' || c == '~') && run >= 3 then Some(Marker(c, run, text[spaces + run..])) else None
  }

  /** A run at least as long, of the same mark and with nothing after it. */
  predicate Closes(m: Marker, open: Fence) {
    m.mark == open.mark && m.length >= open.length && Blank(m.rest)
  }

  function NextFence(fence: Option<Fence>, m: Marker): Option<Fence> {
    match fence
    case None => Some(Fence(m.mark, m.length))
    case Some(open) => if Closes(m, open) then None else fence
  }

  // ----------------------------------------------------------------------- directives

  /** The letter a character counts as when case is ignored. */
  function Letter(c: char): char {
    if 'a' <= c <= 'z' then (c as int - 32) as char
    else if c == '\U{0131}' || c == '\U{0130}' then 'I'
    else if c == '\U{017F}' then 'S'
    else if c == '\U{212A}' then 'K'
    else c
  }

  /** Its upper-case form, which keeps the dotted capital I and the Kelvin sign. */
  function UpperChar(c: char): char {
    if c == '\U{0130}' || c == '\U{212A}' then c else Letter(c)
  }

  function Upper(text: string): (r: string)
    ensures |r| == |text| && forall i :: 0 <= i < |r| ==> r[i] == UpperChar(text[i])
  {
    seq(|text|, i requires 0 <= i < |text| => UpperChar(text[i]))
  }

  predicate Spells(text: string, i: nat, keyword: string) {
    i + |keyword| <= |text| && forall k :: 0 <= k < |keyword| ==> Letter(text[i + k]) == keyword[k]
  }

  /** The length of the keyword spelled at a position. */
  function KeywordLength(text: string, i: nat): (r: Option<nat>)
    ensures r.Some? ==> i + r.value <= |text|
  {
    if Spells(text, i, "FACT") || Spells(text, i, "WORK") then Some(4)
    else if Spells(text, i, "DECISION") || Spells(text, i, "QUESTION") then Some(8)
    else if Spells(text, i, "SKILL") then Some(5)
    else None
  }

  function SkipSpace(text: string, i: nat): (j: nat)
    requires i <= |text|
    ensures i <= j <= |text|
    decreases |text| - i
  {
    if i < |text| && IsSpace(text[i]) then SkipSpace(text, i + 1) else i
  }

  function StripEnd(text: string): string {
    if text != "" && IsSpace(text[|text| - 1]) then StripEnd(text[..|text| - 1]) else text
  }

  function Strip(text: string): string {
    StripEnd(text[SkipSpace(text, 0)..])
  }

  datatype Match = Match(kind: string, payload: string)

  /** A keyword in any case, a colon and at least one character more. */
  function MatchDirective(text: string): Option<Match> {
    var i := SkipSpace(text, 0);
    match KeywordLength(text, i)
    case None => None
    case Some(length) =>
      var colon := SkipSpace(text, i + length);
      if colon + 1 < |text| && text[colon] == ':'
      then Some(Match(Upper(text[i..i + length]), Strip(text[colon + 1..])))
      else None
  }

  predicate Indented(text: string) {
    text != "" && (text[0] == ' ' || text[0] == '\t')
  }

  // ---------------------------------------------------------------------- conversations

  predicate SplitsText(c: char) {
    var n := c as int;
    0x0A <= n <= 0x0D || 0x1C <= n <= 0x1E || n == 0x85 || n == 0x2028 || n == 0x2029
  }

  /** Text lines by every line boundary the host language knows. */
  function SplitText(text: string, from: nat, i: nat): seq<string>
    requires from <= i <= |text|
    decreases |text| - i
  {
    if i == |text| then if from == i then [] else [text[from..]]
    else if !SplitsText(text[i]) then SplitText(text, from, i + 1)
    else
      var next := if text[i] == '\r' && i + 1 < |text| && text[i + 1] == '\n' then i + 2 else i + 1;
      [text[from..i]] + SplitText(text, next, next)
  }

  const MESSAGE_KEYS: seq<string> := ["content", "text", "message", "output", "input"]

  /** Every message text in a parsed line, in reading order. */
  function MessageTexts(value: Json.Json): seq<string>
    decreases value, 1, 0
  {
    match value
    case Text(text) => [text]
    case Object(_) => KeyedTexts(value, |MESSAGE_KEYS|)
    case List(items) => ListTexts(items)
    case _ => []
  }

  function KeyedTexts(value: Json.Json, n: nat): seq<string>
    requires value.Object? && n <= |MESSAGE_KEYS|
    decreases value, 0, n
  {
    if n == 0 then []
    else
      var key := MESSAGE_KEYS[n - 1];
      KeyedTexts(value, n - 1)
      + if !Json.Has(value, key) then []
        else
          var item := Json.Get(value, key);
          match item
          case Text(text) => [text]
          case List(items) => ListTexts(items)
          case _ => []
  }

  function ListTexts(items: seq<Json.Json>): seq<string>
    decreases items, 0, 0
  {
    if items == [] then [] else ListTexts(items[..|items| - 1]) + MessageTexts(items[|items| - 1])
  }

  // ------------------------------------------------------------------- what is extracted

  datatype Options = Options(conversation: bool, markdown: bool)

  datatype Directive = Directive(kind: string, payload: string, startByte: nat, endByte: nat, excerpt: string)

  function Markers(texts: seq<string>): (markers: seq<Option<Marker>>)
    ensures |markers| == |texts| && forall i :: 0 <= i < |texts| ==> markers[i] == FenceMarker(texts[i])
  {
    seq(|texts|, i requires 0 <= i < |texts| => FenceMarker(texts[i]))
  }

  /** The fence left open by the first `n` lines. */
  function FenceAfter(markers: seq<Option<Marker>>, n: nat): Option<Fence>
    requires n <= |markers|
  {
    if n == 0 then None
    else
      match markers[n - 1]
      case None => FenceAfter(markers, n - 1)
      case Some(m) => NextFence(FenceAfter(markers, n - 1), m)
  }

  /** In Markdown a line counts only outside every fence and when it is not indented. */
  predicate Considered(text: string, open: Option<Fence>, markdown: bool) {
    !markdown || (FenceMarker(text).None? && open.None? && !Indented(text))
  }

  function MatchesIn(texts: seq<string>, n: nat, markdown: bool): seq<Match>
    requires n <= |texts|
  {
    if n == 0 then []
    else
      var text := texts[n - 1];
      MatchesIn(texts, n - 1, markdown)
      + if Considered(text, FenceAfter(Markers(texts), n - 1), markdown) && MatchDirective(text).Some?
          then [MatchDirective(text).value] else []
  }

  /** What a conversation line says: its messages when it parses to some, otherwise itself. */
  function Candidates(text: string, parse: string -> Option<Json.Json>): seq<string> {
    match parse(text)
    case None => [text]
    case Some(value) => if MessageTexts(value) == [] then [text] else MessageTexts(value)
  }

  function CandidateMatches(candidates: seq<string>, n: nat, markdown: bool): seq<Match>
    requires n <= |candidates|
  {
    if n == 0 then []
    else
      var texts := SplitText(candidates[n - 1], 0, 0);
      CandidateMatches(candidates, n - 1, markdown) + MatchesIn(texts, |texts|, markdown)
  }

  /** The matches of one line when a fence may be open before it. */
  function LineMatches(text: string, open: Option<Fence>, options: Options,
      parse: string -> Option<Json.Json>): seq<Match> {
    if text == "" then []
    else if options.conversation then
      var candidates := Candidates(text, parse);
      CandidateMatches(candidates, |candidates|, options.markdown)
    else if Considered(text, open, options.markdown) && MatchDirective(text).Some? then [MatchDirective(text).value]
    else []
  }

  function Bodies(lines: seq<Line>): (texts: seq<string>)
    ensures |texts| == |lines| && forall i :: 0 <= i < |texts| ==> texts[i] == lines[i].body
  {
    seq(|lines|, i requires 0 <= i < |lines| => lines[i].body)
  }

  /** The byte offset of a line. */
  function Offset(lines: seq<Line>, i: nat): nat
    requires i <= |lines|
  {
    |Flatten(EncodedLines(lines), i)|
  }

  function Located(matches: seq<Match>, text: string, start: nat): (r: seq<Directive>)
    ensures |r| == |matches|
    ensures forall k ::
        0 <= k < |r| ==> r[k] == Directive(matches[k].kind, matches[k].payload, start, start + |Encode(text)|, text)
  {
    seq(|matches|, k requires 0 <= k < |matches| =>
      Directive(matches[k].kind, matches[k].payload, start, start + |Encode(text)|, text))
  }

  /** The directives of one line. */
  function FoundAt(lines: seq<Line>, i: nat, options: Options, parse: string -> Option<Json.Json>): seq<Directive>
    requires i < |lines|
  {
    var open := FenceAfter(Markers(Bodies(lines)), i);
    Located(LineMatches(lines[i].body, open, options, parse), lines[i].body, Offset(lines, i))
  }

  function FoundByLine(lines: seq<Line>, options: Options,
      parse: string -> Option<Json.Json>): (parts: seq<seq<Directive>>)
    ensures |parts| == |lines| && forall i :: 0 <= i < |parts| ==> parts[i] == FoundAt(lines, i, options, parse)
  {
    seq(|lines|, i requires 0 <= i < |lines| => FoundAt(lines, i, options, parse))
  }

  /** All directives, in document order. */
  function Found(lines: seq<Line>, options: Options, parse: string -> Option<Json.Json>): seq<Directive> {
    Flatten(FoundByLine(lines, options, parse), |lines|)
  }

  // ------------------------------------------------------------------------ extraction

  /** A fence line moves the fence and adds no match. */
  lemma FenceLineSkipped(texts: seq<string>, n: nat)
    requires n < |texts| && FenceMarker(texts[n]).Some?
    ensures MatchesIn(texts, n + 1, true) == MatchesIn(texts, n, true)
    ensures FenceAfter(Markers(texts), n + 1) == NextFence(FenceAfter(Markers(texts), n), FenceMarker(texts[n]).value)
  {}

  /** Any other line leaves the fence, and is matched when it counts. */
  lemma TextLineMatched(texts: seq<string>, n: nat, markdown: bool, considered: bool, found: Option<Match>)
    requires n < |texts| && (markdown ==> FenceMarker(texts[n]).None?)
    requires considered == Considered(texts[n], FenceAfter(Markers(texts), n), markdown)
    requires considered ==> found == MatchDirective(texts[n])
    ensures MatchesIn(texts, n + 1, markdown)
         == MatchesIn(texts, n, markdown) + if considered && found.Some? then [found.value] else []
    ensures markdown ==> FenceAfter(Markers(texts), n + 1) == FenceAfter(Markers(texts), n)
  {}

  method IterCandidateDirectives(candidate: string, markdown: bool) returns (matches: seq<Match>)
    ensures
      var texts := SplitText(candidate, 0, 0);
      matches == MatchesIn(texts, |texts|, markdown)
  {
    matches := [];
    var fence: Option<Fence> := None;
    var texts := SplitText(candidate, 0, 0);
    for i := 0 to |texts|
      invariant matches == MatchesIn(texts, i, markdown)
      invariant markdown ==> fence == FenceAfter(Markers(texts), i)
    {
      if markdown {
        var marker := FenceMarker(texts[i]);
        if marker.Some? {
          FenceLineSkipped(texts, i);
          fence := NextFence(fence, marker.value);
          continue;
        }
        if fence.Some? || Indented(texts[i]) {
          TextLineMatched(texts, i, markdown, false, None);
          continue;
        }
      }
      var found := MatchDirective(texts[i]);
      TextLineMatched(texts, i, markdown, true, found);
      if found.Some? {
        matches := matches + [found.value];
      }
    }
  }

  /** One conversation line. */
  method ConversationMatches(text: string, markdown: bool, parse: string -> Option<Json.Json>)
      returns (matches: seq<Match>)
    ensures
      var candidates := Candidates(text, parse);
      matches == CandidateMatches(candidates, |candidates|, markdown)
  {
    matches := [];
    var candidates := Candidates(text, parse);
    for k := 0 to |candidates|
      invariant matches == CandidateMatches(candidates, k, markdown)
    {
      var more := IterCandidateDirectives(candidates[k], markdown);
      matches := matches + more;
    }
  }

  /** One line: its matches, and the fence after it when fences are followed. */
  method ReadLine(text: string, fence: Option<Fence>, options: Options, parse: string -> Option<Json.Json>)
    returns (matches: seq<Match>, next: Option<Fence>)
    requires text != ""
    ensures matches == LineMatches(text, fence, options, parse)
    ensures !options.conversation && options.markdown ==>
              next == if FenceMarker(text).Some? then NextFence(fence, FenceMarker(text).value) else fence
  {
    matches, next := [], fence;
    if options.conversation {
      matches := ConversationMatches(text, options.markdown, parse);
      return;
    }
    if options.markdown {
      var marker := FenceMarker(text);
      if marker.Some? {
        next := NextFence(fence, marker.value);
        return;
      }
      if fence.Some? || Indented(text) {
        return;
      }
    }
    var found := MatchDirective(text);
    if found.Some? {
      matches := [found.value];
    }
  }

  /** One raw line: its directives, and the fence after it when fences are followed. */
  method ReadRawLine(raw: seq<byte>, offset: nat, fence: Option<Fence>, options: Options,
      parse: string -> Option<Json.Json>,
                     ghost lines: seq<Line>, ghost i: nat)
    returns (directives: seq<Directive>, next: Option<Fence>)
    requires i < |lines| && Unbroken(lines[i].body) && AllBreaks(lines[i].ending)
    requires raw == EncodedLine(lines[i]) && offset == Offset(lines, i)
    requires !options.conversation && options.markdown ==> fence == FenceAfter(Markers(Bodies(lines)), i)
    ensures directives == FoundAt(lines, i, options, parse)
    ensures !options.conversation && options.markdown ==> next == FenceAfter(Markers(Bodies(lines)), i + 1)
  {
    StrippedIsBody(lines[i]);
    DecodeOfEncode(lines[i].body);
    var body := Stripped(raw);
    if body == [] {
      return [], fence;
    }
    var text := Decode(body).value;
    var matches: seq<Match>;
    matches, next := ReadLine(text, fence, options, parse);
    directives := Located(matches, text, offset);
  }

  method IterDirectives(content: string, options: Options, parse: string -> Option<Json.Json>)
      returns (found: seq<Directive>)
    ensures found == Found(TextLines(content), options, parse)
  {
    found := [];
    var offset := 0;
    var fence: Option<Fence> := None;
    var rawLines := RawLines(Encode(content));
    ghost var lines := TextLines(content);
    ghost var parts := FoundByLine(lines, options, parse);
    RawLinesOfText(content);
    for i := 0 to |rawLines|
      invariant offset == |Flatten(rawLines, i)|
      invariant found == Flatten(parts, i)
      invariant !options.conversation && options.markdown ==> fence == FenceAfter(Markers(Bodies(lines)), i)
    {
      var directives: seq<Directive>;
      directives, fence := ReadRawLine(rawLines[i], offset, fence, options, parse, lines, i);
      found := found + directives;
      offset := offset + |rawLines[i]|;
    }
  }

  // ------------------------------------------------------------------------ main results

  lemma {:induction false} JoinedBytes(lines: seq<Line>)
    ensures Flatten(EncodedLines(lines), |lines|) == Encode(Joined(lines))
  {
    if lines != [] {
      JoinedBytes(lines[1..]);
      JoinedCons(lines[0], lines[1..], lines);
    }
  }

  lemma JoinedCons(first: Line, rest: seq<Line>, lines: seq<Line>)
    requires Flatten(EncodedLines(rest), |rest|) == Encode(Joined(rest)) && lines == [first] + rest
    ensures Flatten(EncodedLines(lines), |lines|) == Encode(Joined(lines))
  {
    FirstOfFlattened(first, rest);
    FirstOfJoined(first, rest);
  }

  lemma FirstOfFlattened(first: Line, rest: seq<Line>)
    ensures Flatten(EncodedLines([first] + rest), |rest| + 1)
         == EncodedLine(first) + Flatten(EncodedLines(rest), |rest|)
  {
    EncodedCons(first, rest);
    FlattenCons(EncodedLine(first), EncodedLines(rest), |rest|);
  }

  lemma FirstOfJoined(first: Line, rest: seq<Line>)
    ensures Encode(Joined([first] + rest)) == EncodedLine(first) + Encode(Joined(rest))
  {
    assert ([first] + rest)[1..] == rest;
    EncodeAppend(first.body + first.ending, Joined(rest));
    EncodeAppend(first.body, first.ending);
  }

  /** The bytes a directive points at are its excerpt. */
  ghost predicate ExcerptMatches(bytes: seq<byte>, d: Directive) {
    d.startByte <= d.endByte <= |bytes| && bytes[d.startByte..d.endByte] == Encode(d.excerpt)
  }

  ghost predicate LiesAt(whole: seq<byte>, start: nat, part: seq<byte>) {
    start + |part| <= |whole| && whole[start..start + |part|] == part
  }

  lemma PartBody(parts: seq<seq<byte>>, i: nat, body: seq<byte>, ending: seq<byte>)
    requires i < |parts| && parts[i] == body + ending
    ensures LiesAt(Flatten(parts, |parts|), |Flatten(parts, i)|, body)
  {
    var whole, start := Flatten(parts, |parts|), |Flatten(parts, i)|;
    PartAt(parts, i, |parts|);
    assert whole[start..start + |body + ending|][..|body|] == whole[start..start + |body|];
  }

  lemma FoundAtIsLocated(lines: seq<Line>, i: nat, options: Options, parse: string -> Option<Json.Json>, d: Directive)
    requires i < |lines| && d in FoundAt(lines, i, options, parse)
    ensures d.startByte == Offset(lines, i) && d.endByte == d.startByte + |Encode(lines[i].body)|
    ensures d.excerpt == lines[i].body
  {}

  lemma LyingMatches(whole: seq<byte>, d: Directive, body: seq<byte>)
    requires LiesAt(whole, d.startByte, body) && d.endByte == d.startByte + |body| && body == Encode(d.excerpt)
    ensures ExcerptMatches(whole, d)
  {}

  /** A line's text lies at its offset. */
  lemma FoundAtMatches(lines: seq<Line>, i: nat, options: Options, parse: string -> Option<Json.Json>, d: Directive,
      parts: seq<seq<byte>>)
    requires i < |lines| && d in FoundAt(lines, i, options, parse) && parts == EncodedLines(lines)
    ensures ExcerptMatches(Flatten(parts, |parts|), d)
  {
    FoundAtIsLocated(lines, i, options, parse, d);
    PartBody(parts, i, Encode(lines[i].body), Encode(lines[i].ending));
    LyingMatches(Flatten(parts, |parts|), d, Encode(lines[i].body));
  }

  lemma EveryExcerptMatches(content: string, options: Options, parse: string -> Option<Json.Json>, d: Directive)
    requires d in Found(TextLines(content), options, parse)
    ensures ExcerptMatches(Encode(content), d)
  {
    var lines := TextLines(content);
    var i := InPart(FoundByLine(lines, options, parse), |lines|, d);
    JoinedBytes(lines);
    FoundAtMatches(lines, i, options, parse, d, EncodedLines(lines));
  }

  /** A directive comes from this line: outside every fence, itself no fence line, not indented. */
  ghost predicate FromOpenText(lines: seq<Line>, i: nat, d: Directive)
    requires i < |lines|
  {
    && d.startByte == Offset(lines, i) && d.excerpt == lines[i].body
    && FenceAfter(Markers(Bodies(lines)), i) == None && FenceMarker(lines[i].body) == None && !Indented(lines[i].body)
  }

  /** Outside conversations no directive in Markdown comes from inside a fence. */
  lemma FoundAtIsOpenText(lines: seq<Line>, i: nat, options: Options, parse: string -> Option<Json.Json>, d: Directive)
    requires i < |lines| && !options.conversation && options.markdown && d in FoundAt(lines, i, options, parse)
    ensures FromOpenText(lines, i, d)
  {
  }

  lemma NoDirectiveInsideFence(lines: seq<Line>, options: Options, parse: string -> Option<Json.Json>, d: Directive)
    requires !options.conversation && options.markdown && d in Found(lines, options, parse)
    ensures exists i: nat :: i < |lines| && FromOpenText(lines, i, d)
  {
    var i := InPart(FoundByLine(lines, options, parse), |lines|, d);
    FoundAtIsOpenText(lines, i, options, parse, d);
  }

  /** Some line opened this fence with none open before, and no line since closes it. */
  ghost predicate OpenSince(markers: seq<Option<Marker>>, n: nat, opener: nat, fence: Fence)
    requires n <= |markers|
  {
    && opener < n && markers[opener].Some? && FenceAfter(markers, opener) == None
    && fence == Fence(markers[opener].value.mark, markers[opener].value.length)
    && forall k :: opener < k < n && markers[k].Some? ==> !Closes(markers[k].value, fence)
  }

  /** What it means for a fence to be open. */
  lemma {:induction false} FenceIsOpenSince(markers: seq<Option<Marker>>, n: nat, fence: Fence)
    requires n <= |markers|
    ensures FenceAfter(markers, n) == Some(fence) <==> exists opener: nat :: OpenSince(markers, n, opener, fence)
  {
    if n > 0 {
      FenceIsOpenSince(markers, n - 1, fence);
      if opener: nat :| OpenSince(markers, n, opener, fence) {
        if opener < n - 1 {
          assert OpenSince(markers, n - 1, opener, fence);
        }
      }
      if FenceAfter(markers, n) == Some(fence) {
        if FenceAfter(markers, n - 1) == Some(fence) {
          var opener: nat :| OpenSince(markers, n - 1, opener, fence);
          assert OpenSince(markers, n, opener, fence);
        } else {
          assert OpenSince(markers, n, n - 1, fence);
        }
      }
    }
  }

  /** The recorded kind is one of the five keywords exactly when the text spells it without the
      dotted capital I and the Kelvin sign, which match but keep their own upper-case form. */
  lemma KindSpelling(text: string, i: nat, keyword: string)
    requires Spells(text, i, keyword)
    ensures Upper(text[i..i + |keyword|]) == keyword <==>
              forall k ::
                  0 <= k < |keyword| && (keyword[k] == 'I' || keyword[k] == 'K') ==>
                  text[i + k] != '\U{0130}' && text[i + k] != '\U{212A}'
  {
    var upper := Upper(text[i..i + |keyword|]);
    assert |upper| == |keyword|;
    forall k | 0 <= k < |keyword|
      ensures upper[k] == UpperChar(text[i + k]) && Letter(text[i + k]) == keyword[k]
    {
    }
    if upper == keyword {
      forall k | 0 <= k < |keyword| && (keyword[k] == 'I' || keyword[k] == 'K')
        ensures text[i + k] != '\U{0130}' && text[i + k] != '\U{212A}'
      {
        assert upper[k] == keyword[k];
      }
    }
  }

  /** A WORK line written with the Kelvin sign is a directive, but not of the kind WORK. */
  lemma KelvinSignIsNotWork()
    ensures MatchDirective("WOR\U{212A}:x").Some? && MatchDirective("WOR\U{212A}:x").value.kind != "WORK"
  {
    var text := "WOR\U{212A}:x";
    assert Spells(text, 0, "WORK");
    KindSpelling(text, 0, "WORK");
    assert text[0 + 3] == '\U{212A}';
  }
}
