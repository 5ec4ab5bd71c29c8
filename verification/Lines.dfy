/** Splitting a document into lines: on encoded bytes, as the extractor does it, and on text. */
module Lines {
  import opened Sequences
  import opened Utf8

  predicate IsBreakByte(b: byte) {
    b == 10 || b == 13
  }

  function BodyLength(bytes: seq<byte>): (n: nat)
    ensures n <= |bytes|
    ensures forall k :: 0 <= k < n ==> !IsBreakByte(bytes[k])
    ensures n < |bytes| ==> IsBreakByte(bytes[n])
  {
    if bytes == [] || IsBreakByte(bytes[0]) then 0
    else
      var n := BodyLength(bytes[1..]);
      assert forall k :: 1 <= k < n + 1 ==> bytes[k] == bytes[1..][k - 1];
      n + 1
  }

  /** A carriage return and the line feed after it end one line together. */
  function RawLineLength(bytes: seq<byte>): (n: nat)
    requires bytes != []
    ensures 1 <= n <= |bytes|
  {
    var body := BodyLength(bytes);
    body + EndLength(bytes[body..])
  }

  /** The length of the line end that starts here, if any. */
  function EndLength(bytes: seq<byte>): (n: nat)
    ensures n <= |bytes|
    ensures bytes != [] ==> n >= 1
  {
    if bytes == [] then 0 else if |bytes| >= 2 && bytes[0] == 13 && bytes[1] == 10 then 2 else 1
  }

  /** The lines of a byte string with their ends. */
  function RawLines(bytes: seq<byte>): seq<seq<byte>> {
    if bytes == [] then []
    else [bytes[..RawLineLength(bytes)]] + RawLines(bytes[RawLineLength(bytes)..])
  }

  /** A line without its end. */
  function Stripped(line: seq<byte>): seq<byte> {
    if line != [] && IsBreakByte(line[|line| - 1]) then Stripped(line[..|line| - 1]) else line
  }

  // ---------------------------------------------------------------------------- on text

  predicate IsBreak(c: char) {
    c == '\n' || c == '\r'
  }

  predicate Unbroken(text: string) {
    forall i :: 0 <= i < |text| ==> !IsBreak(text[i])
  }

  predicate AllBreaks(text: string) {
    forall i :: 0 <= i < |text| ==> IsBreak(text[i])
  }

  datatype Line = Line(body: string, ending: string)

  function BodyChars(text: string): (n: nat)
    ensures n <= |text| && Unbroken(text[..n])
    ensures n < |text| ==> IsBreak(text[n])
  {
    if text == "" || IsBreak(text[0]) then 0
    else
      var n := BodyChars(text[1..]);
      assert forall k :: 1 <= k < n + 1 ==> text[k] == text[1..][..n][k - 1];
      n + 1
  }

  /** The line end a text starts with, if any. */
  function Ending(text: string): (ending: string)
    ensures ending <= text && AllBreaks(ending)
    ensures text != "" && IsBreak(text[0]) ==> ending != ""
  {
    if text == "" || !IsBreak(text[0]) then ""
    else if |text| >= 2 && text[0] == '\r' && text[1] == '\n' then "\r\n"
    else [text[0]]
  }

  function FirstLine(text: string): (line: Line)
    requires text != ""
    ensures line.body + line.ending <= text && line.body + line.ending != ""
    ensures Unbroken(line.body) && AllBreaks(line.ending)
  {
    var n := BodyChars(text);
    var ending := Ending(text[n..]);
    assert text == text[..n] + text[n..];
    assert text[n..] == ending + text[n..][|ending|..];
    Line(text[..n], ending)
  }

  /** The lines of a text: together they are the text, and no body holds a line end. */
  function TextLines(text: string): (lines: seq<Line>)
    ensures Joined(lines) == text
    ensures forall i :: 0 <= i < |lines| ==> Unbroken(lines[i].body) && AllBreaks(lines[i].ending)
  {
    if text == "" then []
    else
      var first := FirstLine(text);
      var n := |first.body| + |first.ending|;
      assert text == (first.body + first.ending) + text[n..];
      [first] + TextLines(text[n..])
  }

  function Joined(lines: seq<Line>): string {
    if lines == [] then "" else lines[0].body + lines[0].ending + Joined(lines[1..])
  }

  // ------------------------------------------------------------------- bytes against text

  function EncodedLine(line: Line): seq<byte> {
    Encode(line.body) + Encode(line.ending)
  }

  function EncodedLines(lines: seq<Line>): (r: seq<seq<byte>>)
    ensures |r| == |lines| && forall i :: 0 <= i < |r| ==> r[i] == EncodedLine(lines[i])
  {
    seq(|lines|, i requires 0 <= i < |lines| => EncodedLine(lines[i]))
  }

  lemma {:induction false} UnbrokenBytes(text: string)
    requires Unbroken(text)
    ensures forall k :: 0 <= k < |Encode(text)| ==> !IsBreakByte(Encode(text)[k])
  {
    if text != "" {
      assert !IsBreak(text[0]);
      UnbrokenBytes(text[1..]);
      assert text[0] as int != 10 && text[0] as int != 13;
    }
  }

  lemma BodyLengthAt(body: seq<byte>, rest: seq<byte>)
    requires forall k :: 0 <= k < |body| ==> !IsBreakByte(body[k])
    requires rest != [] ==> IsBreakByte(rest[0])
    ensures BodyLength(body + rest) == |body|
  {
    var all := body + rest;
    assert forall k :: 0 <= k < |body| ==> all[k] == body[k];
    assert rest != [] ==> all[|body|] == rest[0];
  }

  lemma EncodedEnding(text: string)
    requires text != "" ==> IsBreak(text[0])
    ensures EndLength(Encode(text)) == |Encode(Ending(text))|
    ensures Encode(text) == Encode(Ending(text)) + Encode(text[|Ending(text)|..])
  {
    assert text == Ending(text) + text[|Ending(text)|..];
    EncodeAppend(Ending(text), text[|Ending(text)|..]);
    if text != "" {
      assert [text[0]][1..] == "";
      if |text| >= 2 {
        var rest := Encode(text[1..]);
        assert rest[0] == EncodeChar(text[1])[0];
        assert rest[0] == 10 <==> text[1] == '\n';
        if text[0] == '\r' && text[1] == '\n' {
          assert "\r\n"[1..] == "\n";
          assert "\n"[1..] == "";
        }
      }
    }
  }

  /** Splitting the encoded text at the first line end gives the encoded first line. */
  lemma FirstRawLine(text: string)
    requires text != ""
    ensures
      var first := FirstLine(text);
      var n := |first.body| + |first.ending|;
      && Encode(text) == EncodedLine(first) + Encode(text[n..])
      && RawLineLength(Encode(text)) == |EncodedLine(first)|
  {
    var first, q := FirstLine(text), BodyChars(text);
    var rest := text[q..];
    var tail := text[q + |first.ending|..];
    assert tail == rest[|first.ending|..];
    EncodedBody(text, q);
    EncodedEnding(rest);
    RawLineAt(Encode(first.body), Encode(rest), Encode(first.ending), Encode(tail));
    Reassociate(Encode(first.body), Encode(first.ending), Encode(tail));
  }

  lemma EncodedBody(text: string, q: nat)
    requires q == BodyChars(text)
    ensures Encode(text) == Encode(text[..q]) + Encode(text[q..])
    ensures forall k :: 0 <= k < |Encode(text[..q])| ==> !IsBreakByte(Encode(text[..q])[k])
    ensures text[q..] != "" ==> IsBreakByte(Encode(text[q..])[0])
  {
    assert text == text[..q] + text[q..];
    EncodeAppend(text[..q], text[q..]);
    UnbrokenBytes(text[..q]);
  }

  lemma RawLineAt(body: seq<byte>, after: seq<byte>, ending: seq<byte>, rest: seq<byte>)
    requires forall k :: 0 <= k < |body| ==> !IsBreakByte(body[k])
    requires after != [] ==> IsBreakByte(after[0])
    requires after == ending + rest && EndLength(after) == |ending| && body + after != []
    ensures body + after == body + ending + rest
    ensures RawLineLength(body + after) == |body + ending|
  {
    BodyLengthAt(body, after);
    assert (body + after)[|body|..] == after;
  }

  /** The byte lines of an encoded text are its encoded lines. */
  lemma {:induction false} RawLinesOfText(text: string)
    ensures RawLines(Encode(text)) == EncodedLines(TextLines(text))
    decreases |text|
  {
    if text != "" {
      var first := FirstLine(text);
      var n := |first.body| + |first.ending|;
      var line, rest := EncodedLine(first), text[n..];
      FirstRawLine(text);
      assert Encode(text) == line + Encode(rest);
      RawLinesOfText(rest);
      FirstRawSplit(line, Encode(rest));
      EncodedCons(first, TextLines(rest));
    }
  }

  lemma FirstRawSplit(line: seq<byte>, rest: seq<byte>)
    requires line + rest != [] && RawLineLength(line + rest) == |line|
    ensures RawLines(line + rest) == [line] + RawLines(rest)
  {
    assert (line + rest)[..|line|] == line && (line + rest)[|line|..] == rest;
  }

  lemma EncodedCons(first: Line, rest: seq<Line>)
    ensures EncodedLines([first] + rest) == [EncodedLine(first)] + EncodedLines(rest)
  {
  }

  lemma {:induction false} StrippedLine(body: seq<byte>, ending: seq<byte>)
    requires forall k :: 0 <= k < |body| ==> !IsBreakByte(body[k])
    requires forall k :: 0 <= k < |ending| ==> IsBreakByte(ending[k])
    ensures Stripped(body + ending) == body
  {
    if ending != [] {
      assert (body + ending)[..|body + ending| - 1] == body + ending[..|ending| - 1];
      StrippedLine(body, ending[..|ending| - 1]);
    } else {
      assert body + ending == body;
    }
  }

  lemma {:induction false} BreakBytes(text: string)
    requires AllBreaks(text)
    ensures forall k :: 0 <= k < |Encode(text)| ==> IsBreakByte(Encode(text)[k])
  {
    if text != "" {
      BreakBytes(text[1..]);
    }
  }

  lemma StrippedIsBody(line: Line)
    requires Unbroken(line.body) && AllBreaks(line.ending)
    ensures Stripped(EncodedLine(line)) == Encode(line.body)
  {
    UnbrokenBytes(line.body);
    BreakBytes(line.ending);
    StrippedLine(Encode(line.body), Encode(line.ending));
  }
}
