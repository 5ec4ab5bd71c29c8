/** JSON documents as the canonical encoder writes them: compact, keys sorted, UTF-8. */
module Json {
  import Utf8

  /** An object lists its members in key order. */
  datatype Json =
    | Null
    | Boolean(b: bool)
    | Number(n: int)
    | Text(text: string)
    | List(items: seq<Json>)
    | Object(members: seq<Member>)

  datatype Member = Member(key: string, value: Json)

  // ------------------------------------------------------------------------ rendering

  function Digit(n: nat): char
    requires n < 16
  {
    "0123456789abcdef"[n]
  }

  function Decimal(n: nat): string {
    if n < 10 then [Digit(n)] else Decimal(n / 10) + [Digit(n % 10)]
  }

  function Escaped(c: char): string {
    if c == '\"' then "\\\""
    else if c == '\\' then "\\\\"
    else if c == '\n' then "\\n"
    else if c == '\r' then "\\r"
    else if c == '\t' then "\\t"
    else if c as int == 8 then "\\b"
    else if c as int == 12 then "\\f"
    else if c as int < 0x20 then "\\u00" + [Digit(c as int / 16), Digit(c as int % 16)]
    else [c]
  }

  function EscapedText(text: string): string {
    if text == "" then "" else EscapedText(text[..|text| - 1]) + Escaped(text[|text| - 1])
  }

  function Render(j: Json): string {
    match j
    case Null => "null"
    case Boolean(b) => if b then "true" else "false"
    case Number(n) => if n < 0 then "-" + Decimal(-n) else Decimal(n)
    case Text(text) => "\"" + EscapedText(text) + "\""
    case List(items) => "[" + RenderItems(items) + "]"
    case Object(members) => "{" + RenderMembers(members) + "}"
  }

  function RenderItems(items: seq<Json>): string {
    if items == [] then ""
    else
      RenderItems(items[..|items| - 1]) + (if |items| == 1 then "" else ",") + Render(items[|items| - 1])
  }

  function RenderMember(m: Member): string {
    "\"" + EscapedText(m.key) + "\":" + Render(m.value)
  }

  function RenderMembers(members: seq<Member>): string {
    if members == [] then ""
    else
      RenderMembers(members[..|members| - 1]) + (if |members| == 1 then "" else ",")
      + RenderMember(members[|members| - 1])
  }

  // --------------------------------------------------------------------- encoded length

  /** The number of decimal digits. */
  function Digits(n: nat): (d: nat)
    ensures d >= 1
  {
    if n < 10 then 1 else Digits(n / 10) + 1
  }

  function CharLength(c: char): nat {
    if Escaped(c) == [c] then |Utf8.EncodeChar(c)| else |Escaped(c)|
  }

  function TextLength(text: string): nat {
    if text == "" then 0 else TextLength(text[..|text| - 1]) + CharLength(text[|text| - 1])
  }

  /** The number of bytes of the canonical encoding, without building it. */
  function Length(j: Json): nat {
    match j
    case Null => 4
    case Boolean(b) => if b then 4 else 5
    case Number(n) => if n < 0 then 1 + Digits(-n) else Digits(n)
    case Text(text) => 2 + TextLength(text)
    case List(items) => 2 + ItemsLength(items)
    case Object(members) => 2 + MembersLength(members)
  }

  function ItemsLength(items: seq<Json>): nat {
    if items == [] then 0
    else ItemsLength(items[..|items| - 1]) + (if |items| == 1 then 0 else 1) + Length(items[|items| - 1])
  }

  function MemberLength(m: Member): nat {
    3 + TextLength(m.key) + Length(m.value)
  }

  function MembersLength(members: seq<Member>): nat {
    if members == [] then 0
    else
      MembersLength(members[..|members| - 1]) + (if |members| == 1 then 0 else 1)
      + MemberLength(members[|members| - 1])
  }

  lemma {:induction false} DecimalLength(n: nat)
    ensures |Utf8.Encode(Decimal(n))| == Digits(n)
  {
    if n >= 10 {
      DecimalLength(n / 10);
      Utf8.EncodeAppend(Decimal(n / 10), [Digit(n % 10)]);
    }
  }

  lemma EscapedLength(c: char)
    ensures |Utf8.Encode(Escaped(c))| == CharLength(c)
  {
    var e := Escaped(c);
    if e == [c] {
      assert e[1..] == "";
      assert Utf8.Encode(e) == Utf8.EncodeChar(c) + Utf8.Encode(e[1..]);
    } else {
      AsciiLength(e);
    }
  }

  lemma {:induction false} AsciiLength(s: string)
    requires forall i :: 0 <= i < |s| ==> s[i] as int < 0x80
    ensures |Utf8.Encode(s)| == |s|
  {
    if s != "" {
      AsciiLength(s[1..]);
    }
  }

  lemma {:induction false} EscapedTextLength(text: string)
    ensures |Utf8.Encode(EscapedText(text))| == TextLength(text)
  {
    if text != "" {
      EscapedTextLength(text[..|text| - 1]);
      EscapedLength(text[|text| - 1]);
      Utf8.EncodeAppend(EscapedText(text[..|text| - 1]), Escaped(text[|text| - 1]));
    }
  }

  /** The arithmetic length is the length of the rendered, encoded document. */
  lemma {:induction false} LengthIsEncodedLength(j: Json)
    ensures Length(j) == |Utf8.Encode(Render(j))|
  {
    match j
    case Null => AsciiLength(Render(j));
    case Boolean(b) => AsciiLength(Render(j));
    case Number(n) => NumberIsEncoded(n);
    case Text(text) =>
      EscapedTextLength(text);
      Enclosed("\"", EscapedText(text), "\"");
    case List(items) =>
      ItemsLengthIsEncoded(items);
      Enclosed("[", RenderItems(items), "]");
    case Object(members) =>
      MembersLengthIsEncoded(members);
      Enclosed("{", RenderMembers(members), "}");
  }

  lemma NumberIsEncoded(n: int)
    ensures Length(Number(n)) == |Utf8.Encode(Render(Number(n)))|
  {
    if n < 0 {
      DecimalLength(-n);
      AsciiLength("-");
      Utf8.EncodeAppend("-", Decimal(-n));
    } else {
      DecimalLength(n);
    }
  }

  lemma Enclosed(before: string, body: string, after: string)
    requires forall i :: 0 <= i < |before| ==> before[i] as int < 0x80
    requires forall i :: 0 <= i < |after| ==> after[i] as int < 0x80
    ensures |Utf8.Encode(before + body + after)| == |before| + |Utf8.Encode(body)| + |after|
  {
    AsciiLength(before);
    AsciiLength(after);
    Utf8.EncodeAppend(before + body, after);
    Utf8.EncodeAppend(before, body);
  }

  lemma Separated(before: string, first: bool, last: string)
    ensures |Utf8.Encode(before + (if first then "" else ",") + last)|
         == |Utf8.Encode(before)| + (if first then 0 else 1) + |Utf8.Encode(last)|
  {
    var comma := if first then "" else ",";
    AsciiLength(comma);
    Utf8.EncodeAppend(before + comma, last);
    Utf8.EncodeAppend(before, comma);
  }

  lemma {:induction false} ItemsLengthIsEncoded(items: seq<Json>)
    ensures ItemsLength(items) == |Utf8.Encode(RenderItems(items))|
  {
    if items != [] {
      var front, last := items[..|items| - 1], items[|items| - 1];
      ItemsLengthIsEncoded(front);
      LengthIsEncodedLength(last);
      Separated(RenderItems(front), |items| == 1, Render(last));
    }
  }

  lemma MemberIsEncoded(m: Member)
    requires Length(m.value) == |Utf8.Encode(Render(m.value))|
    ensures MemberLength(m) == |Utf8.Encode(RenderMember(m))|
  {
    EscapedTextLength(m.key);
    Enclosed("\"", EscapedText(m.key), "\":");
    Utf8.EncodeAppend("\"" + EscapedText(m.key) + "\":", Render(m.value));
  }

  lemma {:induction false} MembersLengthIsEncoded(members: seq<Member>)
    ensures MembersLength(members) == |Utf8.Encode(RenderMembers(members))|
  {
    if members != [] {
      var front, last := members[..|members| - 1], members[|members| - 1];
      MembersLengthIsEncoded(front);
      LengthIsEncodedLength(last.value);
      MemberIsEncoded(last);
      Separated(RenderMembers(front), |members| == 1, RenderMember(last));
    }
  }

  // ----------------------------------------------------------------- reading and writing

  function IndexFrom(members: seq<Member>, key: string, n: nat): (i: nat)
    requires n <= |members|
    ensures n <= i <= |members|
    ensures i < |members| ==> members[i].key == key
    ensures forall k :: n <= k < i ==> members[k].key != key
    decreases |members| - n
  {
    if n == |members| || members[n].key == key then n else IndexFrom(members, key, n + 1)
  }

  function IndexOf(members: seq<Member>, key: string): nat {
    IndexFrom(members, key, 0)
  }

  lemma FirstIndex(members: seq<Member>, i: nat, key: string)
    requires i < |members| && members[i].key == key && forall k :: 0 <= k < i ==> members[k].key != key
    ensures IndexOf(members, key) == i
  {
  }

  predicate Has(o: Json, key: string) {
    o.Object? && IndexOf(o.members, key) < |o.members|
  }

  function Get(o: Json, key: string): Json
    requires Has(o, key)
  {
    o.members[IndexOf(o.members, key)].value
  }

  /** `o[key] = value` for a key the object already has. */
  function Set(o: Json, key: string, value: Json): (r: Json)
    requires Has(o, key)
    ensures r.Object? && |r.members| == |o.members|
  {
    Object(o.members[IndexOf(o.members, key) := Member(key, value)])
  }

  lemma SameKeys(a: seq<Member>, b: seq<Member>, key: string)
    requires |a| == |b| && forall i :: 0 <= i < |a| ==> a[i].key == b[i].key
    ensures IndexOf(a, key) == IndexOf(b, key)
  {
  }

  lemma SetIndex(o: Json, key: string, value: Json, other: string)
    requires Has(o, key)
    ensures IndexOf(Set(o, key, value).members, other) == IndexOf(o.members, other)
  {
    SameKeys(o.members, Set(o, key, value).members, other);
  }

  lemma GetSet(o: Json, key: string, value: Json, other: string)
    requires Has(o, key)
    ensures Has(Set(o, key, value), other) <==> Has(o, other)
    ensures Has(o, other) ==>
              Get(Set(o, key, value), other) == if other == key then value else Get(o, other)
  {
    SameKeys(o.members, Set(o, key, value).members, other);
  }

  lemma SetSet(o: Json, key: string, first: Json, second: Json)
    requires Has(o, key)
    ensures Has(Set(o, key, first), key) && Set(Set(o, key, first), key, second) == Set(o, key, second)
  {
    SameKeys(o.members, Set(o, key, first).members, key);
  }

  lemma SetGet(o: Json, key: string)
    requires Has(o, key)
    ensures Set(o, key, Get(o, key)) == o
  {
  }

  lemma {:induction false} MembersLengthUpdate(members: seq<Member>, i: nat, value: Json)
    requires i < |members|
    ensures MembersLength(members[i := Member(members[i].key, value)]) + Length(members[i].value)
         == MembersLength(members) + Length(value)
    decreases |members|
  {
    var last := |members| - 1;
    var updated := members[i := Member(members[i].key, value)];
    if i < last {
      assert updated[..last] == members[..last][i := Member(members[i].key, value)];
      MembersLengthUpdate(members[..last], i, value);
    } else {
      assert updated[..last] == members[..last];
    }
  }

  lemma {:induction false} MemberLengthWithin(members: seq<Member>, i: nat)
    requires i < |members|
    ensures MembersLength(members) >= MemberLength(members[i])
    decreases |members|
  {
    if i < |members| - 1 {
      MemberLengthWithin(members[..|members| - 1], i);
    }
  }

  /** Assigning a member changes the length by exactly the change in that member. */
  lemma SetLength(o: Json, key: string, value: Json)
    requires Has(o, key)
    ensures Length(Set(o, key, value)) + Length(Get(o, key)) == Length(o) + Length(value)
    ensures Length(o) >= 5 + TextLength(key) + Length(Get(o, key))
  {
    MembersLengthUpdate(o.members, IndexOf(o.members, key), value);
    MemberLengthWithin(o.members, IndexOf(o.members, key));
  }

  lemma {:induction false} TextLengthAtLeast(text: string)
    ensures TextLength(text) >= |text|
  {
    if text != "" {
      TextLengthAtLeast(text[..|text| - 1]);
    }
  }

  /** Printable ASCII other than the quote and the backslash needs no escape. */
  lemma {:induction false} PlainTextLength(text: string)
    requires forall i :: 0 <= i < |text| ==> 0x20 <= text[i] as int < 0x7F && text[i] != '\"' && text[i] != '\\'
    ensures TextLength(text) == |text|
  {
    if text != "" {
      PlainTextLength(text[..|text| - 1]);
    }
  }

  lemma {:induction false} TextLengthAppend(a: string, b: string)
    ensures TextLength(a + b) == TextLength(a) + TextLength(b)
  {
    if b == "" {
      assert a + b == a;
    } else {
      assert (a + b)[..|a + b| - 1] == a + b[..|b| - 1];
      TextLengthAppend(a, b[..|b| - 1]);
    }
  }

  // ---------------------------------------------------------------------------- digits

  lemma {:induction false} DigitsMonotone(a: nat, b: nat)
    requires a <= b
    ensures Digits(a) <= Digits(b)
  {
    if a >= 10 {
      DigitsMonotone(a / 10, b / 10);
    }
  }

  /** A number less than ten times as large has at most one more digit. */
  lemma DigitsStep(a: nat, b: nat)
    requires b <= 10 * a + 9
    ensures Digits(b) <= Digits(a) + 1
  {
    if b >= 10 {
      DigitsMonotone(b / 10, a);
    }
  }

  lemma {:induction false} DigitsSmall(n: nat)
    ensures Digits(n) <= n + 1
    ensures n >= 10 ==> 2 * Digits(n) <= n
  {
    if n >= 10 {
      DigitsSmall(n / 10);
    }
  }
}
