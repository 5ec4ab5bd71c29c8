/** Rendered documents can be read back, so no rendered object is the beginning of another, and
    texts that continue different objects are ordered as the objects are. */
module JsonOrder {
  import opened Json
  import opened Sequences
  import opened TextRules

  predicate IsDigit(c: char) {
    '0' <= c <= '9'
  }

  /** Nothing that could still belong to a number. */
  predicate Stops(rest: string) {
    rest == "" || !IsDigit(rest[0])
  }

  // ------------------------------------------------------------------------- numbers

  lemma {:induction false} DecimalDigits(n: nat)
    ensures |Decimal(n)| > 0 && forall i :: 0 <= i < |Decimal(n)| ==> IsDigit(Decimal(n)[i])
  {
    if n >= 10 {
      DecimalDigits(n / 10);
    }
  }

  lemma DigitReadBack(m: nat, n: nat)
    requires m < 16 && n < 16 && Digit(m) == Digit(n)
    ensures m == n
  {
  }

  lemma DecimalLast(n: nat)
    requires n >= 10
    ensures Decimal(n)[|Decimal(n)| - 1] == Digit(n % 10) && Decimal(n)[..|Decimal(n)| - 1] == Decimal(n / 10)
  {
  }

  lemma DecimalSize(n: nat)
    ensures |Decimal(n)| == 1 <==> n < 10
  {
    DecimalDigits(n / 10);
  }

  lemma {:induction false} DecimalReadBack(m: nat, n: nat)
    requires Decimal(m) == Decimal(n)
    ensures m == n
    decreases m
  {
    DecimalSize(m);
    DecimalSize(n);
    if m >= 10 && n >= 10 {
      DecimalLast(m);
      DecimalLast(n);
      DigitReadBack(m % 10, n % 10);
      DecimalReadBack(m / 10, n / 10);
    } else if m < 10 && n < 10 {
      DigitReadBack(m, n);
    }
  }

  /** Where a run of digits is followed by something else, no longer run begins the same. */
  lemma NoShorterRun(a: string, b: string, s: string, t: string)
    requires a + s == b + t && Stops(s) && forall i :: 0 <= i < |b| ==> IsDigit(b[i])
    ensures |b| <= |a|
  {
    var whole := a + s;
    assert whole[|a|..] == s && whole[..|b|] == b;
    assert s != "" ==> whole[|a|] == s[0];
    assert forall i :: 0 <= i < |b| ==> whole[i] == b[i];
  }

  /** Runs of digits that are followed by something else end at the same place. */
  lemma SameRun(a: string, b: string, s: string, t: string)
    requires a + s == b + t && Stops(s) && Stops(t)
    requires (forall i :: 0 <= i < |a| ==> IsDigit(a[i])) && (forall i :: 0 <= i < |b| ==> IsDigit(b[i]))
    ensures a == b && s == t
  {
    NoShorterRun(a, b, s, t);
    NoShorterRun(b, a, t, s);
    assert (a + s)[..|a|] == a && (b + t)[..|b|] == b && (a + s)[|a|..] == s && (b + t)[|b|..] == t;
  }

  function Sign(n: int): string {
    if n < 0 then "-" else ""
  }

  function Size(n: int): nat {
    if n < 0 then -n else n
  }

  lemma NumberReadBack(m: int, n: int, s: string, t: string)
    requires Sign(m) + Decimal(Size(m)) + s == Sign(n) + Decimal(Size(n)) + t && Stops(s) && Stops(t)
    ensures m == n && s == t
  {
    var a, b := Decimal(Size(m)), Decimal(Size(n));
    DecimalDigits(Size(m));
    DecimalDigits(Size(n));
    SameSign(Sign(m), Sign(n), a, b, s, t);
    SameRun(a, b, s, t);
    DecimalReadBack(Size(m), Size(n));
  }

  lemma SameSign(x: string, y: string, a: string, b: string, s: string, t: string)
    requires x + a + s == y + b + t && a != "" && b != "" && IsDigit(a[0]) && IsDigit(b[0])
    requires (x == "" || x == "-") && (y == "" || y == "-")
    ensures x == y && a + s == b + t
  {
    assert (x + a + s)[0] == if x == "" then a[0] else '-';
    assert (y + b + t)[0] == if y == "" then b[0] else '-';
    assert (x + a + s)[|x|..] == a + s && (y + b + t)[|y|..] == b + t;
  }

  // --------------------------------------------------------------------------- texts

  lemma EscapedShape(c: char)
    ensures |Escaped(c)| == 1 || |Escaped(c)| == 2 || |Escaped(c)| == 6
    ensures Escaped(c)[0] != '\"'
    ensures |Escaped(c)| == 1 ==> Escaped(c)[0] == c && c != '\\'
    ensures |Escaped(c)| > 1 ==> Escaped(c)[0] == '\\'
    ensures |Escaped(c)| > 1 ==> (Escaped(c)[1] == 'u' <==> |Escaped(c)| == 6)
  {
  }

  lemma EscapedReadBack(c: char, d: char)
    requires Escaped(c) == Escaped(d)
    ensures c == d
  {
    if c as int < 0x20 && d as int < 0x20 && |Escaped(c)| == 6 {
      assert Escaped(c)[4] == Digit(c as int / 16) && Escaped(c)[5] == Digit(c as int % 16);
      assert Escaped(d)[4] == Digit(d as int / 16) && Escaped(d)[5] == Digit(d as int % 16);
      DigitReadBack(c as int / 16, d as int / 16);
      DigitReadBack(c as int % 16, d as int % 16);
    } else if |Escaped(c)| == 2 {
      assert Escaped(c)[1] == Escaped(d)[1];
    } else if |Escaped(c)| == 1 {
      assert Escaped(c)[0] == Escaped(d)[0];
    }
  }

  /** The beginning of a text that starts with an escape tells how long the escape is. */
  lemma EscapeReadBack(c: char, d: char, s: string, t: string)
    requires Escaped(c) + s == Escaped(d) + t
    ensures c == d && s == t
  {
    var e, f := Escaped(c), Escaped(d);
    EscapedShape(c);
    EscapedShape(d);
    assert e[0] == (e + s)[0] == (f + t)[0] == f[0];
    if |e| > 1 && |f| > 1 {
      assert e[1] == (e + s)[1] == (f + t)[1] == f[1];
    }
    assert e == (e + s)[..|e|] && f == (f + t)[..|f|];
    EscapedReadBack(c, d);
    assert s == (e + s)[|e|..] && t == (f + t)[|f|..];
  }

  lemma {:induction false} EscapedTextAppend(a: string, b: string)
    ensures EscapedText(a + b) == EscapedText(a) + EscapedText(b)
  {
    if b == "" {
      assert a + b == a;
    } else {
      var n := |b| - 1;
      EscapedTextAppend(a, b[..n]);
      assert (a + b)[..|a + b| - 1] == a + b[..n] && (a + b)[|a + b| - 1] == b[n];
      Reassociate(EscapedText(a), EscapedText(b[..n]), Escaped(b[n]));
    }
  }

  lemma EscapedTextCons(text: string)
    requires text != ""
    ensures EscapedText(text) == Escaped(text[0]) + EscapedText(text[1..])
  {
    EscapedTextAppend([text[0]], text[1..]);
    EscapedOne(text[0]);
    assert [text[0]] + text[1..] == text;
  }

  lemma EscapedOne(c: char)
    ensures EscapedText([c]) == Escaped(c)
  {
    assert [c][..0] == "";
    assert "" + Escaped(c) == Escaped(c);
  }

  lemma {:induction false} TextReadBack(a: string, b: string, s: string, t: string)
    requires EscapedText(a) + ("\"" + s) == EscapedText(b) + ("\"" + t)
    ensures a == b && s == t
  {
    if a == "" && b == "" {
      assert "" + ("\"" + s) == "\"" + s && "" + ("\"" + t) == "\"" + t;
      assert s == ("\"" + s)[1..] && t == ("\"" + t)[1..];
    } else if a == "" {
      QuoteStartsNoText(b, s, t);
    } else if b == "" {
      QuoteStartsNoText(a, t, s);
    } else {
      EscapedTextCons(a);
      EscapedTextCons(b);
      Reassociate(Escaped(a[0]), EscapedText(a[1..]), "\"" + s);
      Reassociate(Escaped(b[0]), EscapedText(b[1..]), "\"" + t);
      EscapeReadBack(a[0], b[0], EscapedText(a[1..]) + ("\"" + s), EscapedText(b[1..]) + ("\"" + t));
      TextReadBack(a[1..], b[1..], s, t);
      assert a == [a[0]] + a[1..] && b == [b[0]] + b[1..];
    }
  }

  lemma QuoteStartsNoText(b: string, s: string, t: string)
    requires b != ""
    ensures EscapedText("") + ("\"" + s) != EscapedText(b) + ("\"" + t)
  {
    EscapedTextCons(b);
    EscapedShape(b[0]);
    assert (EscapedText("") + ("\"" + s))[0] == '\"';
    assert (EscapedText(b) + ("\"" + t))[0] == Escaped(b[0])[0];
  }

  // ----------------------------------------------------------------------- documents

  /** The first character tells what kind of document follows. */
  predicate Starts(j: Json, c: char) {
    match j
    case Null => c == 'n'
    case Boolean(b) => c == if b then 't' else 'f'
    case Number(_) => c == '-' || IsDigit(c)
    case Text(_) => c == '\"'
    case List(_) => c == '['
    case Object(_) => c == '{'
  }

  lemma StartOfText(j: Json)
    ensures Render(j) != "" && Starts(j, Render(j)[0])
  {
    if j.Number? {
      DecimalDigits(Size(j.n));
    }
  }

  lemma SameKind(j: Json, k: Json, s: string, t: string)
    requires Render(j) + s == Render(k) + t
    ensures j.Null? <==> k.Null?
    ensures j.Boolean? <==> k.Boolean?
    ensures j.Number? <==> k.Number?
    ensures j.Text? <==> k.Text?
    ensures j.List? <==> k.List?
    ensures j.Boolean? ==> j.b == k.b
  {
    StartOfText(j);
    StartOfText(k);
    assert Render(j)[0] == (Render(j) + s)[0] == (Render(k) + t)[0] == Render(k)[0];
  }

  // -------------------------------------------------------------------- comma-joined parts

  function Joined(parts: seq<string>): string {
    if parts == [] then ""
    else Joined(parts[..|parts| - 1]) + (if |parts| == 1 then "" else ",") + parts[|parts| - 1]
  }

  /** What follows the first part. */
  function Tail(parts: seq<string>): string
    requires parts != []
  {
    if |parts| == 1 then "" else "," + Joined(parts[1..])
  }

  lemma JoinedOne(part: string)
    ensures Joined([part]) == part
  {
    assert [part][..0] == [];
    assert "" + "" + part == part;
  }

  lemma Regrouped(head: string, middle: string, last: string)
    ensures (head + ("," + middle)) + "," + last == head + ("," + (middle + "," + last))
    ensures (head + "") + "," + last == head + ("," + last)
  {}

  lemma {:induction false} JoinedCons(parts: seq<string>)
    requires parts != []
    ensures Joined(parts) == parts[0] + Tail(parts)
  {
    var n := |parts| - 1;
    if n == 0 {
      assert parts == [parts[0]];
      JoinedOne(parts[0]);
    } else {
      var front, later := parts[..n], parts[1..];
      JoinedCons(front);
      assert front[0] == parts[0] && later[n - 1] == parts[n] && later[..n - 1] == front[1..];
      Regrouped(parts[0], Joined(front[1..]), parts[n]);
      if n == 1 {
        assert later == [parts[1]];
        JoinedOne(parts[1]);
      } else {
        assert Joined(later) == Joined(front[1..]) + "," + parts[n];
      }
    }
  }

  function Items(items: seq<Json>): (parts: seq<string>)
    ensures |parts| == |items| && forall i :: 0 <= i < |items| ==> parts[i] == Render(items[i])
  {
    if items == [] then [] else Items(items[..|items| - 1]) + [Render(items[|items| - 1])]
  }

  function Members(members: seq<Member>): (parts: seq<string>)
    ensures |parts| == |members| && forall i :: 0 <= i < |members| ==> parts[i] == RenderMember(members[i])
  {
    if members == [] then [] else Members(members[..|members| - 1]) + [RenderMember(members[|members| - 1])]
  }

  lemma {:induction false} ItemsAreJoined(items: seq<Json>)
    ensures RenderItems(items) == Joined(Items(items))
  {
    if items != [] {
      ItemsAreJoined(items[..|items| - 1]);
    }
  }

  lemma {:induction false} MembersAreJoined(members: seq<Member>)
    ensures RenderMembers(members) == Joined(Members(members))
  {
    if members != [] {
      MembersAreJoined(members[..|members| - 1]);
    }
  }

  predicate Closes(close: string) {
    close == "]" || close == "}"
  }

  /** Where the first part ends, no number goes on. */
  lemma TailStops(parts: seq<string>, close: string, s: string)
    requires parts != [] && Closes(close)
    ensures Stops(Tail(parts) + (close + s))
  {
    assert (Tail(parts) + (close + s))[0] == if |parts| == 1 then close[0] else ',';
  }

  lemma Strip(before: string, x: string, y: string)
    requires before + x == before + y
    ensures x == y
  {
    assert x == (before + x)[|before|..] && y == (before + y)[|before|..];
  }

  lemma SameTail(p: seq<string>, q: seq<string>, close: string, s: string, t: string)
    requires p != [] && q != [] && Closes(close) && Tail(p) + (close + s) == Tail(q) + (close + t)
    ensures |p| == 1 <==> |q| == 1
    ensures |p| == 1 ==> s == t
    ensures |p| > 1 ==> Joined(p[1..]) + (close + s) == Joined(q[1..]) + (close + t)
  {
    assert (Tail(p) + (close + s))[0] == if |p| == 1 then close[0] else ',';
    assert (Tail(q) + (close + t))[0] == if |q| == 1 then close[0] else ',';
    if |p| == 1 {
      assert "" + (close + s) == close + s && "" + (close + t) == close + t;
      Strip(close, s, t);
    } else {
      Reassociate(",", Joined(p[1..]), close + s);
      Reassociate(",", Joined(q[1..]), close + t);
      Strip(",", Joined(p[1..]) + (close + s), Joined(q[1..]) + (close + t));
    }
  }

  /** Nothing that starts with a part starts with a closing bracket. */
  lemma ClosesNoPart(parts: seq<string>, close: string, s: string, t: string)
    requires parts != [] && Closes(close) && parts[0] != "" && parts[0][0] != close[0]
    ensures "" + (close + s) != Joined(parts) + (close + t)
  {
    JoinedCons(parts);
    assert ("" + (close + s))[0] == close[0];
    assert (Joined(parts) + (close + t))[0] == parts[0][0];
  }

  // ------------------------------------------------------------------------ reading back

  lemma Bracketed(open: string, x: string, y: string, close: string, s: string, t: string)
    requires |open| == 1 && open + x + close + s == open + y + close + t
    ensures x + (close + s) == y + (close + t)
  {
    assert open + x + close + s == open + (x + (close + s));
    assert open + y + close + t == open + (y + (close + t));
    assert (open + (x + (close + s)))[1..] == x + (close + s);
    assert (open + (y + (close + t)))[1..] == y + (close + t);
  }

  /** Two rendered documents, each followed by something that cannot belong to it, are the same
      document followed by the same thing. */
  lemma {:induction false} ReadBack(j: Json, k: Json, s: string, t: string)
    requires Render(j) + s == Render(k) + t && (j.Number? ==> Stops(s) && Stops(t))
    ensures j == k && s == t
    decreases j
  {
    SameKind(j, k, s, t);
    match j
    case Null =>
      Strip("null", s, t);
    case Boolean(b) =>
      Strip(Render(j), s, t);
    case Number(n) =>
      assert Render(j) == Sign(n) + Decimal(Size(n)) && Render(k) == Sign(k.n) + Decimal(Size(k.n));
      NumberReadBack(n, k.n, s, t);
    case Text(text) =>
      Bracketed("\"", EscapedText(text), EscapedText(k.text), "\"", s, t);
      TextReadBack(text, k.text, s, t);
    case List(items) =>
      Bracketed("[", RenderItems(items), RenderItems(k.items), "]", s, t);
      ItemsAreJoined(items);
      ItemsAreJoined(k.items);
      ItemsReadBack(items, k.items, s, t);
    case Object(members) =>
      Bracketed("{", RenderMembers(members), RenderMembers(k.members), "}", s, t);
      MembersAreJoined(members);
      MembersAreJoined(k.members);
      MembersReadBack(members, k.members, s, t);
  }

  /** Joined parts begin alike only if both or neither are empty, and then with the first parts. */
  lemma SamePart(p: seq<string>, q: seq<string>, close: string, s: string, t: string)
    requires Closes(close) && Joined(p) + (close + s) == Joined(q) + (close + t)
    requires (p != [] ==> p[0] != "" && p[0][0] != close[0]) && (q != [] ==> q[0] != "" && q[0][0] != close[0])
    ensures p == [] <==> q == []
    ensures p == [] ==> s == t
    ensures p != [] ==> p[0] + (Tail(p) + (close + s)) == q[0] + (Tail(q) + (close + t))
    ensures p != [] ==> Stops(Tail(p) + (close + s)) && Stops(Tail(q) + (close + t))
  {
    if p == [] && q == [] {
      assert "" + (close + s) == close + s && "" + (close + t) == close + t;
      Strip(close, s, t);
    } else if p == [] {
      ClosesNoPart(q, close, s, t);
    } else if q == [] {
      ClosesNoPart(p, close, t, s);
    } else {
      JoinedCons(p);
      JoinedCons(q);
      Reassociate(p[0], Tail(p), close + s);
      Reassociate(q[0], Tail(q), close + t);
      TailStops(p, close, s);
      TailStops(q, close, t);
    }
  }

  lemma ItemsOpen(items: seq<Json>)
    ensures items != [] ==> Items(items)[0] != "" && Items(items)[0][0] != ']' && Items(items)[1..] == Items(items[1..])
  {
    if items != [] {
      StartOfText(items[0]);
    }
  }

  lemma SameCons<T>(a: seq<T>, b: seq<T>)
    requires a != [] && b != [] && a[0] == b[0] && (|a| == 1 <==> |b| == 1) && (|a| > 1 ==> a[1..] == b[1..])
    ensures a == b
  {
    assert a == [a[0]] + a[1..] && b == [b[0]] + b[1..];
  }

  lemma {:induction false} ItemsReadBack(a: seq<Json>, b: seq<Json>, s: string, t: string)
    requires Joined(Items(a)) + ("]" + s) == Joined(Items(b)) + ("]" + t)
    ensures a == b && s == t
    decreases a
  {
    ItemsOpen(a);
    ItemsOpen(b);
    SamePart(Items(a), Items(b), "]", s, t);
    if a != [] {
      ReadBack(a[0], b[0], Tail(Items(a)) + ("]" + s), Tail(Items(b)) + ("]" + t));
      SameTail(Items(a), Items(b), "]", s, t);
      if |a| > 1 {
        ItemsReadBack(a[1..], b[1..], s, t);
      }
      SameCons(a, b);
    }
  }

  lemma MembersOpen(members: seq<Member>)
    ensures members != [] ==>
        Members(members)[0] != "" && Members(members)[0][0] != '}' && Members(members)[1..] == Members(members[1..])
  {
  }

  lemma {:induction false} MembersReadBack(a: seq<Member>, b: seq<Member>, s: string, t: string)
    requires Joined(Members(a)) + ("}" + s) == Joined(Members(b)) + ("}" + t)
    ensures a == b && s == t
    decreases a
  {
    MembersOpen(a);
    MembersOpen(b);
    SamePart(Members(a), Members(b), "}", s, t);
    if a != [] {
      MemberReadBack(a[0], b[0], Tail(Members(a)) + ("}" + s), Tail(Members(b)) + ("}" + t));
      SameTail(Members(a), Members(b), "}", s, t);
      if |a| > 1 {
        MembersReadBack(a[1..], b[1..], s, t);
      }
      SameCons(a, b);
    }
  }

  /** The parts of a rendered member, one after the other. */
  lemma MemberParts(m: Member, s: string)
    ensures RenderMember(m) + s == "\"" + (EscapedText(m.key) + ("\"" + (":" + (Render(m.value) + s))))
  {
    Nested("\"", EscapedText(m.key), "\"", ":", Render(m.value), s);
    assert "\":" == "\"" + ":";
  }

  lemma Nested(a: string, b: string, c: string, d: string, e: string, f: string)
    ensures a + b + (c + d) + e + f == a + (b + (c + (d + (e + f))))
  {}

  lemma {:induction false} MemberReadBack(m: Member, n: Member, s: string, t: string)
    requires RenderMember(m) + s == RenderMember(n) + t && Stops(s) && Stops(t)
    ensures m == n && s == t
    decreases m
  {
    var x, y := ":" + (Render(m.value) + s), ":" + (Render(n.value) + t);
    MemberParts(m, s);
    MemberParts(n, t);
    Strip("\"", EscapedText(m.key) + ("\"" + x), EscapedText(n.key) + ("\"" + y));
    TextReadBack(m.key, n.key, x, y);
    Strip(":", Render(m.value) + s, Render(n.value) + t);
    ReadBack(m.value, n.value, s, t);
  }

  // ------------------------------------------------------------------------------ order

  /** No rendered object is the beginning of another. */
  lemma ObjectsArePrefixFree(o: Json, p: Json)
    requires o.Object? && p.Object? && o != p
    ensures !(Render(o) <= Render(p))
  {
    if Render(o) <= Render(p) {
      var rest := Render(p)[|Render(o)|..];
      assert Render(o) + rest == Render(p) + "";
      ReadBack(o, p, rest, "");
    }
  }

  /** Texts neither of which begins the other are ordered however they go on. */
  lemma {:induction false} BeforeDecided(a: string, b: string, s: string, t: string)
    requires !(a <= b) && !(b <= a)
    ensures Before(a + s, b + t) <==> Before(a, b)
  {
    assert a != "" && b != "";
    if a[0] == b[0] {
      assert !(a[1..] <= b[1..]) && !(b[1..] <= a[1..]);
      BeforeDecided(a[1..], b[1..], s, t);
      assert (a + s)[1..] == a[1..] + s && (b + t)[1..] == b[1..] + t;
    }
  }

  lemma {:induction false} BeforeAfterPrefix(prefix: string, a: string, b: string)
    ensures Before(prefix + a, prefix + b) <==> Before(a, b)
  {
    if prefix == "" {
      assert prefix + a == a && prefix + b == b;
    } else {
      BeforeAfterPrefix(prefix[1..], a, b);
      assert (prefix + a)[1..] == prefix[1..] + a && (prefix + b)[1..] == prefix[1..] + b;
    }
  }

  /** Objects whose first members differ are ordered as those first members are, whatever follows. */
  lemma FirstMemberDecides(key: string, o: Json, p: Json, x: seq<Member>, y: seq<Member>)
    requires o.Object? && p.Object? && o != p
    ensures Before(Render(Object([Member(key, o)] + x)), Render(Object([Member(key, p)] + y))) <==>
        Before(Render(o), Render(p))
  {
    var opening := "{\"" + EscapedText(key) + "\":";
    StartsWithFirst(key, o, x);
    StartsWithFirst(key, p, y);
    var s := Tail(Members([Member(key, o)] + x)) + "}";
    var t := Tail(Members([Member(key, p)] + y)) + "}";
    ObjectsArePrefixFree(o, p);
    ObjectsArePrefixFree(p, o);
    BeforeDecided(Render(o), Render(p), s, t);
    BeforeAfterPrefix(opening, Render(o) + s, Render(p) + t);
  }

  lemma StartsWithFirst(key: string, o: Json, x: seq<Member>)
    ensures Render(Object([Member(key, o)] + x))
         == ("{\"" + EscapedText(key) + "\":") + (Render(o) + (Tail(Members([Member(key, o)] + x)) + "}"))
  {
    var members := [Member(key, o)] + x;
    MembersAreJoined(members);
    JoinedCons(Members(members));
    var tail := Tail(Members(members));
    assert Members(members)[0] == "\"" + EscapedText(key) + "\":" + Render(o);
    OpenedMember(EscapedText(key), Render(o), tail);
  }

  lemma OpenedMember(key: string, value: string, tail: string)
    ensures "{" + (("\"" + key + "\":" + value) + tail) + "}" == ("{\"" + key + "\":") + (value + (tail + "}"))
  {
    assert "{\"" == "{" + "\"";
  }
}
