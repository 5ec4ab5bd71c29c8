/** Characters and strings as the host language classifies and orders them. */
module TextRules {

  /** Whitespace, in the sense of stripping a text. */
  predicate IsSpace(c: char) {
    var n := c as int;
    || 0x09 <= n <= 0x0D || 0x1C <= n <= 0x20 || n == 0x85 || n == 0xA0 || n == 0x1680
    || 0x2000 <= n <= 0x200A || n == 0x2028 || n == 0x2029 || n == 0x202F || n == 0x205F || n == 0x3000
  }

  predicate Blank(text: string) {
    forall i :: 0 <= i < |text| ==> IsSpace(text[i])
  }

  /** Strictly earlier in code-point order. */
  predicate Before(a: string, b: string) {
    b != "" && (a == "" || a[0] < b[0] || (a[0] == b[0] && Before(a[1..], b[1..])))
  }

  lemma {:induction false} BeforeTransitive(a: string, b: string, c: string)
    requires Before(a, b) && Before(b, c)
    ensures Before(a, c)
  {
    if a != "" && a[0] == b[0] && b[0] == c[0] {
      BeforeTransitive(a[1..], b[1..], c[1..]);
    }
  }

  /** Of two different texts exactly one is earlier. */
  lemma {:induction false} BeforeTotal(a: string, b: string)
    ensures a != b ==> Before(a, b) != Before(b, a)
    ensures a == b ==> !Before(a, b)
  {
    if a != "" && b != "" && a[0] == b[0] {
      BeforeTotal(a[1..], b[1..]);
      if a[1..] == b[1..] {
        assert a == [a[0]] + a[1..] && b == [b[0]] + b[1..];
      }
    }
  }

  // ------------------------------------------------------------------ sorting by a text

  function Inserted<T>(s: seq<T>, x: T, key: T -> string): (r: seq<T>)
    ensures multiset(r) == multiset(s) + multiset{x} && |r| == |s| + 1
  {
    if s == [] then [x]
    else
      var n := |s| - 1;
      assert s == s[..n] + [s[n]];
      if Before(key(x), key(s[n])) then Inserted(s[..n], x, key) + [s[n]] else s + [x]
  }

  /** The items in the order of their texts; items with equal texts stay as they are. */
  function Arranged<T>(s: seq<T>, key: T -> string): (r: seq<T>)
    ensures multiset(r) == multiset(s) && |r| == |s|
  {
    if s == [] then []
    else
      var n := |s| - 1;
      assert s == s[..n] + [s[n]];
      Inserted(Arranged(s[..n], key), s[n], key)
  }

  ghost predicate InOrder<T>(s: seq<T>, key: T -> string) {
    forall i, j :: 0 <= i < j < |s| ==> !Before(key(s[j]), key(s[i]))
  }

  lemma AppendedInOrder<T>(front: seq<T>, last: T, key: T -> string)
    requires InOrder(front, key) && forall i :: 0 <= i < |front| ==> !Before(key(last), key(front[i]))
    ensures InOrder(front + [last], key)
  {}

  /** A text that is not earlier than the last is earlier than none. */
  lemma NotEarlier(x: string, last: string, earlier: string)
    requires !Before(x, last) && !Before(last, earlier)
    ensures !Before(x, earlier)
  {
    BeforeTotal(last, earlier);
    if Before(x, earlier) {
      BeforeTotal(x, last);
      if Before(last, x) {
        BeforeTransitive(last, x, earlier);
      }
    }
  }

  lemma {:induction false} InsertedInOrder<T>(s: seq<T>, x: T, key: T -> string)
    requires InOrder(s, key)
    ensures InOrder(Inserted(s, x, key), key)
  {
    if s != [] {
      var n := |s| - 1;
      if Before(key(x), key(s[n])) {
        var front := Inserted(s[..n], x, key);
        InsertedInOrder(s[..n], x, key);
        forall i | 0 <= i < |front|
          ensures !Before(key(s[n]), key(front[i]))
        {
          assert front[i] in multiset(front);
          BeforeTotal(key(x), key(s[n]));
        }
        AppendedInOrder(front, s[n], key);
      } else {
        forall i | 0 <= i < |s|
          ensures !Before(key(x), key(s[i]))
        {
          if i < n {
            NotEarlier(key(x), key(s[n]), key(s[i]));
          }
        }
        AppendedInOrder(s, x, key);
      }
    }
  }

  lemma {:induction false} ArrangedInOrder<T>(s: seq<T>, key: T -> string)
    ensures InOrder(Arranged(s, key), key)
  {
    if s != [] {
      ArrangedInOrder(s[..|s| - 1], key);
      InsertedInOrder(Arranged(s[..|s| - 1], key), s[|s| - 1], key);
    }
  }

  ghost predicate SameOrder<T>(items: multiset<T>, key: T -> string, other: T -> string) {
    forall a, b :: a in items && b in items ==> (Before(key(a), key(b)) <==> Before(other(a), other(b)))
  }

  lemma {:induction false} InsertedAlike<T>(s: seq<T>, x: T, key: T -> string, other: T -> string)
    requires SameOrder(multiset(s) + multiset{x}, key, other)
    ensures Inserted(s, x, key) == Inserted(s, x, other)
  {
    if s != [] {
      var n := |s| - 1;
      assert s == s[..n] + [s[n]];
      assert x in multiset(s) + multiset{x} && s[n] in multiset(s) + multiset{x};
      InsertedAlike(s[..n], x, key, other);
    }
  }

  /** Texts that compare alike arrange the items alike. */
  lemma {:induction false} ArrangedAlike<T>(s: seq<T>, key: T -> string, other: T -> string)
    requires SameOrder(multiset(s), key, other)
    ensures Arranged(s, key) == Arranged(s, other)
  {
    if s != [] {
      var n := |s| - 1;
      assert s == s[..n] + [s[n]];
      ArrangedAlike(s[..n], key, other);
      InsertedAlike(Arranged(s[..n], key), s[n], key, other);
    }
  }
}
