/** A linear order on identifiers, in which the kernel lists rows that agree in everything else.

    Texts come in code-point order, digests after them and among themselves by the least member
    in which the digested sets differ. */
module IdOrder {
  import opened Domain
  import opened TextRules

  predicate Earlier(a: Id, b: Id)
    decreases a, 0
  {
    match (a, b)
    case (Name(s), Name(t)) => Before(s, t)
    case (Name(_), ConflictOf(_)) => true
    case (ConflictOf(_), Name(_)) => false
    case (ConflictOf(s), ConflictOf(t)) => exists x :: x in s && Leads(x, s, t)
  }

  /** A member of the first set only, earlier than every member of the second only. */
  predicate Leads(x: Id, s: set<Id>, t: set<Id>)
    decreases x, 1
  {
    x in s && x !in t && forall y :: y in t && y !in s ==> Earlier(x, y)
  }

  /** How deep digests are nested. */
  ghost function Depth(a: Id): nat
    decreases a, 1
  {
    if a.Name? then 0 else Deepest(a, a.firstMembers) + 1
  }

  ghost function Deepest(a: Id, s: set<Id>): (d: nat)
    requires a.ConflictOf? && s <= a.firstMembers
    ensures forall x :: x in s ==> Depth(x) <= d
    decreases a, 0, s
  {
    if s == {} then 0
    else
      var x :| x in s;
      var rest := Deepest(a, s - {x});
      if Depth(x) < rest then rest else Depth(x)
  }

  lemma {:induction false} EarlierTransitive(a: Id, b: Id, c: Id, n: nat)
    requires Depth(a) <= n && Depth(b) <= n && Depth(c) <= n
    requires Earlier(a, b) && Earlier(b, c)
    ensures Earlier(a, c)
    decreases n, 0
  {
    match (a, b, c)
    case (Name(s), Name(t), Name(u)) => BeforeTransitive(s, t, u);
    case (ConflictOf(s), ConflictOf(t), ConflictOf(u)) =>
      var x :| x in s && Leads(x, s, t);
      var y :| y in t && Leads(y, t, u);
      EarlierTotal(x, y, n - 1);
      var first := if Earlier(x, y) then x else y;
      forall z | z in u && z !in s
        ensures Earlier(first, z)
      {
        if first == x && z !in t {
          EarlierTransitive(x, y, z, n - 1);
        } else if first == y && z in t {
          EarlierTransitive(y, x, z, n - 1);
        }
      }
      assert first in s && Leads(first, s, u);
    case _ =>
  }

  /** Of two different identifiers exactly one is earlier. */
  lemma {:induction false} EarlierTotal(a: Id, b: Id, n: nat)
    requires Depth(a) <= n && Depth(b) <= n
    ensures a != b ==> Earlier(a, b) != Earlier(b, a)
    ensures a == b ==> !Earlier(a, b)
    decreases n, 0
  {
    match (a, b)
    case (Name(s), Name(t)) => BeforeTotal(s, t);
    case (ConflictOf(s), ConflictOf(t)) =>
      var apart := (s - t) + (t - s);
      if apart != {} {
        var x := First(apart, n - 1);
        assert if x in s then Leads(x, s, t) else Leads(x, t, s);
        forall y, z | y in s && z in t && Leads(y, s, t) && Leads(z, t, s)
          ensures false
        {
          EarlierTotal(y, z, n - 1);
        }
      }
    case _ =>
  }

  /** Every set of identifiers has a first member. */
  lemma {:induction false} First(s: set<Id>, n: nat) returns (first: Id)
    requires s != {} && forall x :: x in s ==> Depth(x) <= n
    ensures first in s && forall x :: x in s && x != first ==> Earlier(first, x)
    decreases n, 1, s
  {
    first :| first in s;
    if s != {first} {
      var one := first;
      var other := First(s - {first}, n);
      EarlierTotal(one, other, n);
      first := if Earlier(one, other) then one else other;
      forall x | x in s && x != one && x != other && first == one
        ensures Earlier(one, x)
      {
        EarlierTransitive(one, other, x, n);
      }
    }
  }
}
