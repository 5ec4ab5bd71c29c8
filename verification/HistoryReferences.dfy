/** The history references a context pack lists: for every record whose history was cut, the
    place of its full history and the largest number of entries omitted there. */
module HistoryReferences {
  import opened Json
  import opened TextRules

  datatype Reference = Reference(target: string, omitted: nat)

  predicate Truncates(j: Json) {
    && Has(j, "history_truncated") && Get(j, "history_truncated") == Boolean(true)
    && Has(j, "full_history_ref") && Get(j, "full_history_ref").Text?
    && Has(j, "history_omitted_count") && Get(j, "history_omitted_count").Number?
        && Get(j, "history_omitted_count").n > 0
  }

  function OwnReference(j: Json): seq<Reference> {
    if Truncates(j) then [Reference(Get(j, "full_history_ref").text, Get(j, "history_omitted_count").n)] else []
  }

  /** Every reference in a document, itself first. */
  function Mentions(j: Json): seq<Reference> {
    match j
    case List(items) => ItemMentions(items)
    case Object(members) => OwnReference(j) + MemberMentions(members)
    case _ => []
  }

  function ItemMentions(items: seq<Json>): seq<Reference> {
    if items == [] then [] else ItemMentions(items[..|items| - 1]) + Mentions(items[|items| - 1])
  }

  function MemberMentions(members: seq<Member>): seq<Reference> {
    if members == [] then [] else MemberMentions(members[..|members| - 1]) + Mentions(members[|members| - 1].value)
  }

  function Largest(a: nat, b: nat): nat {
    if a < b then b else a
  }

  /** One more mention in a table sorted by target. */
  function Note(table: seq<Reference>, r: Reference): seq<Reference> {
    if table == [] then [r]
    else
      var last := table[|table| - 1];
      if Before(last.target, r.target) then table + [r]
      else if last.target == r.target then table[|table| - 1 := Reference(r.target, Largest(last.omitted, r.omitted))]
      else Note(table[..|table| - 1], r) + [last]
  }

  function Collect(mentions: seq<Reference>): seq<Reference> {
    if mentions == [] then [] else Note(Collect(mentions[..|mentions| - 1]), mentions[|mentions| - 1])
  }

  ghost predicate Sorted(table: seq<Reference>) {
    forall i, j :: 0 <= i < j < |table| ==> Before(table[i].target, table[j].target)
  }

  ghost predicate Covers(table: seq<Reference>, m: Reference) {
    exists r :: r in table && r.target == m.target && m.omitted <= r.omitted
  }

  /** The table lists each target once with the largest count mentioned for it. */
  ghost predicate Summarizes(table: seq<Reference>, mentions: seq<Reference>) {
    && Sorted(table)
    && (forall r :: r in table ==> r in mentions)
    && (forall m :: m in mentions ==> Covers(table, m))
  }

  lemma {:induction false} NoteSorts(table: seq<Reference>, r: Reference)
    requires Sorted(table)
    ensures Sorted(Note(table, r))
    ensures forall x :: x in Note(table, r) ==> x == r || x in table
  {
    if table != [] {
      var front, last := table[..|table| - 1], table[|table| - 1];
      if Before(last.target, r.target) {
        forall i | 0 <= i < |front|
          ensures Before(table[i].target, r.target)
        {
          BeforeTransitive(table[i].target, last.target, r.target);
        }
      } else if last.target != r.target {
        BeforeTotal(last.target, r.target);
        NoteSorts(front, r);
        var m := Note(front, r);
        forall x | x in m
          ensures Before(x.target, last.target)
        {
          if x in front {
            var i :| 0 <= i < |front| && front[i] == x;
            assert table[i] == x;
          }
        }
      }
    }
  }

  lemma {:induction false} NoteCovers(table: seq<Reference>, r: Reference, m: Reference)
    requires Covers(table, m) || m == r
    ensures Covers(Note(table, r), m)
  {
    var n := Note(table, r);
    if table == [] {
      assert n[0] == r;
    } else {
      var front, last := table[..|table| - 1], table[|table| - 1];
      if Before(last.target, r.target) {
        assert r in n && forall x :: x in table ==> x in n;
      } else if last.target == r.target {
        assert n == front + [n[|table| - 1]];
      } else {
        assert forall x :: x in Note(front, r) ==> x in n;
        assert last in n;
        if m == r || Covers(front, m) {
          NoteCovers(front, r, m);
        } else {
          var x :| x in table && x.target == m.target && m.omitted <= x.omitted;
          assert x in front || x == last;
        }
      }
    }
  }

  lemma {:induction false} CollectSummarizes(mentions: seq<Reference>)
    ensures Summarizes(Collect(mentions), mentions)
  {
    if mentions != [] {
      var front, last := mentions[..|mentions| - 1], mentions[|mentions| - 1];
      CollectSummarizes(front);
      NoteSorts(Collect(front), last);
      forall m | m in mentions
        ensures Covers(Collect(mentions), m)
      {
        assert m in front || m == last;
        NoteCovers(Collect(front), last, m);
      }
    }
  }
}
