/**
 * The order phases (and questions) are walked in: `sorted(labels,
 * key=str.casefold)`, and for phases the extra rotation applied when a
 * phase called "mini_challenge" exists.
 */
module Ordering {
  import opened Text

  predicate SortedByFold(s: seq<string>) {
    forall i, j :: 0 <= i < j < |s| ==> FoldLe(s[i], s[j])
  }

  /** Inserts `x` after every element that does not fold above it (keeps `sorted` stable). */
  function Insert(x: string, s: seq<string>): (r: seq<string>)
    requires SortedByFold(s)
    ensures SortedByFold(r)
    ensures multiset(r) == multiset(s) + multiset{x}
  {
    if s == [] then [x]
    else if FoldLe(s[0], x) then
      var rest := Insert(x, s[1..]);
      assert s == [s[0]] + s[1..];
      InsertHead(s[0], x, s[1..], rest);
      [s[0]] + rest
    else
      LexLeTotal(Lower(s[0]), Lower(x));
      forall j | 0 <= j < |s|
        ensures FoldLe(x, s[j])
      {
        if j > 0 { LexLeTrans(Lower(x), Lower(s[0]), Lower(s[j])); }
      }
      [x] + s
  }

  lemma InsertHead(h: string, x: string, tail: seq<string>, rest: seq<string>)
    requires SortedByFold([h] + tail) && FoldLe(h, x)
    requires multiset(rest) == multiset(tail) + multiset{x}
    ensures forall j :: 0 <= j < |rest| ==> FoldLe(h, rest[j])
  {
    forall j | 0 <= j < |rest|
      ensures FoldLe(h, rest[j])
    {
      assert rest[j] in multiset(rest);
      if rest[j] != x {
        assert rest[j] in multiset(tail);
        var k :| 0 <= k < |tail| && tail[k] == rest[j];
        assert ([h] + tail)[0] == h && ([h] + tail)[k + 1] == tail[k];
        assert FoldLe(([h] + tail)[0], ([h] + tail)[k + 1]);
      }
    }
  }

  /** `sorted(labels, key=str.casefold)`. */
  function SortByFold(labels: seq<string>): (r: seq<string>)
    ensures SortedByFold(r)
    ensures multiset(r) == multiset(labels)
  {
    if labels == [] then []
    else
      assert labels == labels[..|labels| - 1] + [labels[|labels| - 1]];
      Insert(labels[|labels| - 1], SortByFold(labels[..|labels| - 1]))
  }

  /**
   * The phase order: the sorted labels, and when "mini_challenge" is among
   * them the FIRST sorted label is popped and appended at the end.
   */
  function PhaseOrder(labels: seq<string>): seq<string> {
    var s := SortByFold(labels);
    if "mini_challenge" in s then s[1..] + [s[0]] else s
  }

  lemma PhaseOrderPermutes(labels: seq<string>)
    ensures multiset(PhaseOrder(labels)) == multiset(labels)
    ensures |PhaseOrder(labels)| == |labels|
  {
    var s := SortByFold(labels);
    if "mini_challenge" in s {
      assert s == [s[0]] + s[1..];
    }
    assert |PhaseOrder(labels)| == |multiset(PhaseOrder(labels))|;
  }

  /** Without "mini_challenge" the phase order is the case-insensitive sort. */
  lemma PhaseOrderWithoutMini(labels: seq<string>)
    requires "mini_challenge" !in labels
    ensures SortedByFold(PhaseOrder(labels))
  {
    var s := SortByFold(labels);
    assert "mini_challenge" !in multiset(s);
  }

  /**
   * With "mini_challenge" present the label moved to the end is the one that
   * sorts first, not "mini_challenge" itself, and the others keep sorted order.
   */
  lemma PhaseOrderWithMini(labels: seq<string>)
    requires "mini_challenge" in labels
    ensures var s := SortByFold(labels);
      PhaseOrder(labels) == s[1..] + [s[0]]
      && forall l :: l in labels ==> FoldLe(s[0], l)
    ensures var p := PhaseOrder(labels);
      SortedByFold(p[..|p| - 1])
  {
    var s := SortByFold(labels);
    assert "mini_challenge" in multiset(s);
    SortedFirstIsLeast(labels);
    var p := PhaseOrder(labels);
    assert p[..|p| - 1] == s[1..];
  }

  /** The first sorted label folds no higher than any label. */
  lemma SortedFirstIsLeast(labels: seq<string>)
    requires labels != []
    ensures forall l :: l in labels ==> FoldLe(SortByFold(labels)[0], l)
  {
    var s := SortByFold(labels);
    assert |s| == |multiset(s)| == |multiset(labels)|;
    forall l | l in labels
      ensures FoldLe(s[0], l)
    {
      assert l in multiset(s);
      var k :| 0 <= k < |s| && s[k] == l;
      if k > 0 {
        assert FoldLe(s[0], s[k]);
      } else {
        LexLeTotal(Lower(l), Lower(l));
      }
    }
  }

  /** A worked instance: with phases "mini_challenge" and "phase1" the walk starts at "phase1". */
  lemma MiniChallengeExample()
    ensures PhaseOrder(["mini_challenge", "phase1"]) == ["phase1", "mini_challenge"]
  {
    var s := ["mini_challenge", "phase1"];
    MiniSorted(s[0], s[1]);
    assert s == [s[0], s[1]];
    assert "mini_challenge" in s;
    assert s[1..] + [s[0]] == ["phase1", "mini_challenge"];
  }

  /** The two labels of the example are already in case-insensitive order. */
  lemma MiniSorted(mini: string, phase: string)
    requires mini == "mini_challenge" && phase == "phase1"
    ensures SortByFold([mini, phase]) == [mini, phase]
  {
    LowerUnchanged(mini);
    LowerUnchanged(phase);
    assert mini[0] == 'm' && phase[0] == 'p';
    assert FoldLe(mini, phase);
    assert [mini, phase][..1] == [mini];
    assert SortByFold([mini]) == [mini];
  }

  /** A label with no capital letters is its own case fold. */
  lemma LowerUnchanged(s: string)
    requires forall i :: 0 <= i < |s| ==> !('A' <= s[i] <= 'Z')
    ensures Lower(s) == s
  {
  }
}
