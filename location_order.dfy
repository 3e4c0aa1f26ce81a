/** The entries the location service hands to pickers and the order it sorts them in.
    `localeCompare` is replaced by a case-insensitive (ASCII) lexicographic order on
    labels, and the sort by an insertion sort that yields a sorted permutation. */
module LocationOrder {
  import opened Common
  import opened JsText

  /** One administrative unit as the pickers see it: `{value, label, code}` and, for
      cities and municipalities only, `isCity`. The `label` key is the field
      `labelText`, since `label` is a Dafny keyword. */
  datatype Location = Location(value: string, labelText: string, code: string, isCity: Option<bool>)

  /** `a` sorts no later than `b`: lexicographic on lower-cased characters, a proper
      prefix first. */
  predicate LabelLeq(a: string, b: string)
    decreases |a|
  {
    if a == [] then true
    else if b == [] then false
    else if LowerChar(a[0]) != LowerChar(b[0]) then LowerChar(a[0]) < LowerChar(b[0])
    else LabelLeq(a[1..], b[1..])
  }

  lemma {:induction false} LabelLeqReflexive(a: string)
    ensures LabelLeq(a, a)
    decreases |a|
  {
    if a != [] {
      LabelLeqReflexive(a[1..]);
    }
  }

  /** Any two labels are comparable. */
  lemma {:induction false} LabelLeqTotal(a: string, b: string)
    ensures LabelLeq(a, b) || LabelLeq(b, a)
    decreases |a|
  {
    if a != [] && b != [] && LowerChar(a[0]) == LowerChar(b[0]) {
      LabelLeqTotal(a[1..], b[1..]);
    }
  }

  lemma {:induction false} LabelLeqTransitive(a: string, b: string, c: string)
    requires LabelLeq(a, b) && LabelLeq(b, c)
    ensures LabelLeq(a, c)
    decreases |a|
  {
    if a != [] && LowerChar(a[0]) == LowerChar(b[0]) == LowerChar(c[0]) {
      LabelLeqTransitive(a[1..], b[1..], c[1..]);
    }
  }

  /** A property of this stand-in order, not of locale collation: labels differing only
      in the case of ASCII letters are tied. */
  lemma {:induction false} LabelLeqIgnoresCase(a: string, b: string)
    requires Lower(a) == Lower(b)
    ensures LabelLeq(a, b) && LabelLeq(b, a)
    decreases |a|
  {
    if a != [] {
      assert LowerChar(a[0]) == Lower(a)[0] == Lower(b)[0] == LowerChar(b[0]);
      assert Lower(a[1..]) == Lower(a)[1..] && Lower(b[1..]) == Lower(b)[1..];
      LabelLeqIgnoresCase(a[1..], b[1..]);
    }
  }

  predicate SortedByLabel(s: seq<Location>)
  {
    forall i, j :: 0 <= i < j < |s| ==> LabelLeq(s[i].labelText, s[j].labelText)
  }

  /** If `h` sorts no later than `x` and every entry of `t`, it sorts no later than every
      entry of any rearrangement of `t` with `x` added. */
  lemma LowerBoundOfInsertion(h: Location, t: seq<Location>, x: Location, r: seq<Location>)
    requires forall j :: 0 <= j < |t| ==> LabelLeq(h.labelText, t[j].labelText)
    requires LabelLeq(h.labelText, x.labelText)
    requires multiset(r) == multiset(t) + multiset{x}
    ensures forall j :: 0 <= j < |r| ==> LabelLeq(h.labelText, r[j].labelText)
  {
    forall j | 0 <= j < |r| ensures LabelLeq(h.labelText, r[j].labelText) {
      assert r[j] in multiset(r);
      if r[j] != x {
        assert r[j] in multiset(t);
        var k :| 0 <= k < |t| && t[k] == r[j];
      }
    }
  }

  /** Puts `x` before the first entry it does not sort after, so that it stays ahead of
      entries with an equal label. */
  function InsertByLabel(x: Location, s: seq<Location>): seq<Location>
  {
    if s == [] then [x]
    else if LabelLeq(x.labelText, s[0].labelText) then [x] + s
    else [s[0]] + InsertByLabel(x, s[1..])
  }

  /** An entry that sorts no later than every entry of a sorted list can go in front. */
  lemma PrependSorted(x: Location, s: seq<Location>)
    requires SortedByLabel(s)
    requires forall j :: 0 <= j < |s| ==> LabelLeq(x.labelText, s[j].labelText)
    ensures SortedByLabel([x] + s)
  {
    var r := [x] + s;
    forall i, j | 0 <= i < j < |r| ensures LabelLeq(r[i].labelText, r[j].labelText) {
      assert r[j] == s[j - 1];
      if i > 0 {
        assert r[i] == s[i - 1];
      }
    }
  }

  /** Inserting into a sorted list keeps it sorted and adds exactly `x`. */
  lemma {:induction false} InsertByLabelSpec(x: Location, s: seq<Location>)
    requires SortedByLabel(s)
    ensures SortedByLabel(InsertByLabel(x, s))
    ensures multiset(InsertByLabel(x, s)) == multiset(s) + multiset{x}
    decreases |s|
  {
    if s == [] {
    } else if LabelLeq(x.labelText, s[0].labelText) {
      forall j | 0 <= j < |s| ensures LabelLeq(x.labelText, s[j].labelText) {
        if j > 0 {
          LabelLeqTransitive(x.labelText, s[0].labelText, s[j].labelText);
        }
      }
      PrependSorted(x, s);
    } else {
      var rest := InsertByLabel(x, s[1..]);
      InsertByLabelSpec(x, s[1..]);
      LabelLeqTotal(x.labelText, s[0].labelText);
      forall j | 0 <= j < |s[1..]| ensures LabelLeq(s[0].labelText, s[1..][j].labelText) {
        assert s[1..][j] == s[j + 1];
      }
      LowerBoundOfInsertion(s[0], s[1..], x, rest);
      assert s == [s[0]] + s[1..];
      PrependSorted(s[0], rest);
    }
  }

  /** `list.sort((a, b) => a.label.localeCompare(b.label))`, as an insertion sort. */
  function SortByLabel(s: seq<Location>): seq<Location>
  {
    if s == [] then [] else InsertByLabel(s[0], SortByLabel(s[1..]))
  }

  /** The sort yields a list ordered by label that is a permutation of its input. */
  lemma {:induction false} SortByLabelSpec(s: seq<Location>)
    ensures SortedByLabel(SortByLabel(s))
    ensures multiset(SortByLabel(s)) == multiset(s)
    ensures |SortByLabel(s)| == |s|
    decreases |s|
  {
    if s != [] {
      assert s == [s[0]] + s[1..];
      SortByLabelSpec(s[1..]);
      InsertByLabelSpec(s[0], SortByLabel(s[1..]));
      assert |SortByLabel(s)| == |multiset(SortByLabel(s))|;
    }
  }
}
