/**
 * Comma-separated lists of strings: Python's `','.join(values)`, its partner
 * `s.split(',')`, and the `_CommaSeparate` helper of the bugs table, which
 * flattens a list of strings and marks the empty list with `None`.
 */
module CommaList {
  import opened Wrappers

  /** True when `s` holds no separator character. */
  predicate CommaFree(s: string)
  {
    forall i :: 0 <= i < |s| ==> s[i] != ','
  }

  /** True when no element of `xs` holds a separator character. */
  predicate AllCommaFree(xs: seq<string>)
  {
    forall i :: 0 <= i < |xs| ==> CommaFree(xs[i])
  }

  /** `','.join(xs)`: the elements in order, one comma between neighbours. */
  function Join(xs: seq<string>): (r: string)
  {
    if |xs| == 0 then ""
    else if |xs| == 1 then xs[0]
    else xs[0] + "," + Join(xs[1..])
  }

  /** `s.split(',')`: the pieces between commas; always at least one piece. */
  function Split(s: string): (r: seq<string>)
    ensures |r| >= 1
    decreases |s|
  {
    if |s| == 0 then [""]
    else
      var rest := Split(s[1..]);
      if s[0] == ',' then [""] + rest
      else [[s[0]] + rest[0]] + rest[1..]
  }

  /** `_CommaSeparate` once its argument is known to be a list: `None` exactly for the empty list. */
  function CommaSeparate(values: seq<string>): (r: Option<string>)
    ensures r.None? <==> |values| == 0
    ensures r.Some? ==> |r.value| >= |values| - 1
  {
    if |values| > 0 then (JoinLength(values); Some(Join(values))) else None
  }

  /** Sum of the lengths of the elements. */
  function TotalLength(xs: seq<string>): (r: nat)
  {
    if |xs| == 0 then 0 else |xs[0]| + TotalLength(xs[1..])
  }

  /** The join of a non-empty list is as long as its elements together plus one character per gap between neighbours. */
  lemma {:induction false} JoinLength(xs: seq<string>)
    requires |xs| > 0
    ensures |Join(xs)| == TotalLength(xs) + |xs| - 1
  {
    if |xs| > 1 {
      JoinLength(xs[1..]);
    }
  }

  /** A comma-free prefix glues onto the first piece of what follows it. */
  lemma {:induction false} SplitCommaFreePrefix(a: string, t: string)
    requires CommaFree(a)
    ensures Split(a + t) == [a + Split(t)[0]] + Split(t)[1..]
  {
    if |a| == 0 {
      assert a + t == t;
      assert a + Split(t)[0] == Split(t)[0];
      assert [Split(t)[0]] + Split(t)[1..] == Split(t);
    } else {
      assert (a + t)[0] == a[0];
      assert (a + t)[1..] == a[1..] + t;
      SplitCommaFreePrefix(a[1..], t);
      assert [a[0]] + (a[1..] + Split(t)[0]) == a + Split(t)[0];
    }
  }

  /** A comma-free string is a single piece. */
  lemma SplitCommaFree(a: string)
    requires CommaFree(a)
    ensures Split(a) == [a]
  {
    SplitCommaFreePrefix(a, "");
    assert a + "" == a;
  }

  /** A comma-free piece followed by a comma splits off as the first piece. */
  lemma SplitAfterComma(a: string, t: string)
    requires CommaFree(a)
    ensures Split(a + "," + t) == [a] + Split(t)
  {
    SplitCommaFreePrefix(a, "," + t);
    assert a + "," + t == a + ("," + t);
    assert ("," + t)[1..] == t;
    assert Split("," + t) == [""] + Split(t);
    assert a + "" == a;
    assert ([""] + Split(t))[1..] == Split(t);
  }

  /** Round trip: splitting the join of a non-empty list of comma-free strings gives the list back. */
  lemma {:induction false} SplitJoin(xs: seq<string>)
    requires |xs| > 0 && AllCommaFree(xs)
    ensures Split(Join(xs)) == xs
  {
    assert CommaFree(xs[0]);
    if |xs| == 1 {
      SplitCommaFree(xs[0]);
    } else {
      assert AllCommaFree(xs[1..]) by {
        forall i | 0 <= i < |xs[1..]| ensures CommaFree(xs[1..][i]) {
          assert xs[1..][i] == xs[i + 1];
        }
      }
      SplitJoin(xs[1..]);
      SplitAfterComma(xs[0], Join(xs[1..]));
      assert [xs[0]] + xs[1..] == xs;
    }
  }

  /** Order-preserving: joining a concatenation joins the two halves around one comma. */
  lemma {:induction false} JoinAppend(xs: seq<string>, ys: seq<string>)
    requires |xs| > 0 && |ys| > 0
    ensures Join(xs + ys) == Join(xs) + "," + Join(ys)
  {
    if |xs| == 1 {
      assert (xs + ys)[1..] == ys;
    } else {
      assert (xs + ys)[1..] == xs[1..] + ys;
      JoinAppend(xs[1..], ys);
      assert Join(xs + ys) == xs[0] + "," + (Join(xs[1..]) + "," + Join(ys));
    }
  }

  /** Distinct non-empty lists of comma-free strings have distinct joins. */
  lemma JoinInjective(xs: seq<string>, ys: seq<string>)
    requires |xs| > 0 && AllCommaFree(xs)
    requires |ys| > 0 && AllCommaFree(ys)
    requires Join(xs) == Join(ys)
    ensures xs == ys
  {
    SplitJoin(xs);
    SplitJoin(ys);
  }

  /**
   * The comma-separated column round-trips: the absent marker stands for the
   * empty list, and any present string splits back into the original elements.
   */
  lemma CommaSeparateRoundTrip(values: seq<string>)
    requires AllCommaFree(values)
    ensures CommaSeparate(values) == None ==> values == []
    ensures CommaSeparate(values).Some? ==> Split(CommaSeparate(values).value) == values
  {
    if |values| > 0 {
      SplitJoin(values);
    }
  }

  /**
   * On comma-free lists, the empty one included, distinct lists give distinct
   * column values, although `Join` alone maps both `[]` and `[""]` to "".
   */
  lemma CommaSeparateInjective(xs: seq<string>, ys: seq<string>)
    requires AllCommaFree(xs) && AllCommaFree(ys)
    requires CommaSeparate(xs) == CommaSeparate(ys)
    ensures xs == ys
  {
    CommaSeparateRoundTrip(xs);
    CommaSeparateRoundTrip(ys);
  }

  /**
   * The absent marker is needed: without it the empty list and the list
   * holding one empty string would both become "".
   */
  lemma EmptyMarkerDistinguishes()
    ensures Join([]) == Join([""])
    ensures CommaSeparate([]) == None && CommaSeparate([""]) == Some("")
  {
  }
}
