/** The classification of the tokens of a recorded command line into flags,
    paths and values, and the two-pointer merge that puts the rewritten
    paths and values back in their original order. All three command
    generators share these steps. */
module Tokens {
  import opened Common
  import opened Paths

  /** A token starting with "--" or "-" is a flag. */
  predicate IsFlag(t: string) {
    StartsWith(t, "--") || StartsWith(t, "-")
  }

  /** The provenance flag, which a re-execution must not repeat. */
  predicate IsProvenance(t: string) {
    StartsWith(t, "--provenance") || StartsWith(t, "-p")
  }

  datatype Kind = Flag | Provenance | PathToken | ValueToken

  /** The branch of the classification loop a token takes. */
  function KindOf(t: string): Kind {
    if IsFlag(t) then (if IsProvenance(t) then Provenance else Flag)
    else if HasSeparator(t) then PathToken
    else ValueToken
  }

  /** The tokens of kind k with their positions, the first token of t being
      at position b: what the classification loop appends to the flags,
      paths or values list. */
  function SelectFrom(t: seq<string>, b: nat, k: Kind): seq<Tagged>
    decreases |t|
  {
    if |t| == 0 then []
    else (if KindOf(t[0]) == k then [Tagged(t[0], b)] else []) + SelectFrom(t[1..], b + 1, k)
  }

  /** The number of tokens of kind k. */
  function CountOf(t: seq<string>, k: Kind): nat
    decreases |t|
  {
    if |t| == 0 then 0 else (if KindOf(t[0]) == k then 1 else 0) + CountOf(t[1..], k)
  }

  predicate Ascending(ts: seq<Tagged>) {
    forall i, j :: 0 <= i < j < |ts| ==> ts[i].index < ts[j].index
  }

  /** Every element of ts is the token of t at its position (counted from b)
      and has kind k. */
  predicate Picks(ts: seq<Tagged>, t: seq<string>, b: nat, k: Kind) {
    forall m :: 0 <= m < |ts| ==> PicksAt(ts, t, b, k, m)
  }

  predicate PicksAt(ts: seq<Tagged>, t: seq<string>, b: nat, k: Kind, m: nat)
    requires m < |ts|
  {
    b <= ts[m].index < b + |t| && ts[m].text == t[ts[m].index - b] && KindOf(ts[m].text) == k
  }

  /** The selection holds only tokens of kind k at their own positions, in
      ascending position. */
  lemma {:induction false} SelectSound(t: seq<string>, b: nat, k: Kind)
    ensures Ascending(SelectFrom(t, b, k))
    ensures Picks(SelectFrom(t, b, k), t, b, k)
  {
    SelectPicks(t, b, k);
    SelectAscending(t, b, k);
  }

  lemma {:induction false} SelectPicks(t: seq<string>, b: nat, k: Kind)
    ensures Picks(SelectFrom(t, b, k), t, b, k)
    decreases |t|
  {
    if |t| > 0 {
      var rest := SelectFrom(t[1..], b + 1, k);
      SelectPicks(t[1..], b + 1, k);
      var head := if KindOf(t[0]) == k then [Tagged(t[0], b)] else [];
      var s := head + rest;
      assert SelectFrom(t, b, k) == s;
      forall m | 0 <= m < |s| ensures PicksAt(s, t, b, k, m) {
        if m >= |head| {
          var x := rest[m - |head|];
          assert PicksAt(rest, t[1..], b + 1, k, m - |head|);
          assert s[m] == x;
          assert t[1..][x.index - (b + 1)] == t[x.index - b];
        }
      }
    }
  }

  lemma {:induction false} SelectAscending(t: seq<string>, b: nat, k: Kind)
    ensures Ascending(SelectFrom(t, b, k))
    decreases |t|
  {
    if |t| > 0 {
      var rest := SelectFrom(t[1..], b + 1, k);
      SelectAscending(t[1..], b + 1, k);
      SelectPicks(t[1..], b + 1, k);
      var head := if KindOf(t[0]) == k then [Tagged(t[0], b)] else [];
      var s := head + rest;
      assert SelectFrom(t, b, k) == s;
      forall i, j | 0 <= i < j < |s| ensures s[i].index < s[j].index {
        if i >= |head| {
          assert s[i] == rest[i - |head|] && s[j] == rest[j - |head|];
        } else {
          assert PicksAt(rest, t[1..], b + 1, k, j - 1);
          assert s[j] == rest[j - 1];
        }
      }
    }
  }

  /** Every token of kind k is in the selection, which has CountOf elements. */
  lemma {:induction false} SelectComplete(t: seq<string>, b: nat, k: Kind)
    ensures forall i :: 0 <= i < |t| && KindOf(t[i]) == k ==>
      exists m :: 0 <= m < |SelectFrom(t, b, k)| && SelectFrom(t, b, k)[m].index == b + i
    ensures |SelectFrom(t, b, k)| == CountOf(t, k)
    decreases |t|
  {
    if |t| > 0 {
      var rest := SelectFrom(t[1..], b + 1, k);
      SelectComplete(t[1..], b + 1, k);
      var head := if KindOf(t[0]) == k then [Tagged(t[0], b)] else [];
      var s := head + rest;
      assert SelectFrom(t, b, k) == s;
      forall i | 0 <= i < |t| && KindOf(t[i]) == k
        ensures exists m :: 0 <= m < |s| && s[m].index == b + i
      {
        if i == 0 {
          assert s[0].index == b;
        } else {
          assert t[1..][i - 1] == t[i];
          var m :| 0 <= m < |rest| && rest[m].index == b + 1 + (i - 1);
          assert s[m + |head|] == rest[m];
        }
      }
    }
  }

  /** Selecting from a concatenation selects from each part, the second
      part's positions continuing after the first's. */
  lemma {:induction false} SelectAppend(t: seq<string>, u: seq<string>, b: nat, k: Kind)
    ensures SelectFrom(t + u, b, k) == SelectFrom(t, b, k) + SelectFrom(u, b + |t|, k)
    decreases |t|
  {
    if |t| == 0 {
      assert t + u == u;
    } else {
      assert (t + u)[0] == t[0] && (t + u)[1..] == t[1..] + u;
      SelectAppend(t[1..], u, b + 1, k);
      var h := if KindOf(t[0]) == k then [Tagged(t[0], b)] else [];
      ConcatAssoc(h, SelectFrom(t[1..], b + 1, k), SelectFrom(u, b + |t|, k));
    }
  }

  /** One more token of the loop adds it to the selection of its kind. */
  lemma {:induction false} SelectSnoc(t: seq<string>, i: nat, k: Kind)
    requires i < |t|
    ensures SelectFrom(t[..i + 1], 0, k) ==
      SelectFrom(t[..i], 0, k) + (if KindOf(t[i]) == k then [Tagged(t[i], i)] else [])
  {
    assert t[..i + 1] == t[..i] + [t[i]];
    SelectAppend(t[..i], [t[i]], 0, k);
    assert [t[i]][1..] == [];
  }

  lemma {:induction false} SelectSoundCount(t: seq<string>, b: nat, k: Kind)
    ensures Ascending(SelectFrom(t, b, k)) && Picks(SelectFrom(t, b, k), t, b, k)
    ensures |SelectFrom(t, b, k)| == CountOf(t, k)
  {
    SelectSound(t, b, k);
    SelectComplete(t, b, k);
  }

  /** The number of tokens the rebuilt command keeps: paths and values. */
  function Kept(t: seq<string>): nat {
    CountOf(t, PathToken) + CountOf(t, ValueToken)
  }

  /** The texts of a tagged list, in order. */
  function Texts(ts: seq<Tagged>): (r: seq<string>)
    ensures |r| == |ts|
    decreases |ts|
  {
    if |ts| == 0 then [] else [ts[0].text] + Texts(ts[1..])
  }

  lemma {:induction false} TextsAt(ts: seq<Tagged>, m: nat)
    requires m < |ts|
    ensures Texts(ts)[m] == ts[m].text
    decreases m
  {
    if m > 0 {
      TextsAt(ts[1..], m - 1);
    }
  }

  /** The list of (new text, original position) pairs a loop builds by
      rewriting each selected token. */
  function Retag(texts: seq<string>, tags: seq<Tagged>): (r: seq<Tagged>)
    requires |texts| == |tags|
    ensures |r| == |tags|
    decreases |tags|
  {
    if |tags| == 0 then [] else [Tagged(texts[0], tags[0].index)] + Retag(texts[1..], tags[1..])
  }

  /** Retagging keeps every position and puts the new texts in order. */
  lemma {:induction false} RetagAt(texts: seq<string>, tags: seq<Tagged>, m: nat)
    requires |texts| == |tags| && m < |tags|
    ensures Retag(texts, tags)[m] == Tagged(texts[m], tags[m].index)
    decreases m
  {
    if m > 0 {
      RetagAt(texts[1..], tags[1..], m - 1);
    }
  }

  lemma {:induction false} TakeSnoc<T>(s: seq<T>, i: nat)
    requires i < |s|
    ensures s[..i + 1] == s[..i] + [s[i]]
  {
  }

  /** Rewriting one more selected token appends its new text with its
      position. */
  lemma {:induction false} RetagSnoc(texts: seq<string>, tags: seq<Tagged>, x: string, y: Tagged)
    requires |texts| == |tags|
    ensures Retag(texts + [x], tags + [y]) == Retag(texts, tags) + [Tagged(x, y.index)]
    decreases |tags|
  {
    if |tags| == 0 {
      assert texts + [x] == [x] && tags + [y] == [y];
      assert Retag([x], [y]) == [Tagged(x, y.index)] + Retag([x][1..], [y][1..]);
    } else {
      assert (texts + [x])[1..] == texts[1..] + [x];
      assert (tags + [y])[1..] == tags[1..] + [y];
      RetagSnoc(texts[1..], tags[1..], x, y);
    }
  }

  /** Python's two-pointer merge by position: the smaller position first,
      the value on a tie, and the rest of whichever list is left. */
  function MergeTagged(ps: seq<Tagged>, vs: seq<Tagged>): seq<Tagged>
    decreases |ps| + |vs|
  {
    if |ps| == 0 then vs
    else if |vs| == 0 then ps
    else if ps[0].index < vs[0].index then [ps[0]] + MergeTagged(ps[1..], vs)
    else [vs[0]] + MergeTagged(ps, vs[1..])
  }

  /** The command the generators mean to produce, written token by token:
      flags dropped, the next rewritten path for a path token, the next
      rewritten value for a value token. */
  function Assemble(t: seq<string>, pt: seq<string>, vt: seq<string>): (r: seq<string>)
    requires |pt| == CountOf(t, PathToken) && |vt| == CountOf(t, ValueToken)
    ensures |r| == Kept(t)
    decreases |t|
  {
    if |t| == 0 then []
    else if KindOf(t[0]) == PathToken then [pt[0]] + Assemble(t[1..], pt[1..], vt)
    else if KindOf(t[0]) == ValueToken then [vt[0]] + Assemble(t[1..], pt, vt[1..])
    else Assemble(t[1..], pt, vt)
  }

  lemma {:induction false} MergePathFirst(ps: seq<Tagged>, vs: seq<Tagged>)
    requires |ps| > 0 && (|vs| == 0 || ps[0].index < vs[0].index)
    ensures MergeTagged(ps, vs) == [ps[0]] + MergeTagged(ps[1..], vs)
  {
    if |vs| == 0 {
      assert [ps[0]] + ps[1..] == ps;
    }
  }

  lemma {:induction false} MergeValueFirst(ps: seq<Tagged>, vs: seq<Tagged>)
    requires |vs| > 0 && (|ps| == 0 || vs[0].index < ps[0].index)
    ensures MergeTagged(ps, vs) == [vs[0]] + MergeTagged(ps, vs[1..])
  {
    if |ps| == 0 {
      assert [vs[0]] + vs[1..] == vs;
    }
  }

  /** Every position in the selection from b on is at least b. */
  lemma {:induction false} SelectAbove(t: seq<string>, b: nat, k: Kind)
    ensures |SelectFrom(t, b, k)| > 0 ==> SelectFrom(t, b, k)[0].index >= b
  {
    SelectSound(t, b, k);
    if |SelectFrom(t, b, k)| > 0 {
      assert PicksAt(SelectFrom(t, b, k), t, b, k, 0);
    }
  }

  /** Merging the rewritten paths with the rewritten values, each list
      tagged with the positions the classification gave it, yields the
      command token by token: nothing is lost, duplicated or reordered. */
  lemma {:induction false} MergeAssembles(t: seq<string>, b: nat, pt: seq<string>, vt: seq<string>)
    requires |pt| == CountOf(t, PathToken) && |vt| == CountOf(t, ValueToken)
    ensures |SelectFrom(t, b, PathToken)| == |pt| && |SelectFrom(t, b, ValueToken)| == |vt|
    ensures Texts(MergeTagged(Retag(pt, SelectFrom(t, b, PathToken)), Retag(vt, SelectFrom(t, b, ValueToken))))
      == Assemble(t, pt, vt)
    decreases |t|
  {
    SelectComplete(t, b, PathToken);
    SelectComplete(t, b, ValueToken);
    if |t| > 0 {
      var k := KindOf(t[0]);
      var ps1 := SelectFrom(t[1..], b + 1, PathToken);
      var vs1 := SelectFrom(t[1..], b + 1, ValueToken);
      SelectComplete(t[1..], b + 1, PathToken);
      SelectComplete(t[1..], b + 1, ValueToken);
      SelectAbove(t[1..], b + 1, PathToken);
      SelectAbove(t[1..], b + 1, ValueToken);
      if k == PathToken {
        MergeAssembles(t[1..], b + 1, pt[1..], vt);
        var x := [Tagged(t[0], b)] + ps1;
        assert SelectFrom(t, b, PathToken) == x;
        assert SelectFrom(t, b, ValueToken) == vs1;
        assert x[1..] == ps1;
        var P := Retag(pt, x);
        var V := Retag(vt, vs1);
        if |V| > 0 {
          RetagAt(vt, vs1, 0);
        }
        MergePathFirst(P, V);
        TextsCons(P[0], MergeTagged(P[1..], V));
      } else if k == ValueToken {
        MergeAssembles(t[1..], b + 1, pt, vt[1..]);
        var x := [Tagged(t[0], b)] + vs1;
        assert SelectFrom(t, b, ValueToken) == x;
        assert SelectFrom(t, b, PathToken) == ps1;
        assert x[1..] == vs1;
        var P := Retag(pt, ps1);
        var V := Retag(vt, x);
        if |P| > 0 {
          RetagAt(pt, ps1, 0);
        }
        MergeValueFirst(P, V);
        TextsCons(V[0], MergeTagged(P, V[1..]));
      } else {
        MergeAssembles(t[1..], b + 1, pt, vt);
        assert SelectFrom(t, b, PathToken) == ps1;
        assert SelectFrom(t, b, ValueToken) == vs1;
      }
    }
  }

  /** A merge of two position-ascending lists in which no position appears
      twice is position-ascending. */
  lemma {:induction false} MergeAscending(ps: seq<Tagged>, vs: seq<Tagged>, lo: int)
    requires Ascending(ps) && Ascending(vs)
    requires forall i :: 0 <= i < |ps| ==> ps[i].index > lo
    requires forall i :: 0 <= i < |vs| ==> vs[i].index > lo
    requires forall i, j :: 0 <= i < |ps| && 0 <= j < |vs| ==> ps[i].index != vs[j].index
    ensures Ascending(MergeTagged(ps, vs))
    ensures forall i :: 0 <= i < |MergeTagged(ps, vs)| ==> MergeTagged(ps, vs)[i].index > lo
    ensures |MergeTagged(ps, vs)| == |ps| + |vs|
    decreases |ps| + |vs|
  {
    if |ps| > 0 && |vs| > 0 {
      if ps[0].index < vs[0].index {
        MergeAscending(ps[1..], vs, ps[0].index);
      } else {
        assert ps[0].index != vs[0].index;
        MergeAscending(ps, vs[1..], vs[0].index);
      }
    }
  }

  /** The merged output of a generator is in strictly ascending original
      position and has one token per path and value token. */
  lemma {:induction false} MergedInOrder(t: seq<string>, pt: seq<string>, vt: seq<string>)
    requires |pt| == CountOf(t, PathToken) && |vt| == CountOf(t, ValueToken)
    ensures |SelectFrom(t, 0, PathToken)| == |pt| && |SelectFrom(t, 0, ValueToken)| == |vt|
    ensures Ascending(MergeTagged(Retag(pt, SelectFrom(t, 0, PathToken)), Retag(vt, SelectFrom(t, 0, ValueToken))))
    ensures |MergeTagged(Retag(pt, SelectFrom(t, 0, PathToken)), Retag(vt, SelectFrom(t, 0, ValueToken)))| == Kept(t)
  {
    var ps := SelectFrom(t, 0, PathToken);
    var vs := SelectFrom(t, 0, ValueToken);
    SelectSoundCount(t, 0, PathToken);
    SelectSoundCount(t, 0, ValueToken);
    var P := Retag(pt, ps);
    var V := Retag(vt, vs);
    forall i | 0 <= i < |P| ensures P[i].index == ps[i].index && P[i].index >= 0 {
      RetagAt(pt, ps, i);
    }
    forall j | 0 <= j < |V| ensures V[j].index == vs[j].index {
      RetagAt(vt, vs, j);
    }
    forall i, j | 0 <= i < |P| && 0 <= j < |V| ensures P[i].index != V[j].index {
      assert PicksAt(ps, t, 0, PathToken, i) && PicksAt(vs, t, 0, ValueToken, j);
    }
    MergeAscending(P, V, -1);
  }

  lemma {:induction false} TextsCons(x: Tagged, r: seq<Tagged>)
    ensures Texts([x] + r) == [x.text] + Texts(r)
  {
    assert ([x] + r)[1..] == r;
  }

  lemma {:induction false} TextsTail(ts: seq<Tagged>, i: nat)
    requires i < |ts|
    ensures Texts(ts[i..]) == [ts[i].text] + Texts(ts[i + 1..])
  {
    assert ts[i..][1..] == ts[i + 1..];
  }

  /** One step of the first merge loop when the path comes first. */
  lemma {:induction false} MergeTakesPath(ps: seq<Tagged>, vs: seq<Tagged>, p1: nat, p2: nat, out: seq<string>, whole: seq<string>)
    requires p1 < |ps| && p2 < |vs| && ps[p1].index < vs[p2].index
    requires out + Texts(MergeTagged(ps[p1..], vs[p2..])) == whole
    ensures (out + [ps[p1].text]) + Texts(MergeTagged(ps[p1 + 1..], vs[p2..])) == whole
  {
    var P, V := ps[p1..], vs[p2..];
    assert P[1..] == ps[p1 + 1..];
    TextsCons(P[0], MergeTagged(P[1..], V));
  }

  /** One step of the first merge loop when the value comes first. */
  lemma {:induction false} MergeTakesValue(ps: seq<Tagged>, vs: seq<Tagged>, p1: nat, p2: nat, out: seq<string>, whole: seq<string>)
    requires p1 < |ps| && p2 < |vs| && !(ps[p1].index < vs[p2].index)
    requires out + Texts(MergeTagged(ps[p1..], vs[p2..])) == whole
    ensures (out + [vs[p2].text]) + Texts(MergeTagged(ps[p1..], vs[p2 + 1..])) == whole
  {
    var P, V := ps[p1..], vs[p2..];
    assert V[1..] == vs[p2 + 1..];
    TextsCons(V[0], MergeTagged(P, V[1..]));
  }

  /** Once one list is used up, the merge is the rest of the other. */
  lemma {:induction false} MergeDrained(ps: seq<Tagged>, vs: seq<Tagged>, p1: nat, p2: nat, out: seq<string>, whole: seq<string>)
    requires p1 <= |ps| && p2 <= |vs| && (p1 == |ps| || p2 == |vs|)
    requires out + Texts(MergeTagged(ps[p1..], vs[p2..])) == whole
    ensures out + Texts(ps[p1..]) + Texts(vs[p2..]) == whole
  {
    if p1 == |ps| {
      assert ps[p1..] == [];
    } else {
      assert vs[p2..] == [];
    }
  }

  /** A loop that copies the texts of the rest of a list, from i on. */
  method CopyTexts(ts: seq<Tagged>, i: nat) returns (out: seq<string>)
    requires i <= |ts|
    ensures out == Texts(ts[i..])
  {
    out := [];
    var k := i;
    while k < |ts|
      invariant i <= k <= |ts|
      invariant out + Texts(ts[k..]) == Texts(ts[i..])
    {
      TextsTail(ts, k);
      out := out + [ts[k].text];
      k := k + 1;
    }
    assert ts[k..] == [];
  }

  /** The two-pointer merge of the generators: the first loop runs while
      both lists have elements, and then the rest of each is copied. */
  method Merge(ps: seq<Tagged>, vs: seq<Tagged>) returns (out: seq<string>)
    ensures out == Texts(MergeTagged(ps, vs))
  {
    ghost var whole := Texts(MergeTagged(ps, vs));
    var p1, p2 := 0, 0;
    out := [];
    assert ps[0..] == ps && vs[0..] == vs;
    while p1 < |ps| && p2 < |vs|
      invariant 0 <= p1 <= |ps| && 0 <= p2 <= |vs|
      invariant out + Texts(MergeTagged(ps[p1..], vs[p2..])) == whole
      decreases |ps| - p1 + |vs| - p2
    {
      if ps[p1].index < vs[p2].index {
        MergeTakesPath(ps, vs, p1, p2, out, whole);
        out := out + [ps[p1].text];
        p1 := p1 + 1;
      } else {
        MergeTakesValue(ps, vs, p1, p2, out, whole);
        out := out + [vs[p2].text];
        p2 := p2 + 1;
      }
    }
    MergeDrained(ps, vs, p1, p2, out, whole);
    var restP := CopyTexts(ps, p1);
    var restV := CopyTexts(vs, p2);
    out := out + restP + restV;
  }
}
