/** Alert selection of the batch path (src/generate_reports.py, lines 50-54):
    keep the scored test records at or above the alert threshold, order them
    by risk score, highest first, and keep the first `topK`; when that leaves
    nothing, order the whole scored test partition and keep its first `topK`.

    The source sorts with the library's default (non-stable) sort, so the
    order among equal scores is unspecified. `SortByScoreDesc` is one
    particular order; `SelectedScoresIgnoreTieOrder` proves that the scores
    selected, position by position, are the same for every order that sorts
    by score. Which of several records tied at the last selected place is
    kept does follow `SortByScoreDesc`'s order. */
module AlertSelection {
  import opened Frames

  /** A test record together with the `risk_score` column assigned to it. */
  datatype Scored = Scored(row: Row, riskScore: real)

  /** Non-increasing by risk score. */
  ghost predicate NonIncreasing(s: seq<Scored>)
  {
    Descending(Scores(s))
  }

  function Min(a: nat, b: nat): nat
  {
    if a <= b then a else b
  }

  /** `df[df["risk_score"] >= threshold]`: the records at or above the
      threshold, in their original order. */
  function AtOrAbove(s: seq<Scored>, threshold: real): (r: seq<Scored>)
    ensures forall x :: x in r ==> x.riskScore >= threshold
  {
    if s == [] then []
    else if s[0].riskScore >= threshold then [s[0]] + AtOrAbove(s[1..], threshold)
    else AtOrAbove(s[1..], threshold)
  }

  /** The filter keeps exactly the records at or above the threshold: what
      it keeps is drawn from the input, no more often than it occurs there,
      and everything it drops scores below the threshold. */
  lemma {:induction false} AtOrAboveIsExactFilter(s: seq<Scored>, threshold: real)
    ensures multiset(AtOrAbove(s, threshold)) <= multiset(s)
    ensures forall x :: x in multiset(s) - multiset(AtOrAbove(s, threshold)) ==> x.riskScore < threshold
  {
    if s != [] {
      var rest := AtOrAbove(s[1..], threshold);
      AtOrAboveIsExactFilter(s[1..], threshold);
      assert s == [s[0]] + s[1..];
      if s[0].riskScore >= threshold {
        assert multiset(s) - multiset([s[0]] + rest) == multiset(s[1..]) - multiset(rest);
      } else {
        assert multiset(s) - multiset(rest) == multiset{s[0]} + (multiset(s[1..]) - multiset(rest));
      }
    }
  }

  /** Places `x` into a non-increasing sequence, before the first record
      that scores strictly lower. */
  function Insert(x: Scored, s: seq<Scored>): (r: seq<Scored>)
    requires NonIncreasing(s)
    ensures NonIncreasing(r)
    ensures multiset(r) == multiset(s) + multiset{x}
  {
    if s == [] then [x]
    else if x.riskScore >= s[0].riskScore then [x] + s
    else
      var rest := Insert(x, s[1..]);
      assert s == [s[0]] + s[1..];
      assert forall y :: y in rest ==> y.riskScore <= s[0].riskScore by {
        forall y | y in rest ensures y.riskScore <= s[0].riskScore {
          assert y in multiset(rest);
          if y != x {
            assert y in s[1..];
          }
        }
      }
      PrependNonIncreasing(s[0], rest);
      [s[0]] + rest
  }

  /** A record scoring at least as much as every record of a non-increasing
      sequence can go in front of it. */
  lemma PrependNonIncreasing(x: Scored, s: seq<Scored>)
    requires NonIncreasing(s)
    requires forall y :: y in s ==> y.riskScore <= x.riskScore
    ensures NonIncreasing([x] + s)
  {
    var r := [x] + s;
    forall i, j | 0 <= i < j < |r| ensures r[i].riskScore >= r[j].riskScore {
      assert r[j] == s[j - 1];
      if i > 0 {
        assert r[i] == s[i - 1];
      }
    }
  }

  /** `sort_values("risk_score", ascending=False)`: the same records,
      highest score first. */
  function SortByScoreDesc(s: seq<Scored>): (r: seq<Scored>)
    ensures NonIncreasing(r)
    ensures multiset(r) == multiset(s)
  {
    if s == [] then []
    else
      assert s == [s[0]] + s[1..];
      Insert(s[0], SortByScoreDesc(s[1..]))
  }

  /** `head(k)`: the first `k` records, or all of them when there are fewer. */
  function Head(s: seq<Scored>, k: nat): (r: seq<Scored>)
    ensures |r| == Min(k, |s|)
    ensures r == s[..|r|]
    ensures multiset(r) <= multiset(s)
  {
    if k < |s| then
      assert s == s[..k] + s[k..];
      s[..k]
    else s
  }

  /** The alerts `run_all` selects from the scored test partition. */
  function SelectAlerts(test: seq<Scored>, threshold: real, topK: nat): (alerts: seq<Scored>)
    ensures |alerts| <= topK
    ensures NonIncreasing(alerts)
    ensures multiset(alerts) <= multiset(test)
  {
    AtOrAboveIsExactFilter(test, threshold);
    var primary := Head(SortByScoreDesc(AtOrAbove(test, threshold)), topK);
    if |primary| == 0 then Head(SortByScoreDesc(test), topK) else primary
  }

  /** The first `k` records of a non-increasing sequence outrank every
      record left behind. */
  lemma {:induction false} HeadOutranksRest(s: seq<Scored>, k: nat)
    requires NonIncreasing(s)
    ensures forall a, y :: a in Head(s, k) && y in multiset(s) - multiset(Head(s, k)) ==>
      a.riskScore >= y.riskScore
  {
    var h := Head(s, k);
    var tail := s[|h|..];
    assert s == h + tail;
    assert multiset(s) - multiset(h) == multiset(tail);
    forall a, y | a in h && y in multiset(s) - multiset(h)
      ensures a.riskScore >= y.riskScore
    {
      assert y in tail;
      var i :| 0 <= i < |h| && h[i] == a;
      var j :| 0 <= j < |tail| && tail[j] == y;
      assert s[i] == a && s[|h| + j] == y;
    }
  }

  /** Primary path: when some record reaches the threshold and `topK > 0`,
      the alerts are the `topK` highest-scoring records among those at or
      above the threshold (or all of them when fewer), each of them reaches
      the threshold, and none scores below a record of that pool left out. */
  lemma PrimaryPath(test: seq<Scored>, threshold: real, topK: nat)
    requires topK > 0
    requires exists i :: 0 <= i < |test| && test[i].riskScore >= threshold
    ensures var pool := AtOrAbove(test, threshold);
      var alerts := SelectAlerts(test, threshold, topK);
      && alerts == Head(SortByScoreDesc(pool), topK)
      && |alerts| == Min(topK, |pool|)
      && (forall a :: a in alerts ==> a.riskScore >= threshold)
      && (forall a, y :: a in alerts && y in multiset(pool) - multiset(alerts) ==> a.riskScore >= y.riskScore)
  {
    var pool := AtOrAbove(test, threshold);
    AtOrAboveIsExactFilter(test, threshold);
    var i :| 0 <= i < |test| && test[i].riskScore >= threshold;
    assert test[i] in multiset(test);
    assert test[i] in multiset(pool);
    var sorted := SortByScoreDesc(pool);
    var alerts := Head(sorted, topK);
    assert |sorted| > 0 by {
      assert test[i] in multiset(sorted);
    }
    HeadOutranksRest(sorted, topK);
    forall a | a in alerts ensures a.riskScore >= threshold {
      assert a in multiset(sorted);
      assert a in pool;
    }
  }

  /** Fallback path: when no record reaches the threshold, the alerts are
      the `topK` highest-scoring records of the whole test partition, and
      none scores below a record left out. */
  lemma FallbackPath(test: seq<Scored>, threshold: real, topK: nat)
    requires forall i :: 0 <= i < |test| ==> test[i].riskScore < threshold
    ensures var alerts := SelectAlerts(test, threshold, topK);
      && alerts == Head(SortByScoreDesc(test), topK)
      && |alerts| == Min(topK, |test|)
      && (forall a, y :: a in alerts && y in multiset(test) - multiset(alerts) ==> a.riskScore >= y.riskScore)
  {
    AtOrAboveIsExactFilter(test, threshold);
    HeadOutranksRest(SortByScoreDesc(test), topK);
  }

  /** With a positive `topK`, a non-empty test partition always yields at
      least one alert: the fallback never leaves the selection empty. */
  lemma NonEmptyWhenPossible(test: seq<Scored>, threshold: real, topK: nat)
    requires |test| > 0 && topK > 0
    ensures |SelectAlerts(test, threshold, topK)| > 0
  {
    if exists i :: 0 <= i < |test| && test[i].riskScore >= threshold {
      PrimaryPath(test, threshold, topK);
      AtOrAboveIsExactFilter(test, threshold);
      var i :| 0 <= i < |test| && test[i].riskScore >= threshold;
      assert test[i] in multiset(AtOrAbove(test, threshold));
    } else {
      FallbackPath(test, threshold, topK);
    }
  }

  /** The risk scores of a sequence of records, in order. */
  function Scores(s: seq<Scored>): (r: seq<real>)
    ensures |r| == |s|
    ensures forall i :: 0 <= i < |s| ==> r[i] == s[i].riskScore
  {
    seq(|s|, i requires 0 <= i < |s| => s[i].riskScore)
  }

  /** Non-increasing real sequence. */
  ghost predicate Descending(r: seq<real>)
  {
    forall i, j :: 0 <= i < j < |r| ==> r[i] >= r[j]
  }

  lemma MultisetCancel<T>(v: T, x: multiset<T>, y: multiset<T>)
    requires multiset{v} + x == multiset{v} + y
    ensures x == y
  {
    forall e ensures x[e] == y[e] {
      assert (multiset{v} + x)[e] == (multiset{v} + y)[e];
    }
  }

  lemma ScoresAppend(x: seq<Scored>, y: seq<Scored>)
    ensures Scores(x + y) == Scores(x) + Scores(y)
  {
    assert Scores(x + y) == Scores(x) + Scores(y) by {
      forall i | 0 <= i < |x| + |y| ensures Scores(x + y)[i] == (Scores(x) + Scores(y))[i] {
        if i >= |x| {
          assert (x + y)[i] == y[i - |x|];
        }
      }
    }
  }

  /** Reordering records reorders their scores. */
  lemma {:induction false} ScoresOfPermutation(a: seq<Scored>, b: seq<Scored>)
    requires multiset(a) == multiset(b)
    ensures multiset(Scores(a)) == multiset(Scores(b))
    decreases |a|
  {
    if a == [] {
      assert |b| == |multiset(b)| == 0;
    } else {
      var v := a[0];
      assert v in multiset(b);
      var j :| 0 <= j < |b| && b[j] == v;
      var left, right := b[..j], b[j + 1..];
      var rest := left + right;
      assert b == left + [v] + right;
      assert multiset(b) == multiset{v} + multiset(rest) by {
        assert multiset(b) == multiset(left) + multiset{v} + multiset(right);
      }
      assert multiset(a) == multiset{v} + multiset(a[1..]) by {
        assert a == [v] + a[1..];
      }
      MultisetCancel(v, multiset(a[1..]), multiset(rest));
      ScoresOfPermutation(a[1..], rest);
      ScoresAppend([v], a[1..]);
      ScoresAppend(left + [v], right);
      ScoresAppend(left, [v]);
      ScoresAppend(left, right);
      assert Scores([v]) == [v.riskScore];
      assert a == [v] + a[1..];
      assert multiset(Scores(a)) == multiset{v.riskScore} + multiset(Scores(a[1..]));
      assert multiset(Scores(b)) == multiset(Scores(left)) + multiset{v.riskScore} + multiset(Scores(right));
    }
  }

  /** Two non-increasing sequences holding the same scores are equal. */
  lemma {:induction false} DescendingUnique(a: seq<real>, b: seq<real>)
    requires multiset(a) == multiset(b)
    requires Descending(a) && Descending(b)
    ensures a == b
    decreases |a|
  {
    assert |a| == |multiset(a)| == |multiset(b)| == |b|;
    if a != [] {
      DescendingHeadIsMax(a, b[0]);
      DescendingHeadIsMax(b, a[0]);
      assert a[0] == b[0];
      assert a == [a[0]] + a[1..];
      assert b == [b[0]] + b[1..];
      assert multiset(a) == multiset{a[0]} + multiset(a[1..]);
      assert multiset(b) == multiset{b[0]} + multiset(b[1..]);
      MultisetCancel(a[0], multiset(a[1..]), multiset(b[1..]));
      DescendingTail(a);
      DescendingTail(b);
      DescendingUnique(a[1..], b[1..]);
    }
  }

  lemma DescendingHeadIsMax(a: seq<real>, v: real)
    requires Descending(a)
    requires v in multiset(a)
    ensures |a| > 0 && a[0] >= v
  {
    var j :| 0 <= j < |a| && a[j] == v;
    if j > 0 {
      assert a[0] >= a[j];
    }
  }

  lemma DescendingTail(a: seq<real>)
    requires Descending(a) && |a| > 0
    ensures Descending(a[1..])
  {
    var t := a[1..];
    forall i, j | 0 <= i < j < |t| ensures t[i] >= t[j] {
      assert t[i] == a[i + 1] && t[j] == a[j + 1];
    }
  }

  /** Whatever order the sort gives equal scores, the scores of the
      selected records, position by position, are the same. */
  lemma SelectedScoresIgnoreTieOrder(pool: seq<Scored>, other: seq<Scored>, topK: nat)
    requires multiset(other) == multiset(pool)
    requires NonIncreasing(other)
    ensures Scores(Head(other, topK)) == Scores(Head(SortByScoreDesc(pool), topK))
  {
    var sorted := SortByScoreDesc(pool);
    ScoresOfPermutation(other, sorted);
    DescendingUnique(Scores(other), Scores(sorted));
    assert |other| == |sorted|;
    var h := Head(other, topK);
    var g := Head(sorted, topK);
    assert |h| == |g|;
    forall i | 0 <= i < |h| ensures Scores(h)[i] == Scores(g)[i] {
      assert h[i] == other[i] && g[i] == sorted[i];
      assert Scores(other)[i] == Scores(sorted)[i];
    }
  }

  lemma AtOrAboveCons(x: Scored, s: seq<Scored>, threshold: real)
    ensures AtOrAbove([x] + s, threshold) ==
      if x.riskScore >= threshold then [x] + AtOrAbove(s, threshold) else AtOrAbove(s, threshold)
  {
    assert ([x] + s)[1..] == s;
  }

  lemma InsertCons(x: Scored, y: Scored, s: seq<Scored>)
    requires NonIncreasing([y] + s)
    ensures NonIncreasing(s)
    ensures Insert(x, [y] + s) == if x.riskScore >= y.riskScore then [x, y] + s else [y] + Insert(x, s)
  {
    var t := [y] + s;
    assert t[1..] == s;
    assert t[0] == y;
  }

  lemma SortCons(x: Scored, s: seq<Scored>)
    ensures SortByScoreDesc([x] + s) == Insert(x, SortByScoreDesc(s))
  {
    assert ([x] + s)[1..] == s;
  }

  /** Example scores: 0.95, 0.2, 0.91, 0.1, 0.99. */
  ghost predicate ExampleScores(a: Scored, b: Scored, c: Scored, d: Scored, e: Scored)
  {
    a.riskScore == 0.95 && b.riskScore == 0.2 && c.riskScore == 0.91 &&
    d.riskScore == 0.1 && e.riskScore == 0.99
  }

  /** Filtering the last three records of the example at a threshold
      between the fourth and fifth score. */
  lemma ExampleFilterTail(c: Scored, d: Scored, e: Scored, threshold: real)
    requires d.riskScore < threshold <= e.riskScore
    ensures AtOrAbove([c, d, e], threshold) == if c.riskScore >= threshold then [c, e] else [e]
  {
    AtOrAboveCons(e, [], threshold);
    assert [e] + [] == [e];
    AtOrAboveCons(d, [e], threshold);
    assert [d] + [e] == [d, e];
    AtOrAboveCons(c, [d, e], threshold);
    assert [c] + [d, e] == [c, d, e];
  }

  lemma ExampleFilter(a: Scored, b: Scored, c: Scored, d: Scored, e: Scored, threshold: real)
    requires ExampleScores(a, b, c, d, e)
    requires threshold == 0.9 || threshold == 0.99
    ensures AtOrAbove([a, b, c, d, e], threshold) == if threshold == 0.9 then [a, c, e] else [e]
  {
    ExampleFilterTail(c, d, e, threshold);
    AtOrAboveCons(b, [c, d, e], threshold);
    assert [b] + [c, d, e] == [b, c, d, e];
    AtOrAboveCons(a, [b, c, d, e], threshold);
    assert [a] + [b, c, d, e] == [a, b, c, d, e];
  }

  lemma ExampleSortTail(c: Scored, e: Scored)
    requires c.riskScore < e.riskScore
    ensures SortByScoreDesc([e]) == [e]
    ensures SortByScoreDesc([c, e]) == [e, c]
  {
    SortCons(e, []);
    assert [e] + [] == [e];
    SortCons(c, [e]);
    assert [c] + [e] == [c, e];
    InsertCons(c, e, []);
  }

  lemma ExampleSortAbove(a: Scored, c: Scored, e: Scored)
    requires c.riskScore < a.riskScore < e.riskScore
    ensures SortByScoreDesc([a, c, e]) == [e, a, c]
  {
    ExampleSortTail(c, e);
    SortCons(a, [c, e]);
    assert [a] + [c, e] == [a, c, e];
    InsertCons(a, e, [c]);
    InsertCons(a, c, []);
  }

  /** Records scoring 0.95, 0.2, 0.91, 0.1, 0.99, in this order, with any
      row contents: threshold 0.9 and topK 3 select the three records at or
      above 0.9, highest first. */
  lemma ThreeAboveThreshold(a: Scored, b: Scored, c: Scored, d: Scored, e: Scored)
    requires ExampleScores(a, b, c, d, e)
    ensures SelectAlerts([a, b, c, d, e], 0.9, 3) == [e, a, c]
  {
    ExampleFilter(a, b, c, d, e, 0.9);
    ExampleSortAbove(a, c, e);
  }

  /** The same records with threshold 0.99: the record scoring 0.99 reaches
      it, so the primary path applies and that record is the only alert. */
  lemma ThresholdMetExactly(a: Scored, b: Scored, c: Scored, d: Scored, e: Scored)
    requires ExampleScores(a, b, c, d, e)
    ensures SelectAlerts([a, b, c, d, e], 0.99, 3) == [e]
  {
    ExampleFilter(a, b, c, d, e, 0.99);
    ExampleSortTail(c, e);
  }

  lemma ExampleOrder(a: Scored, b: Scored, c: Scored, d: Scored, e: Scored)
    requires ExampleScores(a, b, c, d, e)
    ensures multiset([e, a, c, b, d]) == multiset([a, b, c, d, e])
    ensures NonIncreasing([e, a, c, b, d])
  {
    var o := [e, a, c, b, d];
    forall i, j | 0 <= i < j < 5 ensures o[i].riskScore >= o[j].riskScore {
    }
  }

  lemma ScoresOfThree(x: Scored, y: Scored, z: Scored)
    ensures Scores([x, y, z]) == [x.riskScore, y.riskScore, z.riskScore]
  {
    var s := Scores([x, y, z]);
    assert |s| == 3 && s[0] == x.riskScore && s[1] == y.riskScore && s[2] == z.riskScore;
  }

  /** The same records with threshold 1.0: none reaches it, and the
      fallback selects the three highest scores of the whole partition,
      whatever order the sort gives them. */
  lemma ExampleTopThree(test: seq<Scored>, a: Scored, b: Scored, c: Scored, d: Scored, e: Scored)
    requires ExampleScores(a, b, c, d, e)
    requires multiset(test) == multiset([e, a, c, b, d])
    ensures Scores(Head(SortByScoreDesc(test), 3)) == [0.99, 0.95, 0.91]
  {
    var ordered := [e, a, c, b, d];
    assert Scores(Head(SortByScoreDesc(test), 3)) == Scores(Head(ordered, 3)) by {
      ExampleOrder(a, b, c, d, e);
      SelectedScoresIgnoreTieOrder(test, ordered, 3);
    }
    assert Head(ordered, 3) == [e, a, c];
    assert Scores([e, a, c]) == [0.99, 0.95, 0.91] by {
      ScoresOfThree(e, a, c);
    }
  }

  lemma FallbackExample(a: Scored, b: Scored, c: Scored, d: Scored, e: Scored)
    requires ExampleScores(a, b, c, d, e)
    ensures Scores(SelectAlerts([a, b, c, d, e], 1.0, 3)) == [0.99, 0.95, 0.91]
  {
    FallbackPath([a, b, c, d, e], 1.0, 3);
    ExampleOrder(a, b, c, d, e);
    ExampleTopThree([a, b, c, d, e], a, b, c, d, e);
  }
}
