/** Picking the five stocks of the day (`select_top5_stocks`): the best
    scores of at least 30, backfilled with the best remaining scores of at
    least 20, padded with a fixed preset list scored 25. */
module Selection {
  import opened Bars
  import opened Scorer

  /** A scored stock as the screener hands it over, in screener order. */
  datatype Candidate = Candidate(code: string, score: Score)

  /** A selected row; every tier only admits numeric scores. */
  datatype Row = Row(code: string, score: real)

  /** The three tiers of one selection, in output order. */
  datatype Selection = Selection(top: seq<Row>, backfill: seq<Row>, preset: seq<Row>)
  {
    function Rows(): seq<Row>
    {
      top + backfill + preset
    }
  }

  const Count := 5
  const TopThreshold := 30.0
  const BackfillThreshold := 20.0
  const PresetScore := 25.0
  const PresetCodes: seq<string> := ["601899", "600519", "000651", "600028", "601988"]

  predicate Descending(rs: seq<Row>)
  {
    forall i, j :: 0 <= i < j < |rs| ==> rs[i].score >= rs[j].score
  }

  function Codes(rs: seq<Row>): set<string>
  {
    set r | r in rs :: r.code
  }

  /** The candidates whose score is at least `threshold` and whose code is
      not excluded, in screener order. */
  function Eligible(cs: seq<Candidate>, threshold: real, excluded: set<string>): (r: seq<Row>)
    ensures |r| <= |cs|
  {
    if |cs| == 0 then []
    else
      var rest := Eligible(cs[1..], threshold, excluded);
      var c := cs[0];
      if Qualifies(c, threshold, excluded) then [Row(c.code, c.score.value)] + rest else rest
  }

  /** The eligible rows are exactly the rows of the qualifying candidates. */
  lemma {:induction false} EligibleMembers(cs: seq<Candidate>, threshold: real, excluded: set<string>)
    ensures forall x :: x in Eligible(cs, threshold, excluded) ==> x.score >= threshold && x.code !in excluded
    ensures forall x :: x in Eligible(cs, threshold, excluded) ==> Candidate(x.code, Num(x.score)) in cs
    ensures forall c :: c in cs && Qualifies(c, threshold, excluded) ==> Row(c.code, c.score.value) in Eligible(cs, threshold, excluded)
  {
    if |cs| > 0 {
      EligibleMembers(cs[1..], threshold, excluded);
      assert forall c :: c in cs ==> c == cs[0] || c in cs[1..];
    }
  }

  /** Position of the first highest score: pandas `nlargest` keeps the
      earliest row among equal scores. */
  function FirstBest(rs: seq<Row>): (j: nat)
    requires |rs| > 0
    ensures j < |rs|
    ensures forall k :: 0 <= k < |rs| ==> rs[k].score <= rs[j].score
    ensures forall k :: 0 <= k < j ==> rs[k].score < rs[j].score
  {
    if |rs| == 1 then 0
    else
      var j' := FirstBest(rs[..|rs| - 1]);
      if rs[|rs| - 1].score > rs[j'].score then |rs| - 1 else j'
  }

  function Remove(rs: seq<Row>, j: nat): (r: seq<Row>)
    requires j < |rs|
    ensures |r| == |rs| - 1
    ensures multiset(r) == multiset(rs) - multiset{rs[j]}
  {
    assert rs == rs[..j] + [rs[j]] + rs[j + 1..];
    rs[..j] + rs[j + 1..]
  }

  /** `r` is an `n` largest of `rs`: as many rows as fit, drawn from `rs`,
      best first, no row left out scoring above a kept one, and every row
      when all fit. */
  predicate Largest(rs: seq<Row>, n: nat, r: seq<Row>)
  {
    && |r| == (if n < |rs| then n else |rs|)
    && multiset(r) <= multiset(rs)
    && Descending(r)
    && (forall x, i :: x in multiset(rs) - multiset(r) && 0 <= i < |r| ==> x.score <= r[i].score)
    && (n >= |rs| ==> multiset(r) == multiset(rs))
  }

  /** pandas `nlargest(n, score)`: the first best row, then the `n - 1`
      largest of the others. */
  function NLargest(rs: seq<Row>, n: nat): (r: seq<Row>)
    ensures |r| == if n < |rs| then n else |rs|
    ensures multiset(r) <= multiset(rs)
    ensures Descending(r)
    ensures forall x, i :: x in multiset(rs) - multiset(r) && 0 <= i < |r| ==> x.score <= r[i].score
    ensures n >= |rs| ==> multiset(r) == multiset(rs)
    ensures forall x :: x in r <==> Picks(rs, n, x)
    decreases n
  {
    if n == 0 || |rs| == 0 then
      PicksNone(rs, n);
      []
    else
      var j := FirstBest(rs);
      var rest := NLargest(Remove(rs, j), n - 1);
      NLargestCons(rs, n, j, rest);
      PicksStep(rs, n, j, rest);
      [rs[j]] + rest
  }

  /** The `n - 1` largest of the others, led by the first best row, are the
      `n` largest. */
  lemma NLargestCons(rs: seq<Row>, n: nat, j: nat, rest: seq<Row>)
    requires n > 0 && |rs| > 0 && j == FirstBest(rs)
    requires Largest(Remove(rs, j), n - 1, rest)
    ensures Largest(rs, n, [rs[j]] + rest)
  {
    NLargestStep(rs, j, rest);
    KeepsAll(rs, j, rest);
  }

  /** Nothing is picked from no rows or for no places. */
  lemma PicksNone(rs: seq<Row>, n: nat)
    requires n == 0 || |rs| == 0
    ensures forall x :: !Picks(rs, n, x)
  {
  }

  /** The step that keeps `NLargest` in step with `Picks`. */
  lemma PicksStep(rs: seq<Row>, n: nat, j: nat, rest: seq<Row>)
    requires n > 0 && |rs| > 0 && j == FirstBest(rs)
    requires forall x :: x in rest <==> Picks(Remove(rs, j), n - 1, x)
    ensures forall x :: x in [rs[j]] + rest <==> Picks(rs, n, x)
  {
  }

  /** The step that extends the `n - 1` largest of the others by the best row. */
  lemma NLargestStep(rs: seq<Row>, j: nat, rest: seq<Row>)
    requires j < |rs|
    requires forall k :: 0 <= k < |rs| ==> rs[k].score <= rs[j].score
    requires multiset(rest) <= multiset(Remove(rs, j))
    requires Descending(rest)
    requires forall x, i :: x in multiset(Remove(rs, j)) - multiset(rest) && 0 <= i < |rest| ==> x.score <= rest[i].score
    ensures multiset([rs[j]] + rest) <= multiset(rs)
    ensures Descending([rs[j]] + rest)
    ensures forall x, i :: x in multiset(rs) - multiset([rs[j]] + rest) && 0 <= i < |[rs[j]] + rest| ==> x.score <= ([rs[j]] + rest)[i].score
  {
    BestBoundsAll(rs, j);
    BelowBest(rs, j, rest);
    ConsDescending(rs[j], rest);
    ConsComplete(rs, j, rest);
  }

  lemma KeepsAll(rs: seq<Row>, j: nat, rest: seq<Row>)
    requires j < |rs|
    ensures multiset(rest) == multiset(Remove(rs, j)) ==> multiset([rs[j]] + rest) == multiset(rs)
  {
    assert multiset([rs[j]] + rest) == multiset{rs[j]} + multiset(rest);
  }

  /** A row of `rs` that `NLargest` leaves out: the result is full, and
      every row of it scores at least as high. */
  lemma LeftOut(rs: seq<Row>, n: nat, x: Row)
    requires x in rs && x !in NLargest(rs, n)
    ensures |NLargest(rs, n)| == n
    ensures forall i :: 0 <= i < n ==> x.score <= NLargest(rs, n)[i].score
  {
    var r := NLargest(rs, n);
    assert x in multiset(rs);
    assert x !in multiset(r);
    assert x in multiset(rs) - multiset(r);
  }

  lemma BestBoundsAll(rs: seq<Row>, j: nat)
    requires j < |rs|
    requires forall k :: 0 <= k < |rs| ==> rs[k].score <= rs[j].score
    ensures forall x :: x in multiset(rs) ==> x.score <= rs[j].score
  {
    forall x | x in multiset(rs)
      ensures x.score <= rs[j].score
    {
      var k :| 0 <= k < |rs| && rs[k] == x;
    }
  }

  lemma BelowBest(rs: seq<Row>, j: nat, rest: seq<Row>)
    requires j < |rs|
    requires forall x :: x in multiset(rs) ==> x.score <= rs[j].score
    requires multiset(rest) <= multiset(Remove(rs, j))
    ensures forall i :: 0 <= i < |rest| ==> rest[i].score <= rs[j].score
  {
    forall i | 0 <= i < |rest|
      ensures rest[i].score <= rs[j].score
    {
      assert rest[i] in multiset(rest);
    }
  }

  lemma ConsDescending(h: Row, rest: seq<Row>)
    requires Descending(rest)
    requires forall i :: 0 <= i < |rest| ==> rest[i].score <= h.score
    ensures Descending([h] + rest)
  {
    var r := [h] + rest;
    forall i, j | 0 <= i < j < |r|
      ensures r[i].score >= r[j].score
    {
      assert r[j] == rest[j - 1];
      if i > 0 {
        assert r[i] == rest[i - 1];
      }
    }
  }

  lemma ConsComplete(rs: seq<Row>, j: nat, rest: seq<Row>)
    requires j < |rs|
    requires forall x :: x in multiset(rs) ==> x.score <= rs[j].score
    requires multiset(rest) <= multiset(Remove(rs, j))
    requires forall x, i :: x in multiset(Remove(rs, j)) - multiset(rest) && 0 <= i < |rest| ==> x.score <= rest[i].score
    ensures multiset([rs[j]] + rest) <= multiset(rs)
    ensures forall x, i :: x in multiset(rs) - multiset([rs[j]] + rest) && 0 <= i < |[rs[j]] + rest| ==> x.score <= ([rs[j]] + rest)[i].score
  {
    var r := [rs[j]] + rest;
    var others := Remove(rs, j);
    assert multiset(r) == multiset{rs[j]} + multiset(rest);
    assert multiset(rs) == multiset(others) + multiset{rs[j]};
    var gone := multiset(rs) - multiset(r);
    assert gone == multiset(others) - multiset(rest);
    ConsRanks(rs[j], rest, gone);
  }

  /** Prepending a row that beats every left-out row keeps them all below. */
  lemma ConsRanks(h: Row, rest: seq<Row>, gone: multiset<Row>)
    requires forall x :: x in gone ==> x.score <= h.score
    requires forall x, i :: x in gone && 0 <= i < |rest| ==> x.score <= rest[i].score
    ensures forall x, i :: x in gone && 0 <= i < |[h] + rest| ==> x.score <= ([h] + rest)[i].score
  {
    forall x, i | x in gone && 0 <= i < |[h] + rest|
      ensures x.score <= ([h] + rest)[i].score
    {
      if i > 0 {
        assert ([h] + rest)[i] == rest[i - 1];
      }
    }
  }

  /** Whether `nlargest(n)` keeps row `x`, stated step by step. */
  predicate Picks(rs: seq<Row>, n: nat, x: Row)
    decreases n
  {
    n > 0 && |rs| > 0 && (x == rs[FirstBest(rs)] || Picks(Remove(rs, FirstBest(rs)), n - 1, x))
  }

  /** The rows after the removed one move down by one place. */
  lemma RemoveAt(rs: seq<Row>, b: nat, i: nat)
    requires b < |rs| && i < |rs| - 1
    ensures Remove(rs, b)[i] == rs[if i < b then i else i + 1]
  {
  }

  /** No row before the first best one scores as high. */
  lemma FirstBestFirst(rs: seq<Row>, j: nat)
    requires j < |rs| && rs[j].score >= rs[FirstBest(rs)].score
    ensures FirstBest(rs) <= j
  {
  }

  /** Row `x` occurs in `rs` before position `j`. */
  predicate Earlier(rs: seq<Row>, j: nat, x: Row)
  {
    exists q :: 0 <= q < j && q < |rs| && rs[q] == x
  }

  lemma EarlierAt(rs: seq<Row>, q: nat, j: nat)
    requires q < j && q < |rs|
    ensures Earlier(rs, j, rs[q])
  {
  }

  /** A row occurring early in `rs` with one row removed occurs early in
      `rs`. */
  lemma EarlierRemoved(rs: seq<Row>, b: nat, j: nat, x: Row)
    requires b < |rs| && b != j
    requires Earlier(Remove(rs, b), if j < b then j else j - 1, x)
    ensures Earlier(rs, j, x)
  {
    var j' := if j < b then j else j - 1;
    var q :| 0 <= q < j' && q < |Remove(rs, b)| && Remove(rs, b)[q] == x;
    RemoveAt(rs, b, q);
    EarlierAt(rs, if q < b then q else q + 1, j);
  }

  /** Two positions other than `b` after removing the row at `b`. */
  lemma ShiftPair(rs: seq<Row>, b: nat, j: nat, k: nat) returns (j': nat, k': nat)
    requires b < |rs| && j < k < |rs| && j != b && k != b
    ensures j' < k' < |Remove(rs, b)| && j' == (if j < b then j else j - 1)
    ensures Remove(rs, b)[j'] == rs[j] && Remove(rs, b)[k'] == rs[k]
  {
    j' := if j < b then j else j - 1;
    k' := if k < b then k else k - 1;
    RemoveAt(rs, b, j');
    RemoveAt(rs, b, k');
  }

  /** Ties in `Picks` keep the earlier row: of two rows with equal scores,
      the later one is picked only when the earlier one is picked too,
      unless the later row already occurs before the earlier one. */
  lemma {:induction false} PicksFirst(rs: seq<Row>, n: nat, j: nat, k: nat)
    requires j < k < |rs| && rs[j].score == rs[k].score
    requires Picks(rs, n, rs[k])
    ensures Picks(rs, n, rs[j]) || Earlier(rs, j, rs[k])
    decreases n
  {
    var b := FirstBest(rs);
    var others := Remove(rs, b);
    if rs[j] == rs[b] {
    } else if rs[k] == rs[b] {
      FirstBestFirst(rs, j);
      EarlierAt(rs, b, j);
    } else {
      var j', k' := ShiftPair(rs, b, j, k);
      PicksFirst(others, n - 1, j', k');
      if !Picks(others, n - 1, others[j']) {
        EarlierRemoved(rs, b, j, rs[k]);
      }
    }
  }

  /** Ties keep the earlier row (`keep='first'`): of two rows with equal
      scores, the later one is kept only when the earlier one is kept too,
      unless the later row already occurs before the earlier one. */
  lemma TiesKeepFirst(rs: seq<Row>, n: nat, j: nat, k: nat)
    requires j < k < |rs| && rs[j].score == rs[k].score
    requires rs[k] in NLargest(rs, n)
    ensures rs[j] in NLargest(rs, n) || Earlier(rs, j, rs[k])
  {
    PicksFirst(rs, n, j, k);
  }

  function PresetRows(n: nat): (r: seq<Row>)
    requires n <= |PresetCodes|
    ensures |r| == n
    ensures forall i :: 0 <= i < n ==> r[i] == Row(PresetCodes[i], PresetScore)
  {
    seq(n, i requires 0 <= i < n => Row(PresetCodes[i], PresetScore))
  }

  lemma SubMembers(r: seq<Row>, rs: seq<Row>)
    requires multiset(r) <= multiset(rs)
    ensures forall x :: x in r ==> x in rs
  {
    forall x | x in r
      ensures x in rs
    {
      assert x in multiset(r);
    }
  }

  /** A candidate that a tier of threshold `threshold` excluding `excluded` admits. */
  predicate Qualifies(c: Candidate, threshold: real, excluded: set<string>)
  {
    AtLeast(c.score, threshold) && c.code !in excluded
  }

  /** A row that stands for a candidate of the screener output. */
  predicate Listed(x: Row, cs: seq<Candidate>)
  {
    Candidate(x.code, Num(x.score)) in cs
  }

  /** Every row of `r` admitted to a tier of threshold `threshold` that excludes `excluded`. */
  predicate Admitted(r: seq<Row>, cs: seq<Candidate>, threshold: real, excluded: set<string>)
  {
    forall x :: x in r ==> x.score >= threshold && x.code !in excluded && Listed(x, cs)
  }

  /** A tier `r` of at most `full` rows ranks the candidates: a candidate
      it admits but leaves out means it is full of scores at least as
      high. */
  predicate Ranks(r: seq<Row>, cs: seq<Candidate>, threshold: real, excluded: set<string>, full: nat)
  {
    forall c :: c in cs && Qualifies(c, threshold, excluded) && Row(c.code, c.score.value) !in r ==>
      |r| == full && forall i :: 0 <= i < |r| ==> c.score.value <= r[i].score
  }

  /** The `n` best rows of at least `threshold` among the candidates whose
      code is not excluded: as many as there are, up to `n`, and no eligible
      row more often than the filter lists it. */
  function Tier(cs: seq<Candidate>, threshold: real, excluded: set<string>, n: nat): (r: seq<Row>)
    ensures |r| <= n && Descending(r)
    ensures var e := Eligible(cs, threshold, excluded);
      |r| == (if n < |e| then n else |e|) && multiset(r) <= multiset(e)
    ensures Admitted(r, cs, threshold, excluded)
    ensures Ranks(r, cs, threshold, excluded, n)
  {
    var e := Eligible(cs, threshold, excluded);
    var r := NLargest(e, n);
    EligibleMembers(cs, threshold, excluded);
    TierAdmits(cs, threshold, excluded, n, r);
    AllLeftOut(e, n);
    TierRanks(cs, threshold, excluded, n, e, r);
    r
  }

  lemma TierAdmits(cs: seq<Candidate>, threshold: real, excluded: set<string>, n: nat, r: seq<Row>)
    requires r == NLargest(Eligible(cs, threshold, excluded), n)
    ensures Admitted(r, cs, threshold, excluded)
  {
    EligibleMembers(cs, threshold, excluded);
    SubMembers(r, Eligible(cs, threshold, excluded));
  }

  /** Every qualifying candidate eligible, and every eligible row left out
      of a full tier below all of it: the tier ranks the candidates. */
  lemma TierRanks(cs: seq<Candidate>, threshold: real, excluded: set<string>, n: nat, e: seq<Row>, r: seq<Row>)
    requires forall c :: c in cs && Qualifies(c, threshold, excluded) ==> Row(c.code, c.score.value) in e
    requires forall x :: x in e && x !in r ==> |r| == n && forall i :: 0 <= i < |r| ==> x.score <= r[i].score
    ensures Ranks(r, cs, threshold, excluded, n)
  {
    forall c | c in cs && Qualifies(c, threshold, excluded) && Row(c.code, c.score.value) !in r
      ensures |r| == n && forall i :: 0 <= i < |r| ==> c.score.value <= r[i].score
    {
      assert Row(c.code, c.score.value) in e;
    }
  }

  /** Filtering distributes over concatenation. */
  lemma {:induction false} EligibleAppend(xs: seq<Candidate>, ys: seq<Candidate>, threshold: real, excluded: set<string>)
    ensures Eligible(xs + ys, threshold, excluded) == Eligible(xs, threshold, excluded) + Eligible(ys, threshold, excluded)
  {
    if |xs| == 0 {
      assert xs + ys == ys;
    } else {
      assert (xs + ys)[1..] == xs[1..] + ys;
      assert (xs + ys)[0] == xs[0];
      EligibleAppend(xs[1..], ys, threshold, excluded);
    }
  }

  /** The position of a qualifying candidate's row among the eligible rows. */
  lemma EligibleIndex(cs: seq<Candidate>, threshold: real, excluded: set<string>, b: nat) returns (k: nat)
    requires b < |cs| && Qualifies(cs[b], threshold, excluded)
    ensures k < |Eligible(cs, threshold, excluded)|
    ensures Eligible(cs, threshold, excluded)[k] == Row(cs[b].code, cs[b].score.value)
  {
    var e := Eligible(cs, threshold, excluded);
    EligibleMembers(cs, threshold, excluded);
    assert cs[b] in cs;
    assert Row(cs[b].code, cs[b].score.value) in e;
    k :| 0 <= k < |e| && e[k] == Row(cs[b].code, cs[b].score.value);
  }

  /** Two qualifying candidates keep their screener order among the
      eligible rows, and the rows before the first are those of the
      earlier candidates. */
  lemma EligibleOrder(cs: seq<Candidate>, threshold: real, excluded: set<string>, a: nat, b: nat)
    returns (j: nat, k: nat)
    requires a < b < |cs|
    requires Qualifies(cs[a], threshold, excluded) && Qualifies(cs[b], threshold, excluded)
    ensures j < k < |Eligible(cs, threshold, excluded)|
    ensures Eligible(cs, threshold, excluded)[j] == Row(cs[a].code, cs[a].score.value)
    ensures Eligible(cs, threshold, excluded)[k] == Row(cs[b].code, cs[b].score.value)
    ensures Eligible(cs, threshold, excluded)[..j] == Eligible(cs[..a], threshold, excluded)
  {
    EligibleSplit(cs, threshold, excluded, a);
    var after := cs[a + 1..];
    assert after[b - a - 1] == cs[b];
    var k' := EligibleIndex(after, threshold, excluded, b - a - 1);
    var e, eb, ea := Eligible(cs, threshold, excluded), Eligible(cs[..a], threshold, excluded), Eligible(after, threshold, excluded);
    j, k := |eb|, |eb| + 1 + k';
    assert e[j] == Row(cs[a].code, cs[a].score.value) && e[k] == ea[k'];
    assert e[..j] == eb;
  }

  /** The eligible rows around a qualifying candidate: those of the earlier
      candidates, its own, those of the later ones. */
  lemma EligibleSplit(cs: seq<Candidate>, threshold: real, excluded: set<string>, a: nat)
    requires a < |cs| && Qualifies(cs[a], threshold, excluded)
    ensures Eligible(cs, threshold, excluded)
      == Eligible(cs[..a], threshold, excluded) + [Row(cs[a].code, cs[a].score.value)] + Eligible(cs[a + 1..], threshold, excluded)
  {
    var from := cs[a..];
    assert cs == cs[..a] + from;
    EligibleAppend(cs[..a], from, threshold, excluded);
    assert from[0] == cs[a];
    assert from[1..] == cs[a + 1..];
  }

  /** A row occurring among the eligible rows before the row of candidate
      `a` stands for a candidate before `a`. */
  lemma EarlierListed(cs: seq<Candidate>, threshold: real, excluded: set<string>, a: nat, j: nat, x: Row)
    requires a <= |cs| && j <= |Eligible(cs, threshold, excluded)|
    requires Eligible(cs, threshold, excluded)[..j] == Eligible(cs[..a], threshold, excluded)
    requires Earlier(Eligible(cs, threshold, excluded), j, x)
    ensures Candidate(x.code, Num(x.score)) in cs[..a]
  {
    var e := Eligible(cs, threshold, excluded);
    var q :| 0 <= q < j && q < |e| && e[q] == x;
    assert e[..j][q] == x;
    EligibleMembers(cs[..a], threshold, excluded);
  }

  /** `NLargest` over the eligible rows breaks ties in screener order. */
  lemma EligibleTies(cs: seq<Candidate>, threshold: real, excluded: set<string>, n: nat, a: nat, b: nat)
    requires a < b < |cs|
    requires Qualifies(cs[a], threshold, excluded) && Qualifies(cs[b], threshold, excluded)
    requires cs[a].score == cs[b].score
    requires Row(cs[b].code, cs[b].score.value) in NLargest(Eligible(cs, threshold, excluded), n)
    ensures Row(cs[a].code, cs[a].score.value) in NLargest(Eligible(cs, threshold, excluded), n) || cs[b] in cs[..a]
  {
    var j, k := EligibleOrder(cs, threshold, excluded, a, b);
    TiesKeepFirst(Eligible(cs, threshold, excluded), n, j, k);
    if !(Row(cs[a].code, cs[a].score.value) in NLargest(Eligible(cs, threshold, excluded), n)) {
      EarlierListed(cs, threshold, excluded, a, j, Row(cs[b].code, cs[b].score.value));
      assert Candidate(cs[b].code, Num(cs[b].score.value)) == cs[b];
    }
  }

  /** A tier breaks ties in screener order: of two qualifying candidates
      with equal scores, the later one enters the tier only when the
      earlier one does, unless the later one was listed before. */
  lemma TierKeepsFirst(cs: seq<Candidate>, threshold: real, excluded: set<string>, n: nat, a: nat, b: nat)
    requires a < b < |cs|
    requires Qualifies(cs[a], threshold, excluded) && Qualifies(cs[b], threshold, excluded)
    requires cs[a].score == cs[b].score
    requires Row(cs[b].code, cs[b].score.value) in Tier(cs, threshold, excluded, n)
    ensures Row(cs[a].code, cs[a].score.value) in Tier(cs, threshold, excluded, n) || cs[b] in cs[..a]
  {
    assert Tier(cs, threshold, excluded, n) == NLargest(Eligible(cs, threshold, excluded), n);
    EligibleTies(cs, threshold, excluded, n, a, b);
  }

  /** `LeftOut` for every row at once. */
  lemma AllLeftOut(rs: seq<Row>, n: nat)
    ensures forall x :: x in rs && x !in NLargest(rs, n) ==>
      |NLargest(rs, n)| == n && forall i :: 0 <= i < |NLargest(rs, n)| ==> x.score <= NLargest(rs, n)[i].score
  {
    forall x | x in rs && x !in NLargest(rs, n)
      ensures |NLargest(rs, n)| == n && forall i :: 0 <= i < |NLargest(rs, n)| ==> x.score <= NLargest(rs, n)[i].score
    {
      LeftOut(rs, n, x);
    }
  }

  /** The selection over the scored screener output. The tiers rank: a
      candidate of at least 30 left out of the top tier means the top tier
      is full of scores at least as high; a candidate of at least 20 left
      out of the backfill means the backfill is full (no preset row) of
      scores at least as high. Each tier takes as many eligible rows as
      there are, up to the places left, so presets pad only what the tiers
      cannot fill. */
  function Select(cs: seq<Candidate>): (s: Selection)
    ensures |s.Rows()| == Count
    ensures |s.top| <= Count && Descending(s.top)
    ensures Admitted(s.top, cs, TopThreshold, {})
    ensures |s.top| == Count ==> s.backfill == [] && s.preset == []
    ensures Descending(s.backfill)
    ensures Admitted(s.backfill, cs, BackfillThreshold, Codes(s.top))
    ensures forall i :: 0 <= i < |s.preset| ==> s.preset[i] == Row(PresetCodes[i], PresetScore)
    ensures Ranks(s.top, cs, TopThreshold, {}, Count)
    ensures Ranks(s.backfill, cs, BackfillThreshold, Codes(s.top), Count - |s.top|)
    ensures var e := Eligible(cs, TopThreshold, {});
      |s.top| == (if Count < |e| then Count else |e|) && multiset(s.top) <= multiset(e)
    ensures |s.top| < Count ==> var e := Eligible(cs, BackfillThreshold, Codes(s.top));
      |s.backfill| == (if Count - |s.top| < |e| then Count - |s.top| else |e|)
    ensures |s.top| < Count ==> multiset(s.backfill) <= multiset(Eligible(cs, BackfillThreshold, Codes(s.top)))
  {
    var top := Tier(cs, TopThreshold, {}, Count);
    if |top| == Count then Selection(top, [], [])
    else
      var backfill := Tier(cs, BackfillThreshold, Codes(top), Count - |top|);
      Selection(top, backfill, PresetRows(Count - |top| - |backfill|))
  }

  /** The top tier of a selection is the tier of the scores of at least 30. */
  lemma SelectTop(cs: seq<Candidate>)
    ensures Select(cs).top == Tier(cs, TopThreshold, {}, Count)
  {
  }

  /** Below five top rows, the backfill is the tier of the remaining scores
      of at least 20. */
  lemma SelectBackfill(cs: seq<Candidate>)
    ensures var top := Tier(cs, TopThreshold, {}, Count);
      |top| < Count ==> Select(cs).backfill == Tier(cs, BackfillThreshold, Codes(top), Count - |top|)
  {
  }

  /** Of two candidates `a < b` with numeric scores, `b`'s row is in `r`
      only when `a`'s row is, unless candidate `b` was already listed before
      `a`. */
  predicate KeepsFirst(r: seq<Row>, cs: seq<Candidate>, a: nat, b: nat)
    requires a < b < |cs| && cs[a].score.Num? && cs[b].score.Num?
  {
    Row(cs[b].code, cs[b].score.value) in r ==> Row(cs[a].code, cs[a].score.value) in r || cs[b] in cs[..a]
  }

  /** The top tier breaks ties in screener order: of two candidates of at
      least 30 with equal scores, the earlier one is kept whenever the later
      one is. */
  lemma SelectTopKeepsFirst(cs: seq<Candidate>, a: nat, b: nat)
    requires a < b < |cs| && cs[a].score == cs[b].score
    requires Qualifies(cs[a], TopThreshold, {}) && Qualifies(cs[b], TopThreshold, {})
    ensures KeepsFirst(Select(cs).top, cs, a, b)
  {
    SelectTop(cs);
    TierKeeps(cs, TopThreshold, {}, Count, a, b);
  }

  /** `TierKeepsFirst` in the form of `KeepsFirst`. */
  lemma TierKeeps(cs: seq<Candidate>, threshold: real, excluded: set<string>, n: nat, a: nat, b: nat)
    requires a < b < |cs|
    requires Qualifies(cs[a], threshold, excluded) && Qualifies(cs[b], threshold, excluded)
    requires cs[a].score == cs[b].score
    ensures KeepsFirst(Tier(cs, threshold, excluded, n), cs, a, b)
  {
    if Row(cs[b].code, cs[b].score.value) in Tier(cs, threshold, excluded, n) {
      TierKeepsFirst(cs, threshold, excluded, n, a, b);
    }
  }

  /** One stock of the tradable pool with the data its score is computed from. */
  datatype Stock = Stock(code: string, history: seq<Bar>, listed: bool)

  /** Scores the whole pool, in pool order. No screened score reaches the
      top threshold of 30. */
  function Screen(pool: seq<Stock>): (cs: seq<Candidate>)
    requires forall k :: 0 <= k < |pool| ==> PositiveCloses(pool[k].history)
    ensures |cs| == |pool|
    ensures forall k :: 0 <= k < |pool| ==> cs[k] == Candidate(pool[k].code, ShortTermScore(pool[k].history, pool[k].listed))
    ensures forall k :: 0 <= k < |cs| ==> !AtLeast(cs[k].score, TopThreshold)
  {
    PoolBelowTop(pool);
    seq(|pool|, k requires 0 <= k < |pool| => Candidate(pool[k].code, ShortTermScore(pool[k].history, pool[k].listed)))
  }

  /** Every stock of the pool scores below the top threshold. */
  lemma PoolBelowTop(pool: seq<Stock>)
    requires forall k :: 0 <= k < |pool| ==> PositiveCloses(pool[k].history)
    ensures forall k :: 0 <= k < |pool| ==> !AtLeast(ShortTermScore(pool[k].history, pool[k].listed), TopThreshold)
  {
    forall k | 0 <= k < |pool|
      ensures !AtLeast(ShortTermScore(pool[k].history, pool[k].listed), TopThreshold)
    {
      ScoreNeverReachesThirty(pool[k].history, pool[k].listed);
    }
  }

  /** When no candidate reaches the top threshold the top tier is empty. */
  lemma EmptyTop(cs: seq<Candidate>)
    requires forall k :: 0 <= k < |cs| ==> !AtLeast(cs[k].score, TopThreshold)
    ensures Select(cs).top == []
  {
    NoneEligible(cs, TopThreshold, {});
    assert Tier(cs, TopThreshold, {}, Count) == NLargest([], Count) == [];
  }

  /** No candidate reaching the threshold leaves none eligible. */
  lemma {:induction false} NoneEligible(cs: seq<Candidate>, threshold: real, excluded: set<string>)
    requires forall k :: 0 <= k < |cs| ==> !AtLeast(cs[k].score, threshold)
    ensures Eligible(cs, threshold, excluded) == []
  {
    if |cs| > 0 {
      NoneEligible(cs[1..], threshold, excluded);
    }
  }

  /** Since no score reaches 30, the top tier of a screened pool is always
      empty and the five rows come from the backfill and the presets. */
  lemma TopTierUnreachable(pool: seq<Stock>)
    requires forall k :: 0 <= k < |pool| ==> PositiveCloses(pool[k].history)
    ensures Select(Screen(pool)).top == []
    ensures |Select(Screen(pool)).backfill| + |Select(Screen(pool)).preset| == Count
  {
    EmptyTop(Screen(pool));
  }
}
