/**
  Exact token accounting.  The prompt is rendered after each group of messages (a tool call together
  with its results), the growth of the render is the group's tokens, and the group's tokens are split
  over its messages in proportion to their weights.
 */
module Budget {
  import opened Prelude

  /** What accounting needs to know of a message.  Its weight is its own token count plus one. */
  datatype Entry = Entry(assistant: bool, tool: bool, calls: nat, category: string, tokens: nat)

  function Weight(e: Entry): nat {
    e.tokens + 1
  }

  function Sum(s: seq<int>): int {
    if s == [] then 0 else Sum(s[..|s| - 1]) + s[|s| - 1]
  }

  function Weights(group: seq<Entry>): (r: seq<int>)
    ensures |r| == |group|
    ensures forall i :: 0 <= i < |group| ==> r[i] == group[i].tokens + 1
  {
    seq(|group|, i requires 0 <= i < |group| => Weight(group[i]))
  }

  // ----- splitting a group --------------------------------------------------------------------

  /** Rounds a non-negative quotient to the nearest integer, halves up. */
  function Round(a: nat, b: nat): nat
    requires b > 0
  {
    (2 * a + b) / (2 * b)
  }

  function Share(tokens: nat, weight: int, total: nat): nat
    requires total > 0 && weight > 0
  {
    Round(tokens * weight, total)
  }

  /** Half a token for each of `n` shares, multiplied by twice the total weight. */
  function Halves(n: int, total: int): int {
    n * total
  }

  /**
    `share` is within `slack / (2 * total)` of the proportional part of a message of this weight:
    both sides are multiplied by twice the total weight.
   */
  predicate Near(total: int, share: int, tokens: int, weight: int, slack: int) {
    -slack <= 2 * (total * share) - 2 * (tokens * weight) <= slack
  }

  lemma RoundIsNear(tokens: nat, weight: nat, total: nat)
    requires total > 0 && weight > 0
    ensures Near(total, Share(tokens, weight, total), tokens, weight, total)
  {
    var a := tokens * weight;
    var q := Round(a, total);
    assert 2 * total * q <= 2 * a + total < 2 * total * q + 2 * total;
    assert 2 * total * q == 2 * (total * q);
  }

  /** The rounded shares of the first `n` messages of a group of `tokens` tokens. */
  function Rounded(tokens: nat, weights: seq<int>, total: nat, n: nat): (r: seq<int>)
    requires n <= |weights| && total > 0
    requires forall i :: 0 <= i < |weights| ==> weights[i] > 0
    ensures |r| == n
    ensures forall i :: 0 <= i < n ==> r[i] == Share(tokens, weights[i], total)
  {
    seq(n, i requires 0 <= i < n => Share(tokens, weights[i], total))
  }

  ghost predicate Weighted(weights: seq<int>) {
    weights != [] && forall i :: 0 <= i < |weights| ==> weights[i] > 0
  }

  lemma {:induction false} SumPositive(s: seq<int>)
    requires forall i :: 0 <= i < |s| ==> s[i] > 0
    ensures Sum(s) >= |s|
  {
    if s != [] {
      SumPositive(s[..|s| - 1]);
    }
  }

  /**
    `shares` splits `tokens` over the weights: they add up to the group, every share but the last is
    within half a token of its proportional part, and the last one, which takes what is left, within
    half a token for each of the others.
   */
  ghost predicate Splits(tokens: nat, weights: seq<int>, shares: seq<int>) {
    && |shares| == |weights| >= 1
    && Sum(shares) == tokens
    && (forall i :: 0 <= i < |weights| - 1 ==> Near(Sum(weights), shares[i], tokens, weights[i], Sum(weights)))
    && (var last := |weights| - 1; Near(Sum(weights), shares[last], tokens, weights[last], Halves(last, Sum(weights))))
  }

  lemma SumSnoc(s: seq<int>, x: int)
    ensures Sum(s + [x]) == Sum(s) + x
  {
    assert (s + [x])[..|s|] == s;
  }

  lemma {:induction false} SumConcat(a: seq<int>, b: seq<int>)
    ensures Sum(a + b) == Sum(a) + Sum(b)
    decreases |b|
  {
    if b == [] {
      assert a + b == a;
    } else {
      var front, last := b[..|b| - 1], b[|b| - 1];
      assert a + b == a + front + [last];
      SumConcat(a, front);
      SumSnoc(a + front, last);
    }
  }

  lemma NearStep(tokens: int, total: int, sum: int, share: int, weight: int, w: int, n: int)
    requires Near(total, sum, tokens, weight, Halves(n - 1, total)) && Near(total, share, tokens, w, total)
    ensures Near(total, sum + share, tokens, weight + w, Halves(n, total))
  {
    assert total * (sum + share) == total * sum + total * share;
    assert tokens * (weight + w) == tokens * weight + tokens * w;
    assert (n - 1) * total == n * total - total;
  }

  lemma NearRest(tokens: int, total: int, sum: int, weight: int, w: int, n: int)
    requires Near(total, sum, tokens, weight, Halves(n, total)) && total == weight + w
    ensures Near(total, tokens - sum, tokens, w, Halves(n, total))
  {
    assert total * (tokens - sum) == total * tokens - total * sum;
    assert tokens * (weight + w) == tokens * weight + tokens * w;
  }

  lemma NearNothing(tokens: int, total: int)
    ensures Near(total, 0, tokens, 0, Halves(0, total))
  {
  }

  /** Rounding errors add up to at most half a token per rounded share. */
  lemma {:induction false} RoundedDrift(tokens: nat, weights: seq<int>, total: nat, n: nat)
    requires n <= |weights| && total > 0
    requires forall i :: 0 <= i < |weights| ==> weights[i] > 0
    ensures Near(total, Sum(Rounded(tokens, weights, total, n)), tokens, Sum(weights[..n]), Halves(n, total))
  {
    hide Near, Share, Halves;
    if n == 0 {
      NearNothing(tokens, total);
    } else {
      RoundedDrift(tokens, weights, total, n - 1);
      var a, b := Rounded(tokens, weights, total, n - 1), Rounded(tokens, weights, total, n);
      assert b == a + [b[n - 1]];
      SumSnoc(a, b[n - 1]);
      assert weights[..n] == weights[..n - 1] + [weights[n - 1]];
      SumSnoc(weights[..n - 1], weights[n - 1]);
      RoundIsNear(tokens, weights[n - 1], total);
      NearStep(tokens, total, Sum(a), b[n - 1], Sum(weights[..n - 1]), weights[n - 1], n);
    }
  }

  /** How a group is split: every share but the last is rounded, and the last one takes what is left. */
  function SharesOf(tokens: nat, weights: seq<int>): (r: seq<int>)
    requires Weighted(weights)
    ensures |r| == |weights|
  {
    SumPositive(weights);
    var rounded := Rounded(tokens, weights, Sum(weights), |weights| - 1);
    rounded + [tokens - Sum(rounded)]
  }

  /** The shares are the ones computed, and they split the group fairly. */
  ghost predicate Divides(tokens: nat, weights: seq<int>, shares: seq<int>) {
    Weighted(weights) && shares == SharesOf(tokens, weights) && Splits(tokens, weights, shares)
  }

  lemma RoundedSplits(tokens: nat, weights: seq<int>, total: nat, rounded: seq<int>)
    requires Weighted(weights) && total == Sum(weights) > 0
    requires rounded == Rounded(tokens, weights, total, |weights| - 1)
    ensures Splits(tokens, weights, rounded + [tokens - Sum(rounded)])
  {
    hide Near, Share, Halves;
    var last := |weights| - 1;
    assert Sum(weights) == Sum(weights[..last]) + weights[last];
    hide Sum;
    RoundedDrift(tokens, weights, total, last);
    NearRest(tokens, total, Sum(rounded), Sum(weights[..last]), weights[last], last);
    SumSnoc(rounded, tokens - Sum(rounded));
    forall k | 0 <= k < last
      ensures Near(total, rounded[k], tokens, weights[k], total)
    {
      RoundIsNear(tokens, weights[k], total);
    }
  }

  method TotalWeight(weights: seq<int>) returns (total: nat)
    requires Weighted(weights)
    ensures total == Sum(weights) > 0
  {
    total := 0;
    var i := 0;
    while i < |weights|
      invariant 0 <= i <= |weights| && total == Sum(weights[..i])
    {
      assert weights[..i + 1] == weights[..i] + [weights[i]];
      SumSnoc(weights[..i], weights[i]);
      total := total + weights[i];
      i := i + 1;
    }
    assert weights[..i] == weights;
    SumPositive(weights);
  }

  /** The inner loop of the exact branch: round every share but the last, which takes the rest. */
  method SplitGroup(tokens: nat, weights: seq<int>) returns (shares: seq<int>)
    requires Weighted(weights)
    ensures Divides(tokens, weights, shares)
  {
    hide Splits, Share;
    var total := TotalWeight(weights);
    shares := [];
    var given, offset := 0, 0;
    while offset < |weights| - 1
      invariant 0 <= offset <= |weights| - 1
      invariant shares == Rounded(tokens, weights, total, offset) && given == Sum(shares)
    {
      var share := Share(tokens, weights[offset], total);
      SumSnoc(shares, share);
      assert shares + [share] == Rounded(tokens, weights, total, offset + 1);
      shares := shares + [share];
      given := given + share;
      offset := offset + 1;
    }
    RoundedSplits(tokens, weights, total, shares);
    shares := shares + [tokens - given];
  }

  /** What the shares before the last one take. */
  function Taken(tokens: nat, weights: seq<int>): int
    requires Weighted(weights)
  {
    SumPositive(weights);
    Sum(Rounded(tokens, weights, Sum(weights), |weights| - 1))
  }

  /** The last share is negative exactly when the rounded shares before it exceed the group. */
  lemma LastShareNegativeIff(tokens: nat, weights: seq<int>)
    requires Weighted(weights)
    ensures Last(SharesOf(tokens, weights)) < 0 <==> Taken(tokens, weights) > tokens
  {
  }

  lemma RoundAtMost(tokens: nat, weight: nat, total: nat)
    requires 0 < weight <= total
    ensures Share(tokens, weight, total) <= tokens
  {
    RoundIsNear(tokens, weight, total);
    var share := Share(tokens, weight, total);
    assert tokens * weight <= tokens * total;
    AtMost(total, share, tokens);
  }

  lemma AtMost(total: nat, a: int, b: int)
    requires total > 0 && 2 * (total * a) <= 2 * (b * total) + total
    ensures a <= b
  {
    Excess(total, a, b);
    assert b * total == total * b;
  }

  lemma {:induction false} Excess(total: nat, a: int, b: int)
    ensures a > b ==> total * a >= total * b + total
  {
    if total > 0 {
      Excess(total - 1, a, b);
      assert total * a == (total - 1) * a + a;
      assert total * b == (total - 1) * b + b;
    }
  }

  /** It is never negative in a group of at most two messages, nor when the last message is heavy enough for the group. */
  lemma LastShareNotNegative(tokens: nat, weights: seq<int>)
    requires Weighted(weights)
    requires |weights| <= 2 || 2 * (tokens * Last(weights)) >= (|weights| - 1) * Sum(weights)
    ensures Last(SharesOf(tokens, weights)) >= 0
  {
    var total, n := Sum(weights), |weights| - 1;
    SumPositive(weights);
    var rounded := Rounded(tokens, weights, total, n);
    assert total == Sum(weights[..n]) + weights[n];
    if n == 0 {
      assert rounded == [];
    } else if n == 1 {
      assert weights[..1] == [weights[0]] && weights[..1][..0] == [] && rounded == [rounded[0]] && rounded[..0] == [];
      RoundAtMost(tokens, weights[0], total);
    } else {
      RoundedDrift(tokens, weights, total, n);
      HeavyEnough(tokens, total, Sum(rounded), Sum(weights[..n]), weights[n], n);
    }
  }

  lemma HeavyEnough(tokens: nat, total: nat, sum: int, weight: int, last: int, n: nat)
    requires total == weight + last && total > 0 && Near(total, sum, tokens, weight, Halves(n, total))
    requires 2 * (tokens * last) >= n * total
    ensures sum <= tokens
  {
    assert tokens * weight + tokens * last == tokens * total;
    AtMost(total, sum, tokens);
  }

  /** The last share can be negative: two tokens over four equal messages give one to each of the first three. */
  lemma LastShareCanBeNegative()
    ensures SharesOf(2, [1, 1, 1, 1]) == [1, 1, 1, -1]
  {
    var w := [1, 1, 1, 1];
    assert w[..3] == [1, 1, 1] && [1, 1, 1][..2] == [1, 1] && [1, 1][..1] == [1] && [1][..0] == [];
    assert Sum([1]) == 1 && Sum([1, 1]) == 2 && Sum([1, 1, 1]) == 3 && Sum(w) == 4;
    assert Share(2, 1, 4) == 1;
    assert Rounded(2, w, 4, 3) == [1, 1, 1];
  }

  // ----- the categories -----------------------------------------------------------------------------

  ghost function Total(m: map<string, int>): int {
    if m == map[] then 0
    else
      var k :| k in m;
      m[k] + Total(m - {k})
  }

  lemma {:induction false} TotalRemove(m: map<string, int>, k: string)
    requires k in m
    ensures Total(m) == m[k] + Total(m - {k})
    decreases |m|
  {
    var j :| j in m && Total(m) == m[j] + Total(m - {j});
    if j != k {
      assert k in m - {j} && |m - {j}| < |m| by { assert (m - {j}).Keys == m.Keys - {j}; }
      TotalRemove(m - {j}, k);
      assert |m - {k}| < |m| by { assert (m - {k}).Keys == m.Keys - {k}; }
      TotalRemove(m - {k}, j);
      assert m - {j} - {k} == m - {k} - {j};
    }
  }

  function Charge(m: map<string, int>, k: string, tokens: int): map<string, int> {
    m[k := (if k in m then m[k] else 0) + tokens]
  }

  /** Charging a category raises the sum over all categories by the same amount. */
  lemma ChargeTotal(m: map<string, int>, k: string, tokens: int)
    ensures Total(Charge(m, k, tokens)) == Total(m) + tokens
  {
    var next := Charge(m, k, tokens);
    TotalRemove(next, k);
    assert next - {k} == m - {k};
    if k in m {
      TotalRemove(m, k);
    } else {
      assert m - {k} == m;
    }
  }

  /** What a category holds; nothing when it was never charged. */
  function Held(m: map<string, int>, k: string): int {
    if k in m then m[k] else 0
  }

  /** What the counts give to the messages of one category. */
  function CategorySum(entries: seq<Entry>, counts: seq<int>, k: string): int
    requires |entries| == |counts|
  {
    if entries == [] then 0
    else CategorySum(Front(entries), Front(counts), k) + if Last(entries).category == k then Last(counts) else 0
  }

  lemma {:induction false} CategorySumConcat(a: seq<Entry>, x: seq<int>, b: seq<Entry>, y: seq<int>, k: string)
    requires |a| == |x| && |b| == |y|
    ensures CategorySum(a + b, x + y, k) == CategorySum(a, x, k) + CategorySum(b, y, k)
    decreases |b|
  {
    if b == [] {
      assert a + b == a && x + y == x;
    } else {
      assert Front(a + b) == a + Front(b) && Front(x + y) == x + Front(y);
      CategorySumConcat(a, x, Front(b), Front(y), k);
    }
  }

  /** Every category holds what it held before plus what the messages of that category were given. */
  ghost predicate ChargedTo(entries: seq<Entry>, counts: seq<int>, categories: map<string, int>, charged: map<string, int>)
    requires |entries| == |counts|
  {
    forall k :: Held(charged, k) == Held(categories, k) + CategorySum(entries, counts, k)
  }

  lemma ChargedTrans(a: seq<Entry>, x: seq<int>, b: seq<Entry>, y: seq<int>, m0: map<string, int>, m1: map<string, int>, m2: map<string, int>)
    requires |a| == |x| && |b| == |y| && ChargedTo(a, x, m0, m1) && ChargedTo(b, y, m1, m2)
    ensures ChargedTo(a + b, x + y, m0, m2)
  {
    forall k ensures Held(m2, k) == Held(m0, k) + CategorySum(a + b, x + y, k) {
      CategorySumConcat(a, x, b, y, k);
    }
  }

  lemma ChargedOne(e: Entry, count: int, m: map<string, int>)
    ensures ChargedTo([e], [count], m, Charge(m, e.category, count))
  {
    assert Front([e]) == [] && Front([count]) == [];
  }

  // ----- groups ----------------------------------------------------------------------------------------

  /** How many tool results follow position `at`, up to `most`. */
  function ResultsAfter(entries: seq<Entry>, at: nat, most: nat): (n: nat)
    requires at <= |entries|
    ensures n <= most && at + n <= |entries|
    decreases most
  {
    if most == 0 || at == |entries| || !entries[at].tool then 0
    else 1 + ResultsAfter(entries, at + 1, most - 1)
  }

  function CallsOf(e: Entry): nat {
    if e.assistant then e.calls else 0
  }

  /** The end of the group that starts at `at`, or None when results of its calls are missing. */
  function GroupEnd(entries: seq<Entry>, at: nat): (r: Option<nat>)
    requires at < |entries|
    ensures r.Some? ==> at < r.value <= |entries|
  {
    var calls := CallsOf(entries[at]);
    var found := ResultsAfter(entries, at + 1, calls);
    if found < calls then None else Some(at + 1 + found)
  }

  /** The ends of all groups from `at` on, or None when one is incomplete. */
  function Groups(entries: seq<Entry>, at: nat): (r: Option<seq<nat>>)
    requires at <= |entries|
    decreases |entries| - at
  {
    if at == |entries| then Some([])
    else
      var end := GroupEnd(entries, at);
      if end.None? then None
      else
        var rest := Groups(entries, end.value);
        if rest.None? then None else Some([end.value] + rest.value)
  }

  /** The tokens of the groups that end at `ends`: how much the render grew, never less than nothing. */
  function Growth(render: nat -> int, previous: int, ends: seq<nat>): int
    decreases |ends|
  {
    if ends == [] then 0
    else Max(0, render(ends[0]) - previous) + Growth(render, render(ends[0]), ends[1..])
  }

  /** The renders at the group ends never shrink. */
  ghost predicate Grows(render: nat -> int, previous: int, ends: seq<nat>)
    decreases |ends|
  {
    ends != [] ==> previous <= render(ends[0]) && Grows(render, render(ends[0]), ends[1..])
  }

  function FinalRender(render: nat -> int, previous: int, ends: seq<nat>): int {
    if ends == [] then previous else render(ends[|ends| - 1])
  }

  /** The growths add up to at least the whole growth, and to exactly that if and only if no render shrank. */
  lemma {:induction false} GrowthTelescopes(render: nat -> int, previous: int, ends: seq<nat>)
    ensures Growth(render, previous, ends) >= FinalRender(render, previous, ends) - previous
    ensures Growth(render, previous, ends) == FinalRender(render, previous, ends) - previous <==> Grows(render, previous, ends)
    decreases |ends|
  {
    if ends != [] {
      GrowthTelescopes(render, render(ends[0]), ends[1..]);
    }
  }

  /** The groups cover the list: the last one ends at its end. */
  lemma {:induction false} GroupsCover(entries: seq<Entry>, at: nat)
    requires at <= |entries| && Groups(entries, at).Some?
    ensures at < |entries| ==> Groups(entries, at).value != [] && Groups(entries, at).value[|Groups(entries, at).value| - 1] == |entries|
    decreases |entries| - at
  {
    if at < |entries| {
      GroupsCover(entries, GroupEnd(entries, at).value);
    }
  }

  /** The shares given to the messages of each group split the group's growth. */
  ghost predicate GroupShares(entries: seq<Entry>, render: nat -> int, previous: int, at: nat, ends: seq<nat>, counts: seq<int>)
    requires at <= |entries| == |counts|
    decreases |ends|
  {
    ends != [] ==>
      && at < ends[0] <= |entries|
      && Divides(Max(0, render(ends[0]) - previous), Weights(entries[at..ends[0]]), counts[at..ends[0]])
      && GroupShares(entries, render, render(ends[0]), ends[0], ends[1..], counts)
  }

  /**
    The message loop of the exact branch.  `render(n)` is the token count of the prompt with the first
    `n` messages and `previous` that of the prompt without messages.  It fails exactly when some tool
    call lacks results.  Otherwise every group's growth is split over its messages, and the categories
    grow by the sum of all groups.
   */
  method MeasureMessages(entries: seq<Entry>, render: nat -> int, previous: int, categories: map<string, int>)
    returns (complete: bool, charged: map<string, int>, counts: seq<int>)
    ensures complete <==> Groups(entries, 0).Some?
    ensures complete ==> |counts| == |entries| && GroupShares(entries, render, previous, 0, Groups(entries, 0).value, counts)
    ensures complete ==> Total(charged) == Total(categories) + Growth(render, previous, Groups(entries, 0).value)
    ensures complete ==> Total(charged) == Total(categories) + Sum(counts)
    ensures complete ==> ChargedTo(entries, counts, categories, charged)
  {
    hide Progress, Divides, ChargedTo;
    charged, counts := categories, [];
    var before, index := previous, 0;
    ghost var done: seq<nat> := [];
    ProgressStart(entries, render, previous, categories);
    while index < |entries|
      invariant index == |counts| <= |entries|
      invariant Progress(entries, render, previous, categories, done, charged, counts, before)
    {
      var end := FindGroupEnd(entries, index);
      if end.None? {
        IncompleteGroup(entries, render, previous, categories, done, charged, counts, before);
        return false, charged, counts;
      }
      var current := render(end.value);
      var shares := SplitGroup(Max(0, current - before), Weights(entries[index..end.value]));
      assert |shares| == end.value - index by { SharesPerEntry(Max(0, current - before), entries[index..end.value], shares); }
      var next := ChargeGroup(charged, entries[index..end.value], shares);
      GroupStep(entries, render, previous, categories, done, charged, counts, before, end.value, shares, next);
      charged, counts := next, counts + shares;
      done := done + [end.value];
      before, index := current, end.value;
    }
    ProgressEnd(entries, render, previous, categories, done, charged, counts, before);
    complete := true;
  }

  /** The state of the loop when `counts` covers the groups that end at `done`. */
  ghost predicate Progress(entries: seq<Entry>, render: nat -> int, previous: int, categories: map<string, int>,
                           done: seq<nat>, charged: map<string, int>, counts: seq<int>, before: int) {
    && |counts| <= |entries|
    && SharedSoFar(entries, render, previous, 0, done, counts, |counts|, before)
    && ChargesSoFar(entries, render, previous, categories, done, charged, counts)
    && (Groups(entries, 0).Some? <==> Groups(entries, |counts|).Some?)
    && (Groups(entries, 0).Some? ==> Groups(entries, 0).value == done + Groups(entries, |counts|).value)
  }

  ghost predicate ChargesSoFar(entries: seq<Entry>, render: nat -> int, previous: int, categories: map<string, int>,
                               done: seq<nat>, charged: map<string, int>, counts: seq<int>)
    requires |counts| <= |entries|
  {
    && Total(charged) == Total(categories) + Growth(render, previous, done)
    && Total(charged) == Total(categories) + Sum(counts)
    && ChargedTo(entries[..|counts|], counts, categories, charged)
  }

  lemma ProgressStart(entries: seq<Entry>, render: nat -> int, previous: int, categories: map<string, int>)
    ensures Progress(entries, render, previous, categories, [], categories, [], previous)
  {
    hide ChargedTo, Total;
    NothingCharged(categories);
    assert entries[..0] == [];
    assert Groups(entries, 0).Some? ==> [] + Groups(entries, 0).value == Groups(entries, 0).value;
  }

  lemma ProgressEnd(entries: seq<Entry>, render: nat -> int, previous: int, categories: map<string, int>,
                    done: seq<nat>, charged: map<string, int>, counts: seq<int>, before: int)
    requires Progress(entries, render, previous, categories, done, charged, counts, before) && |counts| == |entries|
    ensures Groups(entries, 0).Some?
    ensures GroupShares(entries, render, previous, 0, Groups(entries, 0).value, counts)
    ensures Total(charged) == Total(categories) + Growth(render, previous, Groups(entries, 0).value)
    ensures Total(charged) == Total(categories) + Sum(counts)
    ensures ChargedTo(entries, counts, categories, charged)
  {
    hide ChargedTo, Total, Growth, Sum;
    assert done + [] == done && entries[..|counts|] == entries;
    SharedAll(entries, render, previous, 0, done, counts, before);
  }

  lemma SharesPerEntry(tokens: nat, group: seq<Entry>, shares: seq<int>)
    requires Divides(tokens, Weights(group), shares)
    ensures |shares| == |group|
  {
  }

  lemma IncompleteGroup(entries: seq<Entry>, render: nat -> int, previous: int, categories: map<string, int>,
                        done: seq<nat>, charged: map<string, int>, counts: seq<int>, before: int)
    requires Progress(entries, render, previous, categories, done, charged, counts, before)
    requires |counts| < |entries| && GroupEnd(entries, |counts|).None?
    ensures Groups(entries, 0).None?
  {
  }

  lemma GroupStep(entries: seq<Entry>, render: nat -> int, previous: int, categories: map<string, int>,
                  done: seq<nat>, charged: map<string, int>, counts: seq<int>, before: int,
                  end: nat, shares: seq<int>, next: map<string, int>)
    requires Progress(entries, render, previous, categories, done, charged, counts, before)
    requires |counts| < |entries| && GroupEnd(entries, |counts|) == Some(end) && |shares| == end - |counts|
    requires Divides(Max(0, render(end) - before), Weights(entries[|counts|..end]), shares)
    requires Total(next) == Total(charged) + Sum(shares) && ChargedTo(entries[|counts|..end], shares, charged, next)
    ensures Progress(entries, render, previous, categories, done + [end], next, counts + shares, render(end))
  {
    hide Divides, ChargesSoFar, Total, Sum, ChargedTo, SharedSoFar, Growth, Groups;
    var index := |counts|;
    GroupsStep(entries, done, index, end);
    ShareStep(entries, render, previous, 0, done, counts, index, before, end, shares);
    GrowthSnoc(render, previous, done, end, before, entries, counts, index, 0);
    ChargesStep(entries, render, previous, categories, done, charged, counts, before, end, shares, next);
  }

  lemma DividesSum(tokens: nat, weights: seq<int>, shares: seq<int>)
    requires Divides(tokens, weights, shares)
    ensures Sum(shares) == tokens
  {
  }

  lemma ChargesStep(entries: seq<Entry>, render: nat -> int, previous: int, categories: map<string, int>,
                    done: seq<nat>, charged: map<string, int>, counts: seq<int>, before: int,
                    end: nat, shares: seq<int>, next: map<string, int>)
    requires |counts| < end <= |entries| && |shares| == end - |counts|
    requires ChargesSoFar(entries, render, previous, categories, done, charged, counts)
    requires Divides(Max(0, render(end) - before), Weights(entries[|counts|..end]), shares)
    requires Growth(render, previous, done + [end]) == Growth(render, previous, done) + Max(0, render(end) - before)
    requires Total(next) == Total(charged) + Sum(shares) && ChargedTo(entries[|counts|..end], shares, charged, next)
    ensures ChargesSoFar(entries, render, previous, categories, done + [end], next, counts + shares)
  {
    hide Divides, Total, Sum, ChargedTo, Growth;
    var index := |counts|;
    DividesSum(Max(0, render(end) - before), Weights(entries[index..end]), shares);
    SumConcat(counts, shares);
    assert entries[..end] == entries[..index] + entries[index..end];
    ChargedTrans(entries[..index], counts, entries[index..end], shares, categories, charged, next);
  }

  lemma GroupsStep(entries: seq<Entry>, done: seq<nat>, index: nat, end: nat)
    requires index < |entries| && GroupEnd(entries, index) == Some(end)
    ensures end <= |entries| && (Groups(entries, index).Some? <==> Groups(entries, end).Some?)
    ensures Groups(entries, index).Some? ==> done + Groups(entries, index).value == done + [end] + Groups(entries, end).value
  {
    var rest := Groups(entries, end);
    assert rest.Some? ==> done + ([end] + rest.value) == done + [end] + rest.value;
  }

  /** The loop that collects the results of a tool call. */
  method FindGroupEnd(entries: seq<Entry>, at: nat) returns (end: Option<nat>)
    requires at < |entries|
    ensures end == GroupEnd(entries, at)
  {
    var calls := CallsOf(entries[at]);
    var found := 0;
    while at + 1 + found < |entries| && found < calls && entries[at + 1 + found].tool
      invariant found <= calls && at + 1 + found <= |entries|
      invariant ResultsAfter(entries, at + 1, calls) == found + ResultsAfter(entries, at + 1 + found, calls - found)
    {
      found := found + 1;
    }
    if found < calls {
      return None;
    }
    return Some(at + 1 + found);
  }

  method ChargeGroup(categories: map<string, int>, group: seq<Entry>, shares: seq<int>) returns (charged: map<string, int>)
    requires |shares| == |group|
    ensures Total(charged) == Total(categories) + Sum(shares)
    ensures ChargedTo(group, shares, categories, charged)
  {
    hide Total, Charge, Sum, ChargedTo;
    charged := categories;
    var i := 0;
    NothingCharged(categories);
    while i < |group|
      invariant 0 <= i <= |group|
      invariant Total(charged) == Total(categories) + Sum(shares[..i])
      invariant ChargedTo(group[..i], shares[..i], categories, charged)
    {
      ChargeTotal(charged, group[i].category, shares[i]);
      assert shares[..i + 1] == shares[..i] + [shares[i]] && group[..i + 1] == group[..i] + [group[i]];
      ChargedOne(group[i], shares[i], charged);
      ChargedTrans(group[..i], shares[..i], [group[i]], [shares[i]], categories, charged, Charge(charged, group[i].category, shares[i]));
      SumSnoc(shares[..i], shares[i]);
      charged := Charge(charged, group[i].category, shares[i]);
      i := i + 1;
    }
    assert shares[..i] == shares && group[..i] == group;
  }

  lemma NothingCharged(categories: map<string, int>)
    ensures ChargedTo([], [], categories, categories) && Sum([]) == 0
  {
  }

  /** The groups handled so far: `counts` covers the entries up to `index`, the last render was `before`. */
  ghost predicate SharedSoFar(entries: seq<Entry>, render: nat -> int, previous: int, at: nat, ends: seq<nat>, counts: seq<int>, index: nat, before: int)
    decreases |ends|
  {
    && |counts| == index <= |entries|
    && if ends == [] then at == index && before == previous
       else
         && at < ends[0] <= index
         && Divides(Max(0, render(ends[0]) - previous), Weights(entries[at..ends[0]]), counts[at..ends[0]])
         && SharedSoFar(entries, render, render(ends[0]), ends[0], ends[1..], counts, index, before)
  }

  lemma {:induction false} ShareStep(entries: seq<Entry>, render: nat -> int, previous: int, at: nat, ends: seq<nat>, counts: seq<int>, index: nat, before: int, end: nat, shares: seq<int>)
    requires SharedSoFar(entries, render, previous, at, ends, counts, index, before)
    requires index < end <= |entries| && |shares| == end - index
    requires Divides(Max(0, render(end) - before), Weights(entries[index..end]), shares)
    ensures SharedSoFar(entries, render, previous, at, ends + [end], counts + shares, end, render(end))
    decreases |ends|
  {
    hide Divides;
    var more := ends + [end];
    if ends == [] {
      assert (counts + shares)[index..end] == shares;
      assert more[1..] == [];
    } else {
      assert (counts + shares)[at..ends[0]] == counts[at..ends[0]];
      assert more[1..] == ends[1..] + [end];
      ShareStep(entries, render, render(ends[0]), ends[0], ends[1..], counts, index, before, end, shares);
    }
  }

  lemma {:induction false} GrowthSnoc(render: nat -> int, previous: int, ends: seq<nat>, end: nat, before: int, entries: seq<Entry>, counts: seq<int>, index: nat, at: nat)
    requires SharedSoFar(entries, render, previous, at, ends, counts, index, before)
    ensures Growth(render, previous, ends + [end]) == Growth(render, previous, ends) + Max(0, render(end) - before)
    decreases |ends|
  {
    hide Divides;
    var more := ends + [end];
    if ends == [] {
      assert more[1..] == [];
    } else {
      assert more[1..] == ends[1..] + [end];
      GrowthSnoc(render, render(ends[0]), ends[1..], end, before, entries, counts, index, ends[0]);
    }
  }

  lemma {:induction false} SharedAll(entries: seq<Entry>, render: nat -> int, previous: int, at: nat, ends: seq<nat>, counts: seq<int>, before: int)
    requires at <= |entries| && SharedSoFar(entries, render, previous, at, ends, counts, |entries|, before)
    ensures GroupShares(entries, render, previous, at, ends, counts)
    decreases |ends|
  {
    hide Divides;
    if ends != [] {
      SharedAll(entries, render, render(ends[0]), ends[0], ends[1..], counts, before);
    }
  }

  // ----- the whole measurement -------------------------------------------------------------------------

  /** Renders of the system prompt with one more part each: base, project, workspace and agent memory, tools. */
  datatype Prefix = Prefix(base: int, project: int, workspace: int, memory: int, tools: int)

  function PrefixCategories(p: Prefix): map<string, int> {
    var system := Charge(map[], "system", p.base);
    var project := Charge(system, "project", Max(0, p.project - p.base));
    var workspace := Charge(project, "workspace_memory", Max(0, p.workspace - p.project));
    var memory := Charge(workspace, "agent_memory", Max(0, p.memory - p.workspace));
    Charge(memory, "tools", Max(0, p.tools - p.memory))
  }

  ghost predicate PrefixGrows(p: Prefix) {
    p.base <= p.project <= p.workspace <= p.memory <= p.tools
  }

  function PrefixSum(p: Prefix): int {
    p.base + Max(0, p.project - p.base) + Max(0, p.workspace - p.project) + Max(0, p.memory - p.workspace) + Max(0, p.tools - p.memory)
  }

  lemma ChargeFive(m: map<string, int>, k: seq<string>, t: seq<int>)
    requires |k| == |t| == 5
    ensures Total(Charge(Charge(Charge(Charge(Charge(m, k[0], t[0]), k[1], t[1]), k[2], t[2]), k[3], t[3]), k[4], t[4]))
      == Total(m) + t[0] + t[1] + t[2] + t[3] + t[4]
  {
    hide Total, Charge;
    var m1 := Charge(m, k[0], t[0]);
    ChargeTotal(m, k[0], t[0]);
    var m2 := Charge(m1, k[1], t[1]);
    ChargeTotal(m1, k[1], t[1]);
    var m3 := Charge(m2, k[2], t[2]);
    ChargeTotal(m2, k[2], t[2]);
    ChargeTotal(m3, k[3], t[3]);
    ChargeTotal(Charge(m3, k[3], t[3]), k[4], t[4]);
  }

  /** Every part of the system prompt is charged with what it adds to the render, never less than nothing. */
  lemma PrefixCategoriesAre(p: Prefix)
    ensures PrefixCategories(p) == map[
      "system" := p.base,
      "project" := Max(0, p.project - p.base),
      "workspace_memory" := Max(0, p.workspace - p.project),
      "agent_memory" := Max(0, p.memory - p.workspace),
      "tools" := Max(0, p.tools - p.memory)]
  {
  }

  lemma PrefixTotal(p: Prefix)
    ensures Total(PrefixCategories(p)) >= p.tools
    ensures Total(PrefixCategories(p)) == p.tools <==> PrefixGrows(p)
  {
    assert Total(PrefixCategories(p)) == PrefixSum(p) by {
      var m0: map<string, int> := map[];
      assert Total(m0) == 0;
      hide Total, Charge;
      ChargeFive(m0, ["system", "project", "workspace_memory", "agent_memory", "tools"],
        [p.base, Max(0, p.project - p.base), Max(0, p.workspace - p.project), Max(0, p.memory - p.workspace), Max(0, p.tools - p.memory)]);
    }
  }

  /**
    The exact measurement.  The used tokens are never below the tokens of the final render, and they
    are exactly those if and only if no render was smaller than the one before it.
   */
  method MeasureExact(p: Prefix, entries: seq<Entry>, render: nat -> int)
    returns (complete: bool, categories: map<string, int>, counts: seq<int>)
    ensures complete <==> Groups(entries, 0).Some?
    ensures complete ==> |counts| == |entries| && GroupShares(entries, render, p.tools, 0, Groups(entries, 0).value, counts)
    ensures complete ==> |counts| == |entries| && ChargedTo(entries, counts, PrefixCategories(p), categories)
    ensures complete ==> var final := if entries == [] then p.tools else render(|entries|);
      && Total(categories) >= final
      && (Total(categories) == final <==> PrefixGrows(p) && Grows(render, p.tools, Groups(entries, 0).value))
  {
    hide ChargedTo;
    complete, categories, counts := MeasureMessages(entries, render, p.tools, PrefixCategories(p));
    if complete {
      PrefixTotal(p);
      GrowthTelescopes(render, p.tools, Groups(entries, 0).value);
      GroupsCover(entries, 0);
    }
  }
}
