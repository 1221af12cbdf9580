/** Keyword scoring shared by the two model-output interpreters: the scores
    of the table keywords present in a text, and the three-level priority
    chosen by the first term list that matches. */
module Keywords {
  import opened Text

  /** A keyword table in insertion order: keyword and its score. */
  type ScoreTable = seq<(string, nat)>

  /** The scores of the keywords occurring in `textLower`, in table order;
      each keyword counts once however often it occurs. */
  function ScoresPresent(textLower: string, table: ScoreTable): (r: seq<nat>)
    ensures |r| <= |table|
  {
    if table == [] then []
    else
      var last := table[|table| - 1];
      ScoresPresent(textLower, table[..|table| - 1]) + (if Contains(textLower, last.0) then [last.1] else [])
  }

  predicate ScoresWithin(table: ScoreTable, lo: nat, hi: nat) {
    forall i :: 0 <= i < |table| ==> lo <= table[i].1 <= hi
  }

  /** No score is collected exactly when no keyword occurs, and every
      collected score is a table score, so it keeps the table's bounds. */
  lemma {:induction false} ScoresPresentFacts(textLower: string, table: ScoreTable, lo: nat, hi: nat)
    ensures ScoresPresent(textLower, table) == []
      <==> forall i :: 0 <= i < |table| ==> !Contains(textLower, table[i].0)
    ensures ScoresWithin(table, lo, hi) ==>
      forall k :: 0 <= k < |ScoresPresent(textLower, table)| ==> lo <= ScoresPresent(textLower, table)[k] <= hi
  {
    if table != [] {
      var init := table[..|table| - 1];
      ScoresPresentFacts(textLower, init, lo, hi);
      assert forall i :: 0 <= i < |init| ==> init[i] == table[i];
    }
  }

  function Sum(s: seq<nat>): nat {
    if s == [] then 0 else Sum(s[..|s| - 1]) + s[|s| - 1]
  }

  /** A sum of n values within [lo, hi] lies within [lo * n, hi * n]. */
  lemma {:induction false} SumBounds(s: seq<nat>, lo: nat, hi: nat)
    requires forall k :: 0 <= k < |s| ==> lo <= s[k] <= hi
    ensures lo * |s| <= Sum(s) <= hi * |s|
  {
    if s != [] {
      var init := s[..|s| - 1];
      assert forall k :: 0 <= k < |init| ==> init[k] == s[k];
      SumBounds(init, lo, hi);
      assert Sum(s) == Sum(init) + s[|s| - 1];
      MulSucc(lo, |init|);
      MulSucc(hi, |init|);
    }
  }

  lemma MulSucc(a: nat, b: nat)
    ensures a * (b + 1) == a * b + a
  {
  }

  /** The mean of n > 0 values within [lo, hi] lies within [lo, hi]. */
  lemma MeanBounds(s: seq<nat>, lo: nat, hi: nat)
    requires s != []
    requires forall k :: 0 <= k < |s| ==> lo <= s[k] <= hi
    ensures lo as real <= Sum(s) as real / |s| as real <= hi as real
  {
    SumBounds(s, lo, hi);
    QuotientBounds(Sum(s), |s|, lo, hi);
  }

  lemma QuotientBounds(sum: nat, n: nat, lo: nat, hi: nat)
    requires n > 0 && lo * n <= sum <= hi * n
    ensures lo as real <= sum as real / n as real <= hi as real
  {
    var d := n as real;
    var m := sum as real / d;
    assert m * d == sum as real;
    assert (lo * n) as real == lo as real * d;
    assert (hi * n) as real == hi as real * d;
    MulCancel(lo as real, m, d);
    MulCancel(m, hi as real, d);
  }

  lemma MulCancel(a: real, b: real, d: real)
    requires d > 0.0 && a * d <= b * d
    ensures a <= b
  {
    assert (b - a) * d == b * d - a * d;
  }

  /** The loop `for keyword, score in table.items(): if keyword in text:
      scores.append(score)`. */
  method CollectScores(textLower: string, table: ScoreTable) returns (scores: seq<nat>)
    ensures scores == ScoresPresent(textLower, table)
  {
    scores := [];
    for i := 0 to |table|
      invariant scores == ScoresPresent(textLower, table[..i])
    {
      assert table[..i + 1][..i] == table[..i];
      if Contains(textLower, table[i].0) {
        scores := scores + [table[i].1];
      }
    }
    assert table[..|table|] == table;
  }

  // ----- priority -----

  const High: string := "HIGH"
  const Moderate: string := "MODERATE"
  const Low: string := "LOW"

  function PriorityRank(p: string): nat {
    if p == High then 2 else if p == Moderate then 1 else 0
  }

  /** HIGH if a high term occurs, else MODERATE if a moderate term occurs,
      else LOW. */
  function Priority(textLower: string, highTerms: seq<string>, moderateTerms: seq<string>): string {
    if ContainsAny(textLower, highTerms) then High
    else if ContainsAny(textLower, moderateTerms) then Moderate
    else Low
  }

  /** High terms take precedence, and each level is reached exactly under
      its condition. */
  lemma PriorityIff(textLower: string, highTerms: seq<string>, moderateTerms: seq<string>)
    ensures Priority(textLower, highTerms, moderateTerms) == High <==> ContainsAny(textLower, highTerms)
    ensures Priority(textLower, highTerms, moderateTerms) == Moderate
      <==> !ContainsAny(textLower, highTerms) && ContainsAny(textLower, moderateTerms)
    ensures Priority(textLower, highTerms, moderateTerms) == Low
      <==> !ContainsAny(textLower, highTerms) && !ContainsAny(textLower, moderateTerms)
  {
    assert High != Moderate && High != Low && Moderate != Low by {
      assert High[0] != Moderate[0] && High[0] != Low[0] && Moderate[0] != Low[0];
    }
  }

  /** More text never lowers the priority: a term present in part of the
      text is present in the whole. */
  lemma PriorityMonotone(a: string, b: string, highTerms: seq<string>, moderateTerms: seq<string>)
    ensures PriorityRank(Priority(Lower(a), highTerms, moderateTerms))
      <= PriorityRank(Priority(Lower(a + b), highTerms, moderateTerms))
    ensures PriorityRank(Priority(Lower(b), highTerms, moderateTerms))
      <= PriorityRank(Priority(Lower(a + b), highTerms, moderateTerms))
  {
    LowerAppend(a, b);
    if ContainsAny(Lower(a), highTerms) {
      ContainsAnyExtend(Lower(a), Lower(b), highTerms);
    } else if ContainsAny(Lower(a), moderateTerms) {
      ContainsAnyExtend(Lower(a), Lower(b), moderateTerms);
    }
    if ContainsAny(Lower(b), highTerms) {
      ContainsAnyExtend(Lower(b), Lower(a), highTerms);
    } else if ContainsAny(Lower(b), moderateTerms) {
      ContainsAnyExtend(Lower(b), Lower(a), moderateTerms);
    }
  }
}
