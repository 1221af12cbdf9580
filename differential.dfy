/** The ai-service's differential-diagnosis ranker (`/ai/differential-diagnosis`):
    each symptom contributes the candidate list of the first table key it
    contains, a default pair replaces an empty pool, the pool is sorted by
    probability, highest first and stably, and the first five are kept. */
module Differential {
  import opened Text
  import opened Domain

  datatype Candidate = Candidate(diagnosis: string, probability: real, urgency: TriageLevel)

  datatype Entry = Entry(key: string, candidates: seq<Candidate>)

  /** `common_diagnoses`, in insertion order. */
  const CommonDiagnoses: seq<Entry> := [
    Entry("chest pain", [
      Candidate("Myocardial Infarction", 0.15, Critical),
      Candidate("Angina Pectoris", 0.25, Urgent),
      Candidate("Costochondritis", 0.30, Routine),
      Candidate("GERD", 0.20, Routine),
      Candidate("Pulmonary Embolism", 0.10, Critical)]),
    Entry("fever", [
      Candidate("Viral Upper Respiratory Infection", 0.40, Routine),
      Candidate("Bacterial Pneumonia", 0.20, Urgent),
      Candidate("Urinary Tract Infection", 0.15, Urgent),
      Candidate("Influenza", 0.25, Routine)]),
    Entry("headache", [
      Candidate("Tension Headache", 0.50, Routine),
      Candidate("Migraine", 0.30, Routine),
      Candidate("Cluster Headache", 0.10, Urgent),
      Candidate("Secondary Headache", 0.10, Urgent)])
  ]

  /** The pool used when no symptom matched, as written (before sorting). */
  const DefaultDiagnoses: seq<Candidate> := [
    Candidate("Viral Syndrome", 0.40, Routine),
    Candidate("General Medical Consultation", 0.60, Routine)
  ]

  /** At most this many candidates are returned. */
  const TopCount: nat := 5

  datatype DifferentialResponse = DifferentialResponse(diagnoses: seq<Candidate>, confidence: real)

  // ----- collecting the pool -----

  /** The candidate list of the first entry whose key occurs in
      `symptomLower`, or nothing when no key occurs. */
  function FirstContribution(symptomLower: string, entries: seq<Entry>): seq<Candidate> {
    if entries == [] then []
    else if Contains(symptomLower, entries[0].key) then entries[0].candidates
    else FirstContribution(symptomLower, entries[1..])
  }

  /** The first match wins: the contribution is the list of the entry at the
      first index whose key occurs, and empty exactly when no key occurs. */
  lemma FirstContributionIsFirstMatch(symptomLower: string, entries: seq<Entry>)
    ensures (forall j :: 0 <= j < |entries| ==> !Contains(symptomLower, entries[j].key))
      ==> FirstContribution(symptomLower, entries) == []
    ensures forall k :: (0 <= k < |entries| && Contains(symptomLower, entries[k].key)
      && (forall j :: 0 <= j < k ==> !Contains(symptomLower, entries[j].key))
      ==> FirstContribution(symptomLower, entries) == entries[k].candidates)
  {
    if forall j :: 0 <= j < |entries| ==> !Contains(symptomLower, entries[j].key) {
      NoKeyNoContribution(symptomLower, entries);
    }
    forall k | 0 <= k < |entries| && Contains(symptomLower, entries[k].key)
      && (forall j :: 0 <= j < k ==> !Contains(symptomLower, entries[j].key))
      ensures FirstContribution(symptomLower, entries) == entries[k].candidates
    {
      FirstKeyContributes(symptomLower, entries, k);
    }
  }

  lemma {:induction false} NoKeyNoContribution(symptomLower: string, entries: seq<Entry>)
    requires forall j :: 0 <= j < |entries| ==> !Contains(symptomLower, entries[j].key)
    ensures FirstContribution(symptomLower, entries) == []
    decreases |entries|
  {
    if entries != [] {
      var rest := entries[1..];
      assert !Contains(symptomLower, entries[0].key);
      forall j | 0 <= j < |rest|
        ensures !Contains(symptomLower, rest[j].key)
      {
        assert rest[j] == entries[j + 1];
      }
      NoKeyNoContribution(symptomLower, rest);
    }
  }

  lemma {:induction false} FirstKeyContributes(symptomLower: string, entries: seq<Entry>, k: nat)
    requires k < |entries| && Contains(symptomLower, entries[k].key)
    requires forall j :: 0 <= j < k ==> !Contains(symptomLower, entries[j].key)
    ensures FirstContribution(symptomLower, entries) == entries[k].candidates
    decreases k
  {
    if k > 0 {
      var rest := entries[1..];
      assert !Contains(symptomLower, entries[0].key);
      assert rest[k - 1] == entries[k];
      forall j | 0 <= j < k - 1
        ensures !Contains(symptomLower, rest[j].key)
      {
        assert rest[j] == entries[j + 1];
      }
      FirstKeyContributes(symptomLower, rest, k - 1);
    }
  }

  /** In this table every key's list is non-empty, so a symptom contributes
      nothing exactly when it holds none of the keys. */
  lemma ContributionEmptyIff(symptomLower: string)
    ensures FirstContribution(symptomLower, CommonDiagnoses) == []
      <==> forall j :: 0 <= j < |CommonDiagnoses| ==> !Contains(symptomLower, CommonDiagnoses[j].key)
  {
    FirstContributionIsFirstMatch(symptomLower, CommonDiagnoses);
    var e := CommonDiagnoses;
    if !Contains(symptomLower, e[0].key) && !Contains(symptomLower, e[1].key) && !Contains(symptomLower, e[2].key) {
      assert forall j :: 0 <= j < |e| ==> !Contains(symptomLower, e[j].key);
    }
  }

  /** The pool the loop builds: every symptom's contribution, in symptom order. */
  function Accumulated(symptoms: seq<string>): seq<Candidate> {
    if symptoms == [] then []
    else Accumulated(symptoms[..|symptoms| - 1]) + FirstContribution(Lower(symptoms[|symptoms| - 1]), CommonDiagnoses)
  }

  /** The pool handed to the sort: the default pair when nothing matched. */
  function Pool(symptoms: seq<string>): (r: seq<Candidate>)
    ensures Accumulated(symptoms) == [] ==> r == DefaultDiagnoses
    ensures Accumulated(symptoms) != [] ==> r == Accumulated(symptoms)
  {
    if Accumulated(symptoms) == [] then DefaultDiagnoses else Accumulated(symptoms)
  }

  /** The loop over symptoms and table keys with its `break`: each symptom
      extends the pool with the first matching key's list only. */
  method CollectDiagnoses(symptoms: seq<string>) returns (diagnoses: seq<Candidate>)
    ensures diagnoses == Accumulated(symptoms)
  {
    diagnoses := [];
    for i := 0 to |symptoms|
      invariant diagnoses == Accumulated(symptoms[..i])
    {
      var symptomLower := Lower(symptoms[i]);
      ghost var before := diagnoses;
      var k := 0;
      while k < |CommonDiagnoses|
        invariant 0 <= k <= |CommonDiagnoses|
        invariant diagnoses == before
        invariant FirstContribution(symptomLower, CommonDiagnoses) == FirstContribution(symptomLower, CommonDiagnoses[k..])
      {
        var entry := CommonDiagnoses[k];
        assert CommonDiagnoses[k..][0] == entry;
        if Contains(symptomLower, entry.key) {
          diagnoses := diagnoses + entry.candidates;
          break;
        }
        assert CommonDiagnoses[k..][1..] == CommonDiagnoses[k + 1..];
        k := k + 1;
      }
      assert diagnoses == before + FirstContribution(symptomLower, CommonDiagnoses);
      assert symptoms[..i + 1][..i] == symptoms[..i];
    }
    assert symptoms[..|symptoms|] == symptoms;
  }

  // ----- the stable sort, highest probability first -----

  /** Insert `x` into `t` as a stable descending sort does: it moves left past
      the elements of strictly smaller probability only. */
  function Insert(t: seq<Candidate>, x: Candidate): seq<Candidate> {
    if t == [] then [x]
    else if t[|t| - 1].probability < x.probability then Insert(t[..|t| - 1], x) + [t[|t| - 1]]
    else t + [x]
  }

  /** `list.sort(key=probability, reverse=True)` as a function of the list. */
  function InsertionSorted(s: seq<Candidate>): seq<Candidate> {
    if s == [] then [] else Insert(InsertionSorted(s[..|s| - 1]), s[|s| - 1])
  }

  predicate SortedDesc(s: seq<Candidate>) {
    forall i, j :: 0 <= i < j < |s| ==> s[i].probability >= s[j].probability
  }

  /** The candidates of probability exactly `p`, in order. */
  function WithProbability(s: seq<Candidate>, p: real): seq<Candidate> {
    if s == [] then []
    else WithProbability(s[..|s| - 1], p) + (if s[|s| - 1].probability == p then [s[|s| - 1]] else [])
  }

  lemma {:induction false} WithProbabilityAppend(a: seq<Candidate>, b: seq<Candidate>, p: real)
    ensures WithProbability(a + b, p) == WithProbability(a, p) + WithProbability(b, p)
    decreases |b|
  {
    if b != [] {
      var b0 := b[..|b| - 1];
      assert (a + b)[..|a + b| - 1] == a + b0;
      WithProbabilityAppend(a, b0, p);
    } else {
      assert a + b == a;
    }
  }

  lemma {:induction false} InsertPermutes(t: seq<Candidate>, x: Candidate)
    ensures multiset(Insert(t, x)) == multiset(t) + multiset{x}
  {
    if t != [] && t[|t| - 1].probability < x.probability {
      var init := t[..|t| - 1];
      MultisetOfSnoc(t);
      InsertPermutes(init, x);
    }
  }

  lemma {:induction false} InsertKeepsSorted(t: seq<Candidate>, x: Candidate)
    requires SortedDesc(t)
    ensures SortedDesc(Insert(t, x))
  {
    if t != [] && t[|t| - 1].probability < x.probability {
      var init := t[..|t| - 1];
      var last := t[|t| - 1];
      InsertKeepsSorted(init, x);
      forall k | 0 <= k < |init|
        ensures init[k].probability >= last.probability
      {
        assert init[k] == t[k];
      }
      InsertLowerBound(init, x, last.probability);
      var u := Insert(init, x);
      forall i, j | 0 <= i < j < |u + [last]|
        ensures (u + [last])[i].probability >= (u + [last])[j].probability
      {
        if j == |u| {
          assert (u + [last])[i] == u[i];
        }
      }
    }
  }

  /** A bound every candidate meets survives the insertion of one more that
      meets it. */
  lemma InsertLowerBound(t: seq<Candidate>, x: Candidate, b: real)
    requires forall k :: 0 <= k < |t| ==> t[k].probability >= b
    requires x.probability >= b
    ensures forall k :: 0 <= k < |Insert(t, x)| ==> Insert(t, x)[k].probability >= b
  {
    var u := Insert(t, x);
    InsertPermutes(t, x);
    forall k | 0 <= k < |u|
      ensures u[k].probability >= b
    {
      assert u[k] in multiset(u);
      if u[k] != x {
        assert u[k] in multiset(t);
        var i :| 0 <= i < |t| && t[i] == u[k];
      }
    }
  }

  /** Inserting keeps the order among equal probabilities: `x` lands after
      every earlier candidate of its probability. */
  lemma {:induction false} InsertStable(t: seq<Candidate>, x: Candidate, p: real)
    ensures WithProbability(Insert(t, x), p) == WithProbability(t, p) + (if x.probability == p then [x] else [])
  {
    if t == [] {
      assert [x][..0] == [];
    } else {
      var init := t[..|t| - 1];
      var last := t[|t| - 1];
      assert t == init + [last];
      WithProbabilityAppend(init, [last], p);
      assert [last][..0] == [];
      if last.probability < x.probability {
        InsertStable(init, x, p);
        WithProbabilityAppend(Insert(init, x), [last], p);
      } else {
        WithProbabilityAppend(t, [x], p);
        assert [x][..0] == [];
      }
    }
  }

  /** The sort is a permutation of its input. */
  lemma {:induction false} SortPermutes(s: seq<Candidate>)
    ensures multiset(InsertionSorted(s)) == multiset(s)
  {
    if s != [] {
      var init := s[..|s| - 1];
      var last := s[|s| - 1];
      assert InsertionSorted(s) == Insert(InsertionSorted(init), last);
      MultisetOfSnoc(s);
      SortPermutes(init);
      InsertPermutes(InsertionSorted(init), last);
    }
  }

  /** The sort orders by probability, highest first. */
  lemma {:induction false} SortSorts(s: seq<Candidate>)
    ensures SortedDesc(InsertionSorted(s))
  {
    if s != [] {
      SortSorts(s[..|s| - 1]);
      InsertKeepsSorted(InsertionSorted(s[..|s| - 1]), s[|s| - 1]);
    }
  }

  /** The sort is stable: the candidates of any one probability appear in
      the order they had in the pool. */
  lemma {:induction false} SortStable(s: seq<Candidate>, p: real)
    ensures WithProbability(InsertionSorted(s), p) == WithProbability(s, p)
  {
    if s != [] {
      var init := s[..|s| - 1];
      SortStable(init, p);
      InsertStable(InsertionSorted(init), s[|s| - 1], p);
    }
  }

  /** Where `Insert` puts `x`: after the last candidate at least as likely,
      before the run of strictly less likely ones that ends the list. */
  lemma {:induction false} InsertPosition(t: seq<Candidate>, x: Candidate, j: nat)
    requires j <= |t|
    requires forall k :: j <= k < |t| ==> t[k].probability < x.probability
    requires j == 0 || t[j - 1].probability >= x.probability
    ensures Insert(t, x) == t[..j] + [x] + t[j..]
    decreases |t| - j
  {
    if j == |t| {
      assert t[..j] == t && t[j..] == [];
    } else {
      var init := t[..|t| - 1];
      assert init[..j] == t[..j];
      InsertPosition(init, x, j);
      assert t[j..] == init[j..] + [t[|t| - 1]];
    }
  }

  /** The array after a pass, read as a sequence: `x` placed at `j`. */
  lemma Placed(u: seq<Candidate>, t: seq<Candidate>, x: Candidate, j: nat)
    requires j <= |t| && |u| == |t| + 1
    requires forall k :: 0 <= k < j ==> u[k] == t[k]
    requires u[j] == x
    requires forall k :: j < k <= |t| ==> u[k] == t[k - 1]
    ensures u == t[..j] + [x] + t[j..]
  {
  }

  /** One pass of the sort: `a[i]` moves left past the strictly less
      likely candidates before it. */
  method InsertInPlace(a: array<Candidate>, i: nat)
    requires i < a.Length
    modifies a
    ensures a[..i + 1] == Insert(old(a[..i]), old(a[i]))
    ensures a[i + 1..] == old(a[i + 1..])
  {
    var x := a[i];
    ghost var t := a[..i];
    var j := i;
    while j > 0 && a[j - 1].probability < x.probability
      invariant 0 <= j <= i
      invariant forall k :: 0 <= k < j ==> a[k] == t[k]
      invariant forall k :: j < k <= i ==> a[k] == t[k - 1]
      invariant forall k :: i < k < a.Length ==> a[k] == old(a[k])
      invariant forall k :: j <= k < i ==> t[k].probability < x.probability
    {
      a[j] := a[j - 1];
      j := j - 1;
    }
    InsertPosition(t, x, j);
    a[j] := x;
    Placed(a[..i + 1], t, x, j);
  }

  /** `diagnoses.sort(...)` in place on an array of the pool. */
  method SortByProbability(a: array<Candidate>)
    modifies a
    ensures a[..] == InsertionSorted(old(a[..]))
  {
    ghost var s := a[..];
    var i := 0;
    while i < a.Length
      invariant 0 <= i <= a.Length
      invariant a[..i] == InsertionSorted(s[..i])
      invariant a[i..] == s[i..]
    {
      assert s[..i + 1][..i] == s[..i];
      assert a[i] == a[i..][0] == s[i];
      assert a[i + 1..] == a[i..][1..] == s[i..][1..] == s[i + 1..];
      InsertInPlace(a, i);
      i := i + 1;
    }
    assert a[..] == a[..a.Length];
    assert s == s[..a.Length];
  }

  /** The returned ranking: the stably sorted pool cut to five. */
  function Ranked(symptoms: seq<string>): seq<Candidate> {
    Take(InsertionSorted(Pool(symptoms)), TopCount)
  }

  /** `generate_differential_diagnosis`, with the delay dropped, the prose
      `reasoning` left out and the random confidence passed in. */
  method GenerateDifferentialDiagnosis(symptoms: seq<string>, confidence: real) returns (response: DifferentialResponse)
    requires 0.75 <= confidence <= 0.92
    ensures response.diagnoses == Ranked(symptoms)
    ensures response.confidence == confidence
  {
    var diagnoses := CollectDiagnoses(symptoms);
    if diagnoses == [] {
      diagnoses := DefaultDiagnoses;
    }
    var a := new Candidate[|diagnoses|](i requires 0 <= i < |diagnoses| => diagnoses[i]);
    assert a[..] == diagnoses;
    SortByProbability(a);
    response := DifferentialResponse(Take(a[..], TopCount), confidence);
  }

  // ----- properties of the ranking -----

  /** At most five candidates, highest probability first, each from the
      pool, and no dropped candidate more likely than a kept one. */
  lemma RankedIsTopOfPool(symptoms: seq<string>)
    ensures |Ranked(symptoms)| <= TopCount
    ensures SortedDesc(Ranked(symptoms))
    ensures multiset(Ranked(symptoms)) <= multiset(Pool(symptoms))
    ensures |Pool(symptoms)| >= TopCount ==> |Ranked(symptoms)| == TopCount
    ensures forall i, j :: (0 <= i < |Ranked(symptoms)| <= j < |InsertionSorted(Pool(symptoms))|
      ==> Ranked(symptoms)[i].probability >= InsertionSorted(Pool(symptoms))[j].probability)
  {
    var sorted := InsertionSorted(Pool(symptoms));
    SortSorts(Pool(symptoms));
    SortPermutes(Pool(symptoms));
    assert |sorted| == |Pool(symptoms)| by {
      assert |multiset(sorted)| == |multiset(Pool(symptoms))|;
    }
    TakeOfSorted(sorted, TopCount);
  }

  /** A prefix of a sorted list is sorted, is a sub-multiset, and no later
      element is more likely than a kept one. */
  lemma TakeOfSorted(s: seq<Candidate>, n: nat)
    requires SortedDesc(s)
    ensures SortedDesc(Take(s, n))
    ensures multiset(Take(s, n)) <= multiset(s)
    ensures forall i, j :: 0 <= i < |Take(s, n)| <= j < |s| ==> Take(s, n)[i].probability >= s[j].probability
  {
    var r := Take(s, n);
    assert s == r + s[|r|..];
    assert forall i :: 0 <= i < |r| ==> r[i] == s[i];
  }

  /** Among candidates of equal probability the ranking keeps the order they
      were collected in: those returned are the first ones of the pool. */
  lemma RankedKeepsPoolOrder(symptoms: seq<string>, p: real)
    ensures WithProbability(Ranked(symptoms), p) <= WithProbability(Pool(symptoms), p)
  {
    var sorted := InsertionSorted(Pool(symptoms));
    var r := Ranked(symptoms);
    SortStable(Pool(symptoms), p);
    assert sorted == r + sorted[|r|..];
    WithProbabilityAppend(r, sorted[|r|..], p);
  }

  /** With no matching symptom (an empty list included) the answer is the
      default pair, most likely first. */
  lemma NoMatchGivesDefault(symptoms: seq<string>)
    requires forall s, j :: s in symptoms && 0 <= j < |CommonDiagnoses| ==> !Contains(Lower(s), CommonDiagnoses[j].key)
    ensures Ranked(symptoms) == [
      Candidate("General Medical Consultation", 0.60, Routine),
      Candidate("Viral Syndrome", 0.40, Routine)]
  {
    NoKeyMeansEmptyPool(symptoms);
    var d := DefaultDiagnoses;
    assert d[..1] == [d[0]];
    assert [d[0]][..0] == [];
    assert InsertionSorted([d[0]]) == [d[0]];
    assert Insert([d[0]], d[1]) == Insert([], d[1]) + [d[0]];
  }

  /** The loop collects nothing exactly when no symptom names any key of
      the table. */
  lemma {:induction false} NoKeyMeansEmptyPool(symptoms: seq<string>)
    ensures Accumulated(symptoms) == [] <==>
      forall s, j :: s in symptoms && 0 <= j < |CommonDiagnoses| ==> !Contains(Lower(s), CommonDiagnoses[j].key)
    decreases |symptoms|
  {
    if symptoms != [] {
      var init := symptoms[..|symptoms| - 1];
      var last := symptoms[|symptoms| - 1];
      NoKeyMeansEmptyPool(init);
      ContributionEmptyIff(Lower(last));
      MembersOfSnoc(symptoms);
    }
  }

  /** A symptom that names none of the keys adds nothing to the pool. */
  lemma {:induction false} AccumulatedSkipsUnmatched(symptoms: seq<string>, s: string)
    requires forall j :: 0 <= j < |CommonDiagnoses| ==> !Contains(Lower(s), CommonDiagnoses[j].key)
    ensures Accumulated(symptoms + [s]) == Accumulated(symptoms)
  {
    ContributionEmptyIff(Lower(s));
    assert (symptoms + [s])[..|symptoms|] == symptoms;
  }

  /** A symptom naming "chest pain" contributes the chest-pain list, whatever
      else it names (the table order gives that key precedence). */
  lemma ChestPainTakesPrecedence(s: string)
    requires Contains(Lower(s), "chest pain")
    ensures FirstContribution(Lower(s), CommonDiagnoses) == CommonDiagnoses[0].candidates
  {
  }
}
