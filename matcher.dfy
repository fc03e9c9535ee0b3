// checkSymptoms: the conditions that share a symptom with the selection,
// ranked by how many of their symptoms were selected. Array.prototype.sort is
// stable (section 23.1.3.30 of ECMA-262), so conditions with the same count
// keep their catalog order; the sort is modelled as a stable insertion sort.

module Matcher {
  import opened Lists
  import opened Catalog

  /** `ids.filter(s => selected.includes(s))`: the selected ids, in the order of `ids`. */
  function SelectedAmong(ids: seq<string>, selected: seq<string>): seq<string> {
    if ids == [] then []
    else if ids[0] in selected then [ids[0]] + SelectedAmong(ids[1..], selected)
    else SelectedAmong(ids[1..], selected)
  }

  /** The condition's symptoms that were selected, in the condition's order. */
  function MatchingSymptoms(c: Condition, selected: seq<string>): seq<string> {
    SelectedAmong(c.symptoms, selected)
  }

  /** `ids.some(s => selected.includes(s))`. */
  predicate AnySelected(ids: seq<string>, selected: seq<string>) {
    ids != [] && (ids[0] in selected || AnySelected(ids[1..], selected))
  }

  /** The number of ids that were selected. */
  function CountSelected(ids: seq<string>, selected: seq<string>): nat {
    if ids == [] then 0 else (if ids[0] in selected then 1 else 0) + CountSelected(ids[1..], selected)
  }

  /** `condition.symptoms.filter(s => selected.includes(s)).length`. */
  function MatchCount(c: Condition, selected: seq<string>): nat {
    CountSelected(c.symptoms, selected)
  }

  /** The filter step of checkSymptoms. */
  function Candidates(conditions: seq<Condition>, selected: seq<string>): seq<Condition> {
    if conditions == [] then []
    else if AnySelected(conditions[0].symptoms, selected) then [conditions[0]] + Candidates(conditions[1..], selected)
    else Candidates(conditions[1..], selected)
  }

  /**
   * Puts `c` in front of the first condition of `ranked` whose count does not
   * exceed its own: after the conditions that rank strictly higher, before
   * those it ties with, which came later in the input.
   */
  function InsertByMatches(c: Condition, ranked: seq<Condition>, selected: seq<string>): seq<Condition> {
    if ranked == [] || MatchCount(ranked[0], selected) <= MatchCount(c, selected) then [c] + ranked
    else [ranked[0]] + InsertByMatches(c, ranked[1..], selected)
  }

  /** `sort((a, b) => count(b) - count(a))`, stable. */
  function SortByMatches(cs: seq<Condition>, selected: seq<string>): seq<Condition> {
    if cs == [] then [] else InsertByMatches(cs[0], SortByMatches(cs[1..], selected), selected)
  }

  /** checkSymptoms over a list of conditions: filter, then a stable sort by match count. */
  function CheckSymptomsIn(conditions: seq<Condition>, selected: seq<string>): seq<Condition> {
    SortByMatches(Candidates(conditions, selected), selected)
  }

  /** checkSymptoms over the condition catalog. */
  function CheckSymptoms(selected: seq<string>): seq<Condition> {
    CheckSymptomsIn(HealthConditions, selected)
  }


  /** Ordered by match count, highest first. */
  predicate RankedByMatches(cs: seq<Condition>, selected: seq<string>) {
    forall i, j :: 0 <= i < j < |cs| ==> MatchCount(cs[i], selected) >= MatchCount(cs[j], selected)
  }

  /** The conditions with exactly `k` selected symptoms, in their order in `cs`. */
  function WithCount(cs: seq<Condition>, selected: seq<string>, k: nat): seq<Condition> {
    if cs == [] then []
    else if MatchCount(cs[0], selected) == k then [cs[0]] + WithCount(cs[1..], selected, k)
    else WithCount(cs[1..], selected, k)
  }

  // Properties of the pieces.

  /** The matching symptoms are exactly the condition's selected symptoms, in its order. */
  lemma {:induction false} SelectedAmongSpec(ids: seq<string>, selected: seq<string>)
    ensures forall s :: s in SelectedAmong(ids, selected) <==> s in ids && s in selected
    ensures IsSubsequence(SelectedAmong(ids, selected), ids)
  {
    if ids != [] {
      SelectedAmongSpec(ids[1..], selected);
      assert ids == [ids[0]] + ids[1..];
    }
  }

  /** The count is the length of the filtered list. */
  lemma {:induction false} CountIsFilterLength(ids: seq<string>, selected: seq<string>)
    ensures CountSelected(ids, selected) == |SelectedAmong(ids, selected)|
  {
    if ids != [] {
      CountIsFilterLength(ids[1..], selected);
    }
  }

  /** `some` holds exactly when a listed id is selected, and exactly when the count is positive. */
  lemma {:induction false} AnySelectedSpec(ids: seq<string>, selected: seq<string>)
    ensures AnySelected(ids, selected) <==> exists s :: s in ids && s in selected
    ensures AnySelected(ids, selected) <==> CountSelected(ids, selected) > 0
  {
    if ids != [] {
      AnySelectedSpec(ids[1..], selected);
      assert ids == [ids[0]] + ids[1..];
    }
  }

  /** The filter step keeps exactly the conditions sharing a selected symptom, in order. */
  lemma {:induction false} CandidatesSpec(conditions: seq<Condition>, selected: seq<string>)
    ensures forall c :: c in Candidates(conditions, selected) <==>
              c in conditions && exists s :: s in c.symptoms && s in selected
    ensures IsSubsequence(Candidates(conditions, selected), conditions)
  {
    if conditions != [] {
      CandidatesSpec(conditions[1..], selected);
      AnySelectedSpec(conditions[0].symptoms, selected);
      assert conditions == [conditions[0]] + conditions[1..];
    }
  }

  lemma {:induction false} InsertPermutes(c: Condition, ranked: seq<Condition>, selected: seq<string>)
    ensures multiset(InsertByMatches(c, ranked, selected)) == multiset(ranked) + multiset{c}
  {
    if ranked != [] && MatchCount(ranked[0], selected) > MatchCount(c, selected) {
      InsertPermutes(c, ranked[1..], selected);
      assert ranked == [ranked[0]] + ranked[1..];
    }
  }

  /** The sort rearranges its input without adding or losing anything. */
  lemma {:induction false} SortPermutes(cs: seq<Condition>, selected: seq<string>)
    ensures multiset(SortByMatches(cs, selected)) == multiset(cs)
  {
    if cs != [] {
      SortPermutes(cs[1..], selected);
      InsertPermutes(cs[0], SortByMatches(cs[1..], selected), selected);
      assert cs == [cs[0]] + cs[1..];
    }
  }

  lemma {:induction false} InsertKeepsRanking(c: Condition, ranked: seq<Condition>, selected: seq<string>)
    requires RankedByMatches(ranked, selected)
    ensures RankedByMatches(InsertByMatches(c, ranked, selected), selected)
  {
    if ranked != [] && MatchCount(ranked[0], selected) > MatchCount(c, selected) {
      var rest := InsertByMatches(c, ranked[1..], selected);
      InsertKeepsRanking(c, ranked[1..], selected);
      InsertPermutes(c, ranked[1..], selected);
      forall j | 0 <= j < |rest| ensures MatchCount(ranked[0], selected) >= MatchCount(rest[j], selected) {
        assert rest[j] in multiset(rest);
        if rest[j] != c {
          assert rest[j] in ranked[1..];
        }
      }
    }
  }

  /**
   * In a ranked list, inserting `c` adds it in front of the conditions with
   * its own count and leaves every other count class as it was.
   */
  lemma {:induction false} InsertWithCount(c: Condition, ranked: seq<Condition>, selected: seq<string>, k: nat)
    requires RankedByMatches(ranked, selected)
    ensures WithCount(InsertByMatches(c, ranked, selected), selected, k) ==
              (if MatchCount(c, selected) == k then [c] else []) + WithCount(ranked, selected, k)
  {
    var r := InsertByMatches(c, ranked, selected);
    if ranked == [] || MatchCount(ranked[0], selected) <= MatchCount(c, selected) {
      assert r == [c] + ranked;
      assert r[1..] == ranked;
    } else {
      InsertWithCount(c, ranked[1..], selected, k);
      assert r[1..] == InsertByMatches(c, ranked[1..], selected);
      if MatchCount(c, selected) == k {
        assert MatchCount(ranked[0], selected) != k;
      }
    }
  }

  /** The sort ranks by count. */
  lemma {:induction false} SortRanks(cs: seq<Condition>, selected: seq<string>)
    ensures RankedByMatches(SortByMatches(cs, selected), selected)
  {
    if cs != [] {
      SortRanks(cs[1..], selected);
      InsertKeepsRanking(cs[0], SortByMatches(cs[1..], selected), selected);
    }
  }

  /** The sort is stable: each count class keeps its order from the input. */
  lemma {:induction false} SortIsStable(cs: seq<Condition>, selected: seq<string>, k: nat)
    ensures WithCount(SortByMatches(cs, selected), selected, k) == WithCount(cs, selected, k)
  {
    if cs != [] {
      SortIsStable(cs[1..], selected, k);
      SortRanks(cs[1..], selected);
      InsertWithCount(cs[0], SortByMatches(cs[1..], selected), selected, k);
    }
  }

  /** A positive count class is the same before and after the filter step. */
  lemma {:induction false} CandidatesWithCount(cs: seq<Condition>, selected: seq<string>, k: nat)
    requires k > 0
    ensures WithCount(Candidates(cs, selected), selected, k) == WithCount(cs, selected, k)
  {
    if cs != [] {
      CandidatesWithCount(cs[1..], selected, k);
      AnySelectedSpec(cs[0].symptoms, selected);
    }
  }

  // Properties of checkSymptoms, for any list of conditions and so for the catalog.

  /** Exactly the listed conditions that share a symptom with the selection. */
  lemma CheckSymptomsMembers(conditions: seq<Condition>, selected: seq<string>)
    ensures forall c :: c in CheckSymptomsIn(conditions, selected) <==>
              c in conditions && exists s :: s in c.symptoms && s in selected
  {
    var cands := Candidates(conditions, selected);
    CandidatesSpec(conditions, selected);
    SortPermutes(cands, selected);
    forall c ensures c in CheckSymptomsIn(conditions, selected) <==> c in cands {
      assert c in multiset(CheckSymptomsIn(conditions, selected)) <==> c in multiset(cands);
    }
  }

  /** The result is a rearrangement of the filtered list. */
  lemma CheckSymptomsPermutes(conditions: seq<Condition>, selected: seq<string>)
    ensures multiset(CheckSymptomsIn(conditions, selected)) == multiset(Candidates(conditions, selected))
  {
    SortPermutes(Candidates(conditions, selected), selected);
  }

  /** The result is ranked by match count, highest first. */
  lemma CheckSymptomsRanked(conditions: seq<Condition>, selected: seq<string>)
    ensures RankedByMatches(CheckSymptomsIn(conditions, selected), selected)
  {
    SortRanks(Candidates(conditions, selected), selected);
  }

  /** Conditions with the same count keep their order in the list. */
  lemma CheckSymptomsKeepsCatalogOrder(conditions: seq<Condition>, selected: seq<string>, k: nat)
    requires k > 0
    ensures WithCount(CheckSymptomsIn(conditions, selected), selected, k) == WithCount(conditions, selected, k)
  {
    SortIsStable(Candidates(conditions, selected), selected, k);
    CandidatesWithCount(conditions, selected, k);
  }

  /** With nothing selected no condition is suggested. */
  lemma CheckSymptomsNoSelection(conditions: seq<Condition>)
    ensures CheckSymptomsIn(conditions, []) == []
  {
    CandidatesNone(conditions);
  }

  lemma {:induction false} CandidatesNone(cs: seq<Condition>)
    ensures Candidates(cs, []) == []
  {
    if cs != [] {
      CandidatesNone(cs[1..]);
      AnySelectedSpec(cs[0].symptoms, []);
    }
  }

  /**
   * The result depends on the selection only through membership: order and
   * repetitions in the selection do not matter.
   */
  lemma CheckSymptomsMembershipOnly(conditions: seq<Condition>, a: seq<string>, b: seq<string>)
    requires forall s :: s in a <==> s in b
    ensures CheckSymptomsIn(conditions, a) == CheckSymptomsIn(conditions, b)
  {
    forall c: Condition ensures MatchCount(c, a) == MatchCount(c, b) && (AnySelected(c.symptoms, a) <==> AnySelected(c.symptoms, b)) {
      CountMembershipOnly(c.symptoms, a, b);
    }
    CandidatesMembershipOnly(conditions, a, b);
    SortSameCounts(Candidates(conditions, a), a, b);
  }

  lemma {:induction false} CountMembershipOnly(ids: seq<string>, a: seq<string>, b: seq<string>)
    requires forall s :: s in a <==> s in b
    ensures CountSelected(ids, a) == CountSelected(ids, b)
    ensures AnySelected(ids, a) <==> AnySelected(ids, b)
  {
    if ids != [] {
      CountMembershipOnly(ids[1..], a, b);
    }
  }

  lemma {:induction false} CandidatesMembershipOnly(cs: seq<Condition>, a: seq<string>, b: seq<string>)
    requires forall c: Condition :: AnySelected(c.symptoms, a) <==> AnySelected(c.symptoms, b)
    ensures Candidates(cs, a) == Candidates(cs, b)
  {
    if cs != [] {
      CandidatesMembershipOnly(cs[1..], a, b);
    }
  }

  lemma {:induction false} SortSameCounts(cs: seq<Condition>, a: seq<string>, b: seq<string>)
    requires forall c :: MatchCount(c, a) == MatchCount(c, b)
    ensures SortByMatches(cs, a) == SortByMatches(cs, b)
  {
    if cs != [] {
      SortSameCounts(cs[1..], a, b);
      InsertSameCounts(cs[0], SortByMatches(cs[1..], a), a, b);
    }
  }

  lemma {:induction false} InsertSameCounts(c: Condition, ranked: seq<Condition>, a: seq<string>, b: seq<string>)
    requires forall c :: MatchCount(c, a) == MatchCount(c, b)
    ensures InsertByMatches(c, ranked, a) == InsertByMatches(c, ranked, b)
  {
    if ranked != [] {
      InsertSameCounts(c, ranked[1..], a, b);
    }
  }
}
