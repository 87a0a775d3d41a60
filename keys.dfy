/**
 * Customer-key suggestion (`suggest_key` in streamlit/app3.py): the column that
 * most likely holds a customer identifier.
 */
module KeySuggestion {
  import opened Wrappers
  import opened Text

  /** The identifier names tried in priority order. */
  const KeyCandidates: seq<string> :=
    ["customer_id", "customerid", "cust_id", "custid", "cid", "user_id", "userid", "person_id", "personid"]

  /** Index of the last column whose normalised name is `k`, or -1 when there is none. */
  function LastWithNorm(cols: seq<string>, k: string): (p: int)
    ensures -1 <= p < |cols|
    ensures p >= 0 ==> Norm(cols[p]) == k
    ensures forall q :: p < q < |cols| ==> Norm(cols[q]) != k
  {
    if cols == [] then -1
    else if Norm(cols[|cols| - 1]) == k then |cols| - 1
    else LastWithNorm(cols[..|cols| - 1], k)
  }

  /**
   * The dictionary `{norm(c): c for c in cols}`: one key per normalised name, and
   * since later entries overwrite earlier ones, each key maps to the last column
   * with that normalised name.
   */
  function NormIndex(cols: seq<string>): (m: map<string, string>)
    ensures forall k :: k in m <==> LastWithNorm(cols, k) >= 0
    ensures forall k :: k in m ==> m[k] == cols[LastWithNorm(cols, k)]
  {
    if cols == [] then map[]
    else NormIndex(cols[..|cols| - 1])[Norm(cols[|cols| - 1]) := cols[|cols| - 1]]
  }

  /** `norm(name).endswith("id")`. */
  predicate EndsWithId(name: string) {
    var n := Norm(name);
    |n| >= 2 && n[|n| - 2] == 'i' && n[|n| - 1] == 'd'
  }

  /**
   * Position in `cands`, from `i` on, of the first name that some column
   * normalises to, or `|cands|` when there is none.
   */
  function FirstMatchingCandidate(cols: seq<string>, cands: seq<string>, i: nat): (r: nat)
    requires i <= |cands|
    ensures i <= r <= |cands|
    ensures r < |cands| ==> LastWithNorm(cols, cands[r]) >= 0
    ensures forall j :: i <= j < r ==> LastWithNorm(cols, cands[j]) < 0
    decreases |cands| - i
  {
    if i == |cands| || LastWithNorm(cols, cands[i]) >= 0 then i
    else FirstMatchingCandidate(cols, cands, i + 1)
  }

  /** Position of the first column whose normalised name ends in "id", or `|cols|`. */
  function FirstIdColumn(cols: seq<string>): (r: nat)
    ensures r <= |cols|
    ensures r < |cols| ==> EndsWithId(cols[r])
    ensures forall q :: 0 <= q < r ==> !EndsWithId(cols[q])
  {
    if cols == [] then 0
    else if EndsWithId(cols[0]) then 0
    else 1 + FirstIdColumn(cols[1..])
  }

  /**
   * The key `suggest_key` picks: the last column normalising to the earliest
   * candidate that some column normalises to; else the first column whose
   * normalised name ends in "id"; else the first column; else none.
   */
  function SuggestedKey(cols: seq<string>, candidates: seq<string>): (key: Option<string>)
    ensures key.None? <==> cols == []
    ensures key.Some? ==> key.value in cols
    ensures var i := FirstMatchingCandidate(cols, candidates, 0);
            i < |candidates| ==>
              (exists p :: 0 <= p < |cols| && key == Some(cols[p]) && Norm(cols[p]) == candidates[i] &&
                 forall q :: p < q < |cols| ==> Norm(cols[q]) != candidates[i]) &&
              (forall j, q :: 0 <= j < i && 0 <= q < |cols| ==> Norm(cols[q]) != candidates[j])
    ensures (forall j, q :: 0 <= j < |candidates| && 0 <= q < |cols| ==> Norm(cols[q]) != candidates[j]) ==>
              ((exists q :: 0 <= q < |cols| && EndsWithId(cols[q])) ==>
                 exists p :: 0 <= p < |cols| && key == Some(cols[p]) && EndsWithId(cols[p]) &&
                   forall q :: 0 <= q < p ==> !EndsWithId(cols[q])) &&
              ((forall q :: 0 <= q < |cols| ==> !EndsWithId(cols[q])) && cols != [] ==> key == Some(cols[0]))
  {
    var i := FirstMatchingCandidate(cols, candidates, 0);
    var p := FirstIdColumn(cols);
    if i < |candidates| then Some(cols[LastWithNorm(cols, candidates[i])])
    else if p < |cols| then Some(cols[p])
    else if cols != [] then Some(cols[0])
    else None
  }

  /** `suggest_key` (streamlit/app3.py:124-133).  The source's fixed list of identifier names is the default value of `candidates`. */
  method SuggestKey(cols: seq<string>, candidates: seq<string> := KeyCandidates) returns (key: Option<string>)
    ensures key == SuggestedKey(cols, candidates)
  {
    var ncols := NormIndex(cols);
    for i := 0 to |candidates|
      invariant forall j :: 0 <= j < i ==> candidates[j] !in ncols
    {
      var c := candidates[i];
      if c in ncols {
        assert FirstMatchingCandidate(cols, candidates, 0) == i;
        return Some(ncols[c]);
      }
    }
    for p := 0 to |cols|
      invariant forall q :: 0 <= q < p ==> !EndsWithId(cols[q])
    {
      if EndsWithId(cols[p]) {
        assert FirstMatchingCandidate(cols, candidates, 0) == |candidates|;
        assert FirstIdColumn(cols) == p;
        return Some(cols[p]);
      }
    }
    assert FirstMatchingCandidate(cols, candidates, 0) == |candidates|;
    assert FirstIdColumn(cols) == |cols|;
    return if cols != [] then Some(cols[0]) else None;
  }

  /**
   * The candidates written with an underscore can never match: `norm` removes
   * every underscore, so no key of the dictionary contains one.  Only their
   * underscore-free twins ("customerid", "custid", "userid", "personid") take effect.
   */
  lemma UnderscoredCandidatesNeverMatch(cols: seq<string>)
    ensures forall i :: 0 <= i < |KeyCandidates| && '_' in KeyCandidates[i] ==> KeyCandidates[i] !in NormIndex(cols)
  {
    forall i | 0 <= i < |KeyCandidates| && '_' in KeyCandidates[i]
      ensures KeyCandidates[i] !in NormIndex(cols)
    {
      var p := LastWithNorm(cols, KeyCandidates[i]);
      if p >= 0 {
        NormShape(cols[p]);
      }
    }
  }
}
