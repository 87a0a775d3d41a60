/**
 * Categorical-column inference (`candidate_categoricals` in streamlit/app3.py)
 * and the two places the dashboard assembles choice lists with the same
 * "append if present and not yet listed" pattern: the filter fields
 * (`cat_fields`) and the default category column.
 */
module Categoricals {
  import opened Wrappers

  /**
   * A dataframe column as these helpers see it: its name, whether its dtype is
   * `object`, and its number of distinct non-missing values (`None` when
   * counting them raises, e.g. for unhashable cells).
   */
  datatype Column = Column(name: string, isObject: bool, nunique: Option<nat>)

  /** A dataframe: its columns in order and its number of rows. */
  datatype Frame = Frame(columns: seq<Column>, rowCount: nat)

  function NamesOf(cs: seq<Column>): (names: seq<string>)
    ensures |names| == |cs| && forall i :: 0 <= i < |cs| ==> names[i] == cs[i].name
  {
    seq(|cs|, i requires 0 <= i < |cs| => cs[i].name)
  }

  function Names(df: Frame): seq<string> {
    NamesOf(df.columns)
  }

  function NameSet(df: Frame): set<string> {
    set i | 0 <= i < |df.columns| :: df.columns[i].name
  }

  /** pandas' `df.empty`: no columns or no rows. */
  predicate IsEmpty(df: Frame) {
    |df.columns| == 0 || df.rowCount == 0
  }

  /** Column names are unique (as after `read_csv`, which renames repeated headers). */
  predicate DistinctNames(df: Frame) {
    forall i, j :: 0 <= i < j < |df.columns| ==> df.columns[i].name != df.columns[j].name
  }

  predicate NoDuplicates(s: seq<string>) {
    forall i, j :: 0 <= i < j < |s| ==> s[i] != s[j]
  }

  /** `a` can be obtained from `b` by deleting elements: the order of `b` is kept. */
  predicate IsSubsequence(a: seq<string>, b: seq<string>)
    decreases |b|
  {
    if a == [] then true
    else if b == [] then false
    else if a[|a| - 1] == b[|b| - 1] then IsSubsequence(a[..|a| - 1], b[..|b| - 1])
    else IsSubsequence(a, b[..|b| - 1])
  }

  /** An object column whose distinct count lies in `(1, maxUniques]`. */
  predicate Qualifies(c: Column, maxUniques: int) {
    c.isObject && c.nunique.Some? && 1 < c.nunique.value <= maxUniques
  }

  /** The names of the qualifying columns, in frame order. */
  function AutoDetected(cs: seq<Column>, maxUniques: int): seq<string> {
    if cs == [] then []
    else AutoDetected(cs[..|cs| - 1], maxUniques) +
         (if Qualifies(cs[|cs| - 1], maxUniques) then [cs[|cs| - 1].name] else [])
  }

  /** `for x in xs: if x in pool and x not in acc: acc.append(x)`. */
  function AppendUnseen(acc: seq<string>, xs: seq<string>, pool: set<string>): seq<string> {
    if xs == [] then acc
    else
      var prev := AppendUnseen(acc, xs[..|xs| - 1], pool);
      var x := xs[|xs| - 1];
      if x in pool && x !in prev then prev + [x] else prev
  }

  /** What `candidate_categoricals(df, extra, max_uniques)` returns for a non-empty frame. */
  function Categoricals(df: Frame, extra: seq<string>, maxUniques: int): seq<string> {
    AppendUnseen(AutoDetected(df.columns, maxUniques), extra, NameSet(df))
  }

  // ---------------------------------------------------------------------------
  // Properties of the two building blocks.

  /** A qualifying column is listed exactly when it qualifies; the list keeps frame order. */
  lemma {:induction false} AutoDetectedSpec(cs: seq<Column>, maxUniques: int)
    ensures forall x :: x in AutoDetected(cs, maxUniques) <==>
                        exists i :: 0 <= i < |cs| && cs[i].name == x && Qualifies(cs[i], maxUniques)
    ensures IsSubsequence(AutoDetected(cs, maxUniques), NamesOf(cs))
  {
    if cs != [] {
      var init := cs[..|cs| - 1];
      AutoDetectedSpec(init, maxUniques);
      var names := NamesOf(cs);
      var initNames := NamesOf(init);
      assert names[..|names| - 1] == initNames;
      forall x ensures x in AutoDetected(cs, maxUniques) <==>
                       exists i :: 0 <= i < |cs| && cs[i].name == x && Qualifies(cs[i], maxUniques)
      {
        if x in AutoDetected(cs, maxUniques) && x !in AutoDetected(init, maxUniques) {
          assert cs[|cs| - 1].name == x && Qualifies(cs[|cs| - 1], maxUniques);
        }
        if exists i :: 0 <= i < |cs| && cs[i].name == x && Qualifies(cs[i], maxUniques) {
          var i :| 0 <= i < |cs| && cs[i].name == x && Qualifies(cs[i], maxUniques);
          if i < |init| {
            assert init[i] == cs[i];
          }
        }
      }
      if Qualifies(cs[|cs| - 1], maxUniques) {
        var r := AutoDetected(cs, maxUniques);
        assert r[..|r| - 1] == AutoDetected(init, maxUniques);
        assert r[|r| - 1] == names[|names| - 1];
      } else {
        assert AutoDetected(cs, maxUniques) == AutoDetected(init, maxUniques);
        SubsequenceOfLonger(AutoDetected(init, maxUniques), initNames, names);
      }
    }
  }

  lemma {:induction false} SubsequenceOfLonger(a: seq<string>, b: seq<string>, c: seq<string>)
    requires IsSubsequence(a, b) && c != [] && c[..|c| - 1] == b
    ensures IsSubsequence(a, c)
    decreases |c|, 1
  {
    if a != [] && a[|a| - 1] == c[|c| - 1] {
      SubsequenceDropLast(a, b);
    }
  }

  lemma {:induction false} SubsequenceDropLast(a: seq<string>, b: seq<string>)
    requires a != [] && IsSubsequence(a, b)
    ensures IsSubsequence(a[..|a| - 1], b)
    decreases |b|, 2
  {
    if a[|a| - 1] == b[|b| - 1] {
      SubsequenceOfLonger(a[..|a| - 1], b[..|b| - 1], b);
    } else {
      SubsequenceDropLast(a, b[..|b| - 1]);
      SubsequenceOfLonger(a[..|a| - 1], b[..|b| - 1], b);
    }
  }

  /** With unique column names the auto-detected list has no repeats. */
  lemma {:induction false} AutoDetectedNoDuplicates(cs: seq<Column>, maxUniques: int)
    requires forall i, j :: 0 <= i < j < |cs| ==> cs[i].name != cs[j].name
    ensures NoDuplicates(AutoDetected(cs, maxUniques))
  {
    if cs != [] {
      var init := cs[..|cs| - 1];
      AutoDetectedNoDuplicates(init, maxUniques);
      AutoDetectedSpec(init, maxUniques);
      var prev := AutoDetected(init, maxUniques);
      var last := cs[|cs| - 1];
      if Qualifies(last, maxUniques) {
        forall k | 0 <= k < |prev| ensures prev[k] != last.name {
          assert prev[k] in prev;
          var i :| 0 <= i < |init| && init[i].name == prev[k] && Qualifies(init[i], maxUniques);
          assert init[i] == cs[i];
        }
        assert AutoDetected(cs, maxUniques) == prev + [last.name];
      } else {
        assert AutoDetected(cs, maxUniques) == prev;
      }
    }
  }

  /**
   * Appending the unseen pool members of `xs` keeps `acc` as a prefix, adds
   * exactly the pool members of `xs` that were missing, never repeats a name,
   * and adds them in the order they come in `xs`.
   */
  lemma {:induction false} AppendUnseenSpec(acc: seq<string>, xs: seq<string>, pool: set<string>)
    ensures var r := AppendUnseen(acc, xs, pool);
            |acc| <= |r| && r[..|acc|] == acc &&
            (forall x :: x in r <==> x in acc || (x in xs && x in pool)) &&
            (NoDuplicates(acc) ==> NoDuplicates(r)) &&
            IsSubsequence(r[|acc|..], xs)
    ensures var r := AppendUnseen(acc, xs, pool);
            forall i, j :: |acc| <= i < j < |r| ==>
              exists p :: 0 <= p < |xs| && xs[p] == r[i] && r[j] !in xs[..p + 1]
  {
    AppendUnseenContents(acc, xs, pool);
    AppendUnseenOrder(acc, xs, pool);
    AppendUnseenFirstOrder(acc, xs, pool);
  }

  /**
   * The names added come in the order of their first occurrence in `xs`: an
   * earlier added name occurs in `xs` before any occurrence of a later one.
   */
  lemma {:induction false} AppendUnseenFirstOrder(acc: seq<string>, xs: seq<string>, pool: set<string>)
    ensures var r := AppendUnseen(acc, xs, pool);
            |acc| <= |r| &&
            (forall k :: |acc| <= k < |r| ==> r[k] in xs) &&
            (forall i, j :: |acc| <= i < j < |r| ==>
               exists p :: 0 <= p < |xs| && xs[p] == r[i] && r[j] !in xs[..p + 1])
  {
    if xs != [] {
      var init, x := xs[..|xs| - 1], xs[|xs| - 1];
      var prev := AppendUnseen(acc, init, pool);
      var r := AppendUnseen(acc, xs, pool);
      AppendUnseenFirstOrder(acc, init, pool);
      AppendUnseenContents(acc, init, pool);
      assert xs == init + [x];
      forall k | |acc| <= k < |r| ensures r[k] in xs {
        if k < |prev| {
          assert r[k] == prev[k];
        }
      }
      forall i, j | |acc| <= i < j < |r|
        ensures exists p :: 0 <= p < |xs| && xs[p] == r[i] && r[j] !in xs[..p + 1]
      {
        assert r[i] == prev[i];
        if j < |prev| {
          assert r[j] == prev[j];
          var p :| 0 <= p < |init| && init[p] == prev[i] && prev[j] !in init[..p + 1];
          assert xs[..p + 1] == init[..p + 1];
          assert xs[p] == init[p];
        } else {
          assert prev[i] in init;
          var p :| 0 <= p < |init| && init[p] == prev[i];
          assert r[j] == x && x !in init;
          assert xs[..p + 1] == init[..p + 1];
          assert forall y :: y in init[..p + 1] ==> y in init;
          assert xs[p] == init[p];
        }
      }
    }
  }

  lemma {:induction false} AppendUnseenContents(acc: seq<string>, xs: seq<string>, pool: set<string>)
    ensures var r := AppendUnseen(acc, xs, pool);
            |acc| <= |r| && r[..|acc|] == acc &&
            (forall x :: x in r <==> x in acc || (x in xs && x in pool)) &&
            (NoDuplicates(acc) ==> NoDuplicates(r))
  {
    if xs != [] {
      var init := xs[..|xs| - 1];
      var x := xs[|xs| - 1];
      var prev := AppendUnseen(acc, init, pool);
      AppendUnseenContents(acc, init, pool);
      assert xs == init + [x];
      if x in pool && x !in prev {
        var r := prev + [x];
        assert r[..|acc|] == prev[..|acc|];
      }
    }
  }

  lemma {:induction false} AppendUnseenOrder(acc: seq<string>, xs: seq<string>, pool: set<string>)
    ensures var r := AppendUnseen(acc, xs, pool);
            |acc| <= |r| && IsSubsequence(r[|acc|..], xs)
  {
    var r := AppendUnseen(acc, xs, pool);
    if xs == [] {
      assert r[|acc|..] == [];
    } else {
      var init := xs[..|xs| - 1];
      var x := xs[|xs| - 1];
      var prev := AppendUnseen(acc, init, pool);
      AppendUnseenOrder(acc, init, pool);
      if x in pool && x !in prev {
        assert r == prev + [x];
        assert r[|acc|..][..|r[|acc|..]| - 1] == prev[|acc|..];
      } else {
        SubsequenceOfLonger(prev[|acc|..], init, xs);
      }
    }
  }

  /**
   * The result of `candidate_categoricals` on a non-empty frame: no repeats,
   * only columns of the frame, an object column with `1 < nunique <= max_uniques`
   * or an allow-listed column of the frame is in it and nothing else is, the
   * auto-detected columns come first in frame order and the allow-listed ones
   * follow in allow-list order.
   */
  lemma CategoricalsSpec(df: Frame, extra: seq<string>, maxUniques: int)
    requires DistinctNames(df)
    ensures var r := Categoricals(df, extra, maxUniques);
            var auto := AutoDetected(df.columns, maxUniques);
            NoDuplicates(r) &&
            (forall x :: x in r ==> x in NameSet(df)) &&
            (forall i :: 0 <= i < |df.columns| && Qualifies(df.columns[i], maxUniques) ==> df.columns[i].name in r) &&
            (forall x :: x in extra && x in NameSet(df) ==> x in r) &&
            (forall x :: x in r && x !in extra ==>
                exists i :: 0 <= i < |df.columns| && df.columns[i].name == x && Qualifies(df.columns[i], maxUniques)) &&
            |auto| <= |r| && r[..|auto|] == auto &&
            IsSubsequence(auto, Names(df)) &&
            IsSubsequence(r[|auto|..], extra)
    ensures var r := Categoricals(df, extra, maxUniques);
            var auto := AutoDetected(df.columns, maxUniques);
            forall i, j :: |auto| <= i < j < |r| ==>
              exists p :: 0 <= p < |extra| && extra[p] == r[i] && r[j] !in extra[..p + 1]
  {
    var auto := AutoDetected(df.columns, maxUniques);
    AutoDetectedSpec(df.columns, maxUniques);
    AutoDetectedNoDuplicates(df.columns, maxUniques);
    AppendUnseenSpec(auto, extra, NameSet(df));
    forall x | x in auto ensures x in NameSet(df) {
      var i :| 0 <= i < |df.columns| && df.columns[i].name == x && Qualifies(df.columns[i], maxUniques);
    }
  }

  // ---------------------------------------------------------------------------
  // The operations.

  /** The `append`-if-unseen loop, with its `in pool` test. */
  method Extend(acc: seq<string>, xs: seq<string>, pool: set<string>) returns (r: seq<string>)
    ensures r == AppendUnseen(acc, xs, pool)
  {
    r := acc;
    for k := 0 to |xs|
      invariant r == AppendUnseen(acc, xs[..k], pool)
    {
      assert xs[..k + 1][..k] == xs[..k];
      if xs[k] in pool && xs[k] !in r {
        r := r + [xs[k]];
      }
    }
    assert xs[..|xs|] == xs;
  }

  /**
   * `candidate_categoricals` (streamlit/app3.py:135-151).  `extra == []` stands
   * for both `None` and an empty list, which the source treats alike.
   */
  method CandidateCategoricals(df: Option<Frame>, extra: seq<string>, maxUniques: int) returns (cols: seq<string>)
    requires df.Some? ==> DistinctNames(df.value)
    ensures df.None? || IsEmpty(df.value) ==> cols == []
    ensures df.Some? && !IsEmpty(df.value) ==> cols == Categoricals(df.value, extra, maxUniques)
  {
    cols := [];
    if df.None? || IsEmpty(df.value) {
      return;
    }
    var frame := df.value;
    for k := 0 to |frame.columns|
      invariant cols == AutoDetected(frame.columns[..k], maxUniques)
    {
      assert frame.columns[..k + 1][..k] == frame.columns[..k];
      var c := frame.columns[k];
      if c.isObject {
        match c.nunique {
          case Some(nun) =>
            if 1 < nun <= maxUniques {
              cols := cols + [c.name];
            }
          case None =>
            // counting distinct values raised: the column is skipped
        }
      }
    }
    assert frame.columns[..|frame.columns|] == frame.columns;
    if extra != [] {
      cols := Extend(cols, extra, NameSet(frame));
    }
  }

  /** Fields offered first as filters when present. */
  const SegmentFields: seq<string> := ["customer_segment", "segment", "tier", "region"]

  /** Transaction fields always offered when present. */
  const CommonTxFields: seq<string> := ["channel", "source", "store_id"]

  /**
   * The filter-field list `cat_fields` (streamlit/app3.py:307-320): the segment
   * fields the frame has, then the auto-detected categoricals, then the common
   * transaction fields the frame has, each name once.
   */
  function CatFieldList(merged: Frame, segmentFields: seq<string>, commonTxFields: seq<string>): seq<string> {
    var seg := AppendUnseen([], segmentFields, NameSet(merged));
    var auto := if IsEmpty(merged) then [] else Categoricals(merged, [], 50);
    AppendUnseen(AppendUnseen(seg, auto, set x | x in auto), commonTxFields, NameSet(merged))
  }

  /**
   * The filter fields are distinct, and the segment fields the frame has come
   * first, in their listed order.
   */
  lemma CatFieldListShape(merged: Frame, segmentFields: seq<string>, commonTxFields: seq<string>)
    requires DistinctNames(merged)
    ensures var fields := CatFieldList(merged, segmentFields, commonTxFields);
            var seg := AppendUnseen([], segmentFields, NameSet(merged));
            NoDuplicates(fields) &&
            |seg| <= |fields| && fields[..|seg|] == seg && IsSubsequence(seg, segmentFields)
    ensures var fields := CatFieldList(merged, segmentFields, commonTxFields);
            var seg := AppendUnseen([], segmentFields, NameSet(merged));
            var auto := if IsEmpty(merged) then [] else Categoricals(merged, [], 50);
            var mid := AppendUnseen(seg, auto, set x | x in auto);
            IsSubsequence(auto, Names(merged)) &&
            |seg| <= |mid| <= |fields| && fields[..|mid|] == mid &&
            IsSubsequence(mid[|seg|..], auto) &&
            IsSubsequence(fields[|mid|..], commonTxFields)
  {
    var names := NameSet(merged);
    var seg := AppendUnseen([], segmentFields, names);
    var auto := if IsEmpty(merged) then [] else Categoricals(merged, [], 50);
    var mid := AppendUnseen(seg, auto, set x | x in auto);
    var fields := AppendUnseen(mid, commonTxFields, names);
    AppendUnseenSpec([], segmentFields, names);
    assert seg[0..] == seg;
    AppendUnseenSpec(seg, auto, set x | x in auto);
    AppendUnseenSpec(mid, commonTxFields, names);
    assert fields[..|seg|] == fields[..|mid|][..|seg|];
    if !IsEmpty(merged) {
      CategoricalsSpec(merged, [], 50);
    }
  }

  /** `x` names a column `candidate_categoricals` picks by itself: the frame is not empty and the column qualifies. */
  predicate AutoCategorical(df: Frame, x: string, maxUniques: int) {
    !IsEmpty(df) && exists i :: 0 <= i < |df.columns| && df.columns[i].name == x && Qualifies(df.columns[i], maxUniques)
  }

  /**
   * A column is offered as a filter exactly when the frame has it and it is a
   * listed segment or transaction field or an auto-detected categorical.
   */
  lemma CatFieldListMembers(merged: Frame, segmentFields: seq<string>, commonTxFields: seq<string>)
    requires DistinctNames(merged)
    ensures forall x :: x in CatFieldList(merged, segmentFields, commonTxFields) <==>
              x in NameSet(merged) &&
              (x in segmentFields || x in commonTxFields || AutoCategorical(merged, x, 50))
  {
    var names := NameSet(merged);
    var seg := AppendUnseen([], segmentFields, names);
    var auto := if IsEmpty(merged) then [] else Categoricals(merged, [], 50);
    var mid := AppendUnseen(seg, auto, set x | x in auto);
    AppendUnseenSpec([], segmentFields, names);
    AppendUnseenSpec(seg, auto, set x | x in auto);
    AppendUnseenSpec(mid, commonTxFields, names);
    AutoMembers(merged);
    forall x ensures x in mid <==> (x in segmentFields && x in names) || x in auto {
      assert x in (set y | y in auto) <==> x in auto;
    }
  }

  /** The auto-detected part of the filter fields: the qualifying columns of a non-empty frame. */
  lemma AutoMembers(merged: Frame)
    requires DistinctNames(merged)
    ensures var auto := if IsEmpty(merged) then [] else Categoricals(merged, [], 50);
            forall x :: x in auto <==> x in NameSet(merged) && AutoCategorical(merged, x, 50)
  {
    if !IsEmpty(merged) {
      var auto := Categoricals(merged, [], 50);
      CategoricalsSpec(merged, [], 50);
      forall x | exists i :: 0 <= i < |merged.columns| && merged.columns[i].name == x && Qualifies(merged.columns[i], 50)
        ensures x in auto
      {
        var i :| 0 <= i < |merged.columns| && merged.columns[i].name == x && Qualifies(merged.columns[i], 50);
        assert merged.columns[i].name in auto;
      }
    }
  }

  /** `cat_fields`, built as the source builds it.  Its two name lists are the default values of the parameters. */
  method CatFields(merged: Frame, segmentFields: seq<string> := SegmentFields,
                   commonTxFields: seq<string> := CommonTxFields)
    returns (fields: seq<string>)
    requires DistinctNames(merged)
    ensures fields == CatFieldList(merged, segmentFields, commonTxFields)
  {
    var names := NameSet(merged);
    fields := Extend([], segmentFields, names);
    var catAuto := CandidateCategoricals(Some(merged), [], 50);
    // the source tests only `c not in cat_fields` here; every member of catAuto passes the pool test
    fields := Extend(fields, catAuto, set x | x in catAuto);
    fields := Extend(fields, commonTxFields, names);
  }

  /** Position, from `i` on, of the first name of `prefs` that occurs in `choices`, or `|prefs|`. */
  function FirstPresent(prefs: seq<string>, choices: seq<string>, i: nat): (r: nat)
    requires i <= |prefs|
    ensures i <= r <= |prefs|
    ensures r < |prefs| ==> prefs[r] in choices
    ensures forall j :: i <= j < r ==> prefs[j] !in choices
    decreases |prefs| - i
  {
    if i == |prefs| || prefs[i] in choices then i else FirstPresent(prefs, choices, i + 1)
  }

  /** Python's `list.index`: the position of the first occurrence of `x`. */
  function IndexOf(s: seq<string>, x: string): (r: nat)
    requires x in s
    ensures r < |s| && s[r] == x && x !in s[..r]
  {
    if s[0] == x then 0 else 1 + IndexOf(s[1..], x)
  }

  /**
   * The default category column (streamlit/app3.py:408-412): the position in
   * `choices` of the first preferred name present, else 0.  The source's list
   * is the default value of `prefs`.
   */
  method DefaultCategoryIndex(choices: seq<string>, prefs: seq<string> := SegmentFields) returns (idx: nat)
    ensures var k := FirstPresent(prefs, choices, 0);
            k < |prefs| ==> idx < |choices| && choices[idx] == prefs[k] && prefs[k] !in choices[..idx]
    ensures FirstPresent(prefs, choices, 0) == |prefs| ==> idx == 0
  {
    idx := 0;
    for i := 0 to |prefs|
      invariant forall j :: 0 <= j < i ==> prefs[j] !in choices
    {
      if prefs[i] in choices {
        idx := IndexOf(choices, prefs[i]);
        assert FirstPresent(prefs, choices, 0) == i;
        return;
      }
    }
    assert FirstPresent(prefs, choices, 0) == |prefs|;
  }

  /**
   * The category list is `candidate_categoricals(merged, extra=prefs)` of a
   * non-empty frame, so when the frame has any preferred column the default
   * comes from a preferred name: the first preferred name the frame has.
   */
  lemma DefaultIsPreferredWhenPresent(df: Frame, prefs: seq<string>, maxUniques: int, x: string)
    requires DistinctNames(df) && !IsEmpty(df) && x in prefs && x in NameSet(df)
    ensures var k := FirstPresent(prefs, Categoricals(df, prefs, maxUniques), 0);
            k < |prefs| && prefs[k] in NameSet(df) &&
            forall j :: 0 <= j < k ==> prefs[j] !in NameSet(df)
  {
    CategoricalsSpec(df, prefs, maxUniques);
  }
}
