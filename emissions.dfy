/** The emissions calculator: activity quantities in, emission rows and
    per-scope totals out. */
module Emissions {
  import opened Text

  /** One quantity entered by the user for one activity type. */
  datatype ActivityInput = ActivityInput(name: string, quantity: real, unit: string, category: string)

  /** One emission factor of the registry. */
  datatype Factor = Factor(name: string, value: real, unit: string, source: string, id: string)

  /** An item of the ordered input mapping: the activity key and its input. */
  type Entry = (string, ActivityInput)

  /** One calculated line. */
  datatype Row = Row(
    scope: string,
    category: string,
    activity: string,
    quantity: real,
    unit: string,
    factorRef: Text,
    emissions: real,
    sourceRef: string)

  /** Per-scope sums and their total. */
  datatype Totals = Totals(scope1: real, scope2: real, scope3: real, total: real)

  const Scope1: string := "Scope 1"
  const Scope2: string := "Scope 2"
  const Scope3: string := "Scope 3"
  const Zero: Totals := Totals(0.0, 0.0, 0.0, 0.0)

  lemma ScopesDistinct()
    ensures Scope1 != Scope2 && Scope1 != Scope3 && Scope2 != Scope3
  {
    assert Scope1[6] == '1' && Scope2[6] == '2' && Scope3[6] == '3';
  }

  predicate Recognised(scope: string) {
    scope == Scope1 || scope == Scope2 || scope == Scope3
  }

  // ---------------------------------------------------------------------
  // Scope label: the category text before the first " - "
  // ---------------------------------------------------------------------

  const Sep: string := " - "

  /** The separator starts at position k of s. */
  predicate SepAt(s: string, k: nat) {
    k + |Sep| <= |s| && s[k..k + |Sep|] == Sep
  }

  /** `category.split(" - ")[0]`: the category text before the first
      separator, or the whole category when there is none; never longer
      than the category. */
  function ScopeOf(category: string): (r: string)
    ensures |r| <= |category|
    decreases |category|
  {
    if |category| < |Sep| then category
    else if category[..|Sep|] == Sep then ""
    else [category[0]] + ScopeOf(category[1..])
  }

  /** The label is a prefix of the category. */
  lemma {:induction false} ScopeOfPrefix(category: string)
    ensures ScopeOf(category) <= category
    decreases |category|
  {
    if |category| >= |Sep| && category[..|Sep|] != Sep {
      ScopeOfPrefix(category[1..]);
      assert category == [category[0]] + category[1..];
    }
  }

  /** Dropping the first character moves every separator one position
      to the left. */
  lemma SepShift(s: string, k: nat)
    requires |s| > 0
    ensures SepAt(s[1..], k) <==> SepAt(s, k + 1)
  {
    if k + |Sep| <= |s[1..]| {
      assert s[1..][k..k + |Sep|] == s[k + 1..k + 1 + |Sep|];
    }
  }

  /** No separator starts inside the label. */
  lemma {:induction false} ScopeOfNoEarlierSep(category: string)
    ensures forall k :: 0 <= k < |ScopeOf(category)| ==> !SepAt(category, k)
    decreases |category|
  {
    if |category| >= |Sep| && category[..|Sep|] != Sep {
      var tail := category[1..];
      ScopeOfNoEarlierSep(tail);
      var r := ScopeOf(category);
      assert r == [category[0]] + ScopeOf(tail);
      forall k | 0 <= k < |r| ensures !SepAt(category, k) {
        if k == 0 {
          assert category[0..|Sep|] == category[..|Sep|];
        } else {
          assert !SepAt(tail, k - 1);
          SepShift(category, k - 1);
        }
      }
    }
  }

  /** The label is the whole category, or a separator follows it. */
  lemma {:induction false} ScopeOfEndsAtSep(category: string)
    ensures ScopeOf(category) == category || SepAt(category, |ScopeOf(category)|)
    decreases |category|
  {
    if |category| < |Sep| {
    } else if category[..|Sep|] == Sep {
      assert ScopeOf(category) == [];
      assert category[0..|Sep|] == category[..|Sep|];
    } else {
      var tail := category[1..];
      ScopeOfEndsAtSep(tail);
      var rest := ScopeOf(tail);
      assert ScopeOf(category) == [category[0]] + rest;
      if rest == tail {
        assert category == [category[0]] + tail;
      } else {
        SepShift(category, |rest|);
      }
    }
  }

  /** The label is the longest prefix of the category that ends at the first
      separator, or the whole category when it has no separator. */
  lemma ScopeOfIsFirstSplit(category: string)
    ensures var r := ScopeOf(category);
      r <= category &&
      (forall k :: 0 <= k < |r| ==> !SepAt(category, k)) &&
      (r == category || SepAt(category, |r|))
  {
    ScopeOfPrefix(category);
    ScopeOfNoEarlierSep(category);
    ScopeOfEndsAtSep(category);
  }

  /** A category written "<scope> - <rest>" whose scope part has no '-' has
      that scope part as its label. */
  lemma {:induction false} ScopeOfJoined(scope: string, rest: string)
    requires '-' !in scope
    ensures ScopeOf(scope + Sep + rest) == scope
    decreases |scope|
  {
    var c := scope + Sep + rest;
    if scope == [] {
      assert c[..|Sep|] == Sep;
    } else {
      // the second character is either part of the scope or the separator's
      // leading blank, so no separator starts at position 0
      assert c[1] == (if |scope| > 1 then scope[1] else Sep[0]);
      assert c[..|Sep|][1] != Sep[1];
      assert c[1..] == scope[1..] + Sep + rest;
      ScopeOfJoined(scope[1..], rest);
      assert c == [c[0]] + c[1..];
    }
  }

  // ---------------------------------------------------------------------
  // calculate_emissions
  // ---------------------------------------------------------------------

  /** The entry yields a row: a positive quantity and a key with a factor. */
  predicate Survives(e: Entry, factors: map<string, Factor>) {
    e.1.quantity > 0.0 && e.0 in factors
  }

  /** The row built from an input and its factor. */
  function MakeRow(act: ActivityInput, f: Factor): Row {
    Row(
      ScopeOf(act.category),
      act.category,
      act.name,
      act.quantity,
      act.unit,
      [Num(f.value, Repr), Lit(" (" + f.unit + ")")],
      act.quantity * f.value,
      f.source + " [" + f.id + "]")
  }

  /** The rows one entry contributes: none when skipped, else one. */
  function RowsFor(e: Entry, factors: map<string, Factor>): seq<Row> {
    if e.1.quantity <= 0.0 then []
    else if e.0 !in factors then []
    else [MakeRow(e.1, factors[e.0])]
  }

  /** The rows of the whole input, in input order. */
  function Calculate(inputs: seq<Entry>, factors: map<string, Factor>): (rows: seq<Row>)
    ensures |rows| <= |inputs|
    ensures forall j :: 0 <= j < |rows| ==> rows[j].quantity > 0.0
    decreases |inputs|
  {
    if inputs == [] then []
    else
      var n := |inputs| - 1;
      Calculate(inputs[..n], factors) + RowsFor(inputs[n], factors)
  }

  /** `calculate_emissions`: walks the inputs in order, skipping entries with
      no positive quantity or no factor, and appends one row per other entry. */
  method CalculateEmissions(inputs: seq<Entry>, factors: map<string, Factor>) returns (rows: seq<Row>)
    ensures rows == Calculate(inputs, factors)
    ensures |rows| <= |inputs|
  {
    rows := [];
    for i := 0 to |inputs|
      invariant rows == Calculate(inputs[..i], factors)
      invariant |rows| <= i
    {
      assert inputs[..i + 1][..i] == inputs[..i];
      assert Calculate(inputs[..i + 1], factors) == rows + RowsFor(inputs[i], factors);
      var key, act := inputs[i].0, inputs[i].1;
      if act.quantity <= 0.0 {
        continue;
      }
      if key !in factors {
        continue;
      }
      var factor := factors[key];
      var emissions := act.quantity * factor.value;
      var row := Row(
        ScopeOf(act.category),
        act.category,
        act.name,
        act.quantity,
        act.unit,
        [Num(factor.value, Repr), Lit(" (" + factor.unit + ")")],
        emissions,
        factor.source + " [" + factor.id + "]");
      assert row == MakeRow(act, factor);
      rows := rows + [row];
    }
    assert inputs[..|inputs|] == inputs;
  }

  /** Positions of the entries that yield a row, in increasing order: an
      independent account of which entries the calculator keeps. */
  function SurvivorIndices(inputs: seq<Entry>, factors: map<string, Factor>): (idx: seq<nat>)
    ensures forall j :: 0 <= j < |idx| ==> idx[j] < |inputs| && Survives(inputs[idx[j]], factors)
    ensures forall j, k :: 0 <= j < k < |idx| ==> idx[j] < idx[k]
    ensures forall i :: 0 <= i < |inputs| ==> (i in idx <==> Survives(inputs[i], factors))
    decreases |inputs|
  {
    if inputs == [] then []
    else
      var n := |inputs| - 1;
      var front := SurvivorIndices(inputs[..n], factors);
      assert forall j :: 0 <= j < |front| ==> inputs[..n][front[j]] == inputs[front[j]];
      assert forall i :: 0 <= i < n ==> inputs[..n][i] == inputs[i];
      front + (if Survives(inputs[n], factors) then [n] else [])
  }

  /** The row carries the entry's input verbatim and the product of its
      quantity and its factor's value. */
  predicate RowFrom(r: Row, e: Entry, factors: map<string, Factor>) {
    e.0 in factors &&
    var f := factors[e.0];
    r.scope == ScopeOf(e.1.category) &&
    r.category == e.1.category &&
    r.activity == e.1.name &&
    r.quantity == e.1.quantity &&
    r.unit == e.1.unit &&
    r.emissions == e.1.quantity * f.value &&
    r.factorRef == [Num(f.value, Repr), Lit(" (" + f.unit + ")")] &&
    r.sourceRef == f.source + " [" + f.id + "]"
  }

  /** The row built for a kept entry is made from it and its factor. */
  lemma MakeRowFrom(e: Entry, factors: map<string, Factor>)
    requires e.0 in factors
    ensures RowFrom(MakeRow(e.1, factors[e.0]), e, factors)
  {
  }

  lemma {:induction false} CalculateMakesRows(inputs: seq<Entry>, factors: map<string, Factor>)
    ensures var rows, idx := Calculate(inputs, factors), SurvivorIndices(inputs, factors);
      |rows| == |idx| &&
      (forall j :: 0 <= j < |idx| ==> inputs[idx[j]].0 in factors && rows[j] == MakeRow(inputs[idx[j]].1, factors[inputs[idx[j]].0]))
    decreases |inputs|
  {
    if inputs != [] {
      var n := |inputs| - 1;
      var pre := inputs[..n];
      CalculateMakesRows(pre, factors);
      var rows0, idx0 := Calculate(pre, factors), SurvivorIndices(pre, factors);
      var rows, idx := Calculate(inputs, factors), SurvivorIndices(inputs, factors);
      var last := RowsFor(inputs[n], factors);
      assert rows == rows0 + last;
      assert idx == idx0 + (if Survives(inputs[n], factors) then [n] else []);
      forall j | 0 <= j < |idx|
        ensures inputs[idx[j]].0 in factors && rows[j] == MakeRow(inputs[idx[j]].1, factors[inputs[idx[j]].0])
      {
        if j < |idx0| {
          assert rows[j] == rows0[j] && idx[j] == idx0[j];
          assert pre[idx0[j]] == inputs[idx0[j]];
        } else {
          assert rows[j] == last[0] && idx[j] == n;
        }
      }
    }
  }

  /** The calculated rows are one-to-one, in order, with the entries that have
      a positive quantity and a factor (listed by SurvivorIndices); every
      other entry is skipped. */
  lemma CalculateFollowsSurvivors(inputs: seq<Entry>, factors: map<string, Factor>)
    ensures var rows, idx := Calculate(inputs, factors), SurvivorIndices(inputs, factors);
      |rows| == |idx| &&
      (forall j :: 0 <= j < |idx| ==> RowFrom(rows[j], inputs[idx[j]], factors))
  {
    CalculateMakesRows(inputs, factors);
    var rows, idx := Calculate(inputs, factors), SurvivorIndices(inputs, factors);
    forall j | 0 <= j < |idx| ensures RowFrom(rows[j], inputs[idx[j]], factors) {
      MakeRowFrom(inputs[idx[j]], factors);
    }
  }

  /** Every entry's category names one of the three scopes. */
  predicate CategoriesRecognised(inputs: seq<Entry>) {
    forall i :: 0 <= i < |inputs| ==> Recognised(ScopeOf(inputs[i].1.category))
  }

  lemma CategoriesRecognisedAppend(a: seq<Entry>, b: seq<Entry>)
    requires CategoriesRecognised(a) && CategoriesRecognised(b)
    ensures CategoriesRecognised(a + b)
  {
    assert forall i :: 0 <= i < |a + b| ==> (a + b)[i] == if i < |a| then a[i] else b[i - |a|];
  }

  /** When every entry's category names one of the three scopes, so does
      every calculated row. */
  lemma RowsRecognised(inputs: seq<Entry>, factors: map<string, Factor>)
    requires CategoriesRecognised(inputs)
    ensures forall j :: 0 <= j < |Calculate(inputs, factors)| ==> Recognised(Calculate(inputs, factors)[j].scope)
  {
    CalculateFollowsSurvivors(inputs, factors);
    var rows, idx := Calculate(inputs, factors), SurvivorIndices(inputs, factors);
    forall j | 0 <= j < |rows| ensures Recognised(rows[j].scope) {
      assert RowFrom(rows[j], inputs[idx[j]], factors);
    }
  }

  /** Calculation distributes over concatenation of the input. */
  lemma {:induction false} CalculateAppend(a: seq<Entry>, b: seq<Entry>, factors: map<string, Factor>)
    ensures Calculate(a + b, factors) == Calculate(a, factors) + Calculate(b, factors)
    decreases |b|
  {
    if b == [] {
      assert a + b == a;
    } else {
      var n := |b| - 1;
      var ab := a + b;
      assert ab[..|ab| - 1] == a + b[..n];
      assert ab[|ab| - 1] == b[n];
      CalculateAppend(a, b[..n], factors);
      calc {
        Calculate(ab, factors);
        Calculate(a + b[..n], factors) + RowsFor(b[n], factors);
        Calculate(a, factors) + Calculate(b[..n], factors) + RowsFor(b[n], factors);
        Calculate(a, factors) + Calculate(b, factors);
      }
    }
  }

  // ---------------------------------------------------------------------
  // summarize
  // ---------------------------------------------------------------------

  /** Sum of the emissions of the rows whose scope is exactly `scope`. */
  function ScopeSum(rows: seq<Row>, scope: string): (s: real)
    ensures (forall j :: 0 <= j < |rows| ==> rows[j].emissions >= 0.0) ==> s >= 0.0
    decreases |rows|
  {
    if rows == [] then 0.0
    else (if rows[0].scope == scope then rows[0].emissions else 0.0) + ScopeSum(rows[1..], scope)
  }

  /** `summarize`: the three fixed scope buckets and their total; all zeros for no rows. */
  function Summarize(rows: seq<Row>): (t: Totals)
    ensures rows == [] ==> t == Zero
    ensures t.total == t.scope1 + t.scope2 + t.scope3
    ensures t.scope1 == ScopeSum(rows, Scope1)
    ensures t.scope2 == ScopeSum(rows, Scope2)
    ensures t.scope3 == ScopeSum(rows, Scope3)
  {
    if rows == [] then Zero
    else
      var s1 := ScopeSum(rows, Scope1);
      var s2 := ScopeSum(rows, Scope2);
      var s3 := ScopeSum(rows, Scope3);
      Totals(s1, s2, s3, s1 + s2 + s3)
  }

  function Add(t: Totals, u: Totals): Totals {
    Totals(t.scope1 + u.scope1, t.scope2 + u.scope2, t.scope3 + u.scope3, t.total + u.total)
  }

  lemma AddAssociative(t: Totals, u: Totals, v: Totals)
    ensures Add(Add(t, u), v) == Add(t, Add(u, v))
  {
  }

  predicate AtMost(t: Totals, u: Totals) {
    t.scope1 <= u.scope1 && t.scope2 <= u.scope2 && t.scope3 <= u.scope3 && t.total <= u.total
  }

  lemma {:induction false} ScopeSumAppend(a: seq<Row>, b: seq<Row>, scope: string)
    ensures ScopeSum(a + b, scope) == ScopeSum(a, scope) + ScopeSum(b, scope)
    decreases |a|
  {
    if a == [] {
      assert a + b == b;
    } else {
      assert (a + b)[1..] == a[1..] + b;
      ScopeSumAppend(a[1..], b, scope);
    }
  }

  /** Summarising concatenated rows adds the two summaries, bucket by bucket. */
  lemma SummarizeAppend(a: seq<Row>, b: seq<Row>)
    ensures Summarize(a + b) == Add(Summarize(a), Summarize(b))
  {
    ScopeSumAppend(a, b, Scope1);
    ScopeSumAppend(a, b, Scope2);
    ScopeSumAppend(a, b, Scope3);
  }

  /** Sum of the emissions of the rows whose scope is one of the three buckets. */
  function RecognisedSum(rows: seq<Row>): real
    decreases |rows|
  {
    if rows == [] then 0.0
    else (if Recognised(rows[0].scope) then rows[0].emissions else 0.0) + RecognisedSum(rows[1..])
  }

  /** Sum of the emissions of all rows. */
  function EmissionsSum(rows: seq<Row>): real
    decreases |rows|
  {
    if rows == [] then 0.0 else rows[0].emissions + EmissionsSum(rows[1..])
  }

  /** The total counts every row of a recognised scope exactly once and no
      other row. */
  lemma {:induction false} TotalIsRecognisedSum(rows: seq<Row>)
    ensures Summarize(rows).total == RecognisedSum(rows)
    decreases |rows|
  {
    if rows != [] {
      TotalIsRecognisedSum(rows[1..]);
      ScopesDistinct();
    }
  }

  /** When every row's scope is one of the three buckets, the total is the
      sum of all rows. */
  lemma {:induction false} TotalIsEmissionsSum(rows: seq<Row>)
    requires forall j :: 0 <= j < |rows| ==> Recognised(rows[j].scope)
    ensures Summarize(rows).total == EmissionsSum(rows)
  {
    TotalIsRecognisedSum(rows);
    RecognisedSumOfRecognised(rows);
  }

  lemma {:induction false} RecognisedSumOfRecognised(rows: seq<Row>)
    requires forall j :: 0 <= j < |rows| ==> Recognised(rows[j].scope)
    ensures RecognisedSum(rows) == EmissionsSum(rows)
    decreases |rows|
  {
    if rows != [] {
      assert Recognised(rows[0].scope);
      RecognisedSumOfRecognised(rows[1..]);
    }
  }

  /** A row whose scope is none of the three buckets changes no bucket and
      not the total, wherever it stands. */
  lemma UnrecognisedRowIgnored(a: seq<Row>, r: Row, b: seq<Row>)
    requires !Recognised(r.scope)
    ensures Summarize(a + [r] + b) == Summarize(a + b)
  {
    SummarizeSingle(r);
    BucketTotal(r.scope, r.emissions);
    assert Summarize([r]) == Zero;
    SummarizeAppend(a + [r], b);
    SummarizeAppend(a, [r]);
    SummarizeAppend(a, b);
  }

  // ---------------------------------------------------------------------
  // Calculation followed by summary, entry by entry
  // ---------------------------------------------------------------------

  /** Which of the three buckets a scope label selects: 1, 2 or 3, and 0
      for any other label. */
  function BucketIndex(scope: string): (k: int)
    ensures 0 <= k <= 3
  {
    if scope == Scope1 then 1 else if scope == Scope2 then 2 else if scope == Scope3 then 3 else 0
  }

  /** The totals that emissions x make in bucket k. */
  function BucketAt(k: int, x: real): Totals {
    if k == 1 then Totals(x, 0.0, 0.0, x)
    else if k == 2 then Totals(0.0, x, 0.0, x)
    else if k == 3 then Totals(0.0, 0.0, x, x)
    else Zero
  }

  /** The totals that emissions x recorded under `scope` amount to. */
  function Bucket(scope: string, x: real): Totals {
    BucketAt(BucketIndex(scope), x)
  }

  /** The three scope labels select the three buckets. */
  lemma ScopeIndices()
    ensures BucketIndex(Scope1) == 1 && BucketIndex(Scope2) == 2 && BucketIndex(Scope3) == 3
  {
    ScopesDistinct();
  }

  /** Emissions under one of the three scopes reach the total in full;
      under any other label they are not counted at all. */
  lemma BucketTotal(scope: string, x: real)
    ensures Recognised(scope) ==> Bucket(scope, x).total == x
    ensures !Recognised(scope) ==> Bucket(scope, x) == Zero
  {
    ScopesDistinct();
  }

  lemma SummarizeSingle(r: Row)
    ensures Summarize([r]) == Bucket(r.scope, r.emissions)
  {
    assert [r][1..] == [];
    assert ScopeSum([], Scope1) == ScopeSum([], Scope2) == ScopeSum([], Scope3) == 0.0;
    ScopesDistinct();
  }

  /** Two contributions to the same scope add up in that scope. */
  lemma BucketAtAdd(k: int, x: real, y: real)
    ensures Add(BucketAt(k, x), BucketAt(k, y)) == BucketAt(k, x + y)
  {
  }

  lemma BucketAdd(scope: string, x: real, y: real)
    ensures Add(Bucket(scope, x), Bucket(scope, y)) == Bucket(scope, x + y)
  {
    BucketAtAdd(BucketIndex(scope), x, y);
  }

  /** What one entry adds to the totals: quantity times factor in its
      category's scope bucket, or nothing when it is skipped. */
  function EntryTotals(e: Entry, factors: map<string, Factor>): Totals {
    if Survives(e, factors) then Bucket(ScopeOf(e.1.category), e.1.quantity * factors[e.0].value) else Zero
  }

  /** The entries' contributions added up, in input order. */
  function EntriesTotals(inputs: seq<Entry>, factors: map<string, Factor>): Totals
    decreases |inputs|
  {
    if inputs == [] then Zero
    else
      var n := |inputs| - 1;
      Add(EntriesTotals(inputs[..n], factors), EntryTotals(inputs[n], factors))
  }

  /** Adding up contributions distributes over concatenation of the input. */
  lemma {:induction false} EntriesTotalsAppend(a: seq<Entry>, b: seq<Entry>, factors: map<string, Factor>)
    ensures EntriesTotals(a + b, factors) == Add(EntriesTotals(a, factors), EntriesTotals(b, factors))
    decreases |b|
  {
    if b == [] {
      assert a + b == a;
      assert Add(EntriesTotals(a, factors), Zero) == EntriesTotals(a, factors);
    } else {
      var n := |b| - 1;
      var last := EntryTotals(b[n], factors);
      assert (a + b)[..|a + b| - 1] == a + b[..n];
      assert (a + b)[|a + b| - 1] == b[n];
      calc {
        EntriesTotals(a + b, factors);
        Add(EntriesTotals(a + b[..n], factors), last);
        { EntriesTotalsAppend(a, b[..n], factors); }
        Add(Add(EntriesTotals(a, factors), EntriesTotals(b[..n], factors)), last);
        { AddAssociative(EntriesTotals(a, factors), EntriesTotals(b[..n], factors), last); }
        Add(EntriesTotals(a, factors), Add(EntriesTotals(b[..n], factors), last));
        Add(EntriesTotals(a, factors), EntriesTotals(b, factors));
      }
    }
  }

  /** The sum of a sequence of amounts, added in order. */
  function Sum(c: seq<real>): real
    decreases |c|
  {
    if c == [] then 0.0 else Sum(c[..|c| - 1]) + c[|c| - 1]
  }

  /** Sums of one, two and three amounts. */
  lemma SumOfFew(x: real, y: real, z: real)
    ensures Sum([x]) == x
    ensures Sum([x, y]) == x + y
    ensures Sum([x, y, z]) == x + y + z
  {
    assert [x, y, z][..2] == [x, y];
    assert [x, y][..1] == [x];
    assert [x][..0] == [];
  }

  /** Entry e adds exactly x to `scope`. */
  predicate Contributes(e: Entry, factors: map<string, Factor>, scope: string, x: real) {
    EntryTotals(e, factors) == Bucket(scope, x)
  }

  /** Entries that each contribute to the same scope, the i-th contributing
      c[i], add up to the sum of the c[i] in that scope. */
  lemma {:induction false} SameScope(s: seq<Entry>, factors: map<string, Factor>, scope: string, c: seq<real>)
    requires |c| == |s|
    requires forall i :: 0 <= i < |s| ==> Contributes(s[i], factors, scope, c[i])
    ensures EntriesTotals(s, factors) == Bucket(scope, Sum(c))
    decreases |s|
  {
    if s == [] {
      assert Bucket(scope, 0.0) == Zero;
    } else {
      var n := |s| - 1;
      forall i | 0 <= i < n
        ensures Contributes(s[..n][i], factors, scope, c[..n][i])
      {
        assert s[..n][i] == s[i] && c[..n][i] == c[i];
      }
      assert Contributes(s[n], factors, scope, c[n]);
      assert c != [] && |c| - 1 == n;
      assert Sum(c) == Sum(c[..n]) + c[n];
      calc {
        EntriesTotals(s, factors);
        Add(EntriesTotals(s[..n], factors), EntryTotals(s[n], factors));
        { SameScope(s[..n], factors, scope, c[..n]); }
        Add(Bucket(scope, Sum(c[..n])), Bucket(scope, c[n]));
        { BucketAdd(scope, Sum(c[..n]), c[n]); }
        Bucket(scope, Sum(c));
      }
    }
  }

  /** Quantity times factor for an entry that is kept, zero otherwise. */
  function Emitted(e: Entry, factors: map<string, Factor>): real {
    if Survives(e, factors) then e.1.quantity * factors[e.0].value else 0.0
  }

  function SurvivingEmissions(inputs: seq<Entry>, factors: map<string, Factor>): real
    decreases |inputs|
  {
    if inputs == [] then 0.0
    else
      var n := |inputs| - 1;
      var e := inputs[n];
      SurvivingEmissions(inputs[..n], factors) + Emitted(e, factors)
  }

  /** Summarising the calculated rows is adding up each entry's contribution. */
  lemma {:induction false} SummaryOfCalculation(inputs: seq<Entry>, factors: map<string, Factor>)
    ensures Summarize(Calculate(inputs, factors)) == EntriesTotals(inputs, factors)
    decreases |inputs|
  {
    if inputs != [] {
      var n := |inputs| - 1;
      var e := inputs[n];
      SummaryOfCalculation(inputs[..n], factors);
      SummarizeAppend(Calculate(inputs[..n], factors), RowsFor(e, factors));
      SummaryOfRowsFor(e, factors);
    }
  }

  lemma SummaryOfRowsFor(e: Entry, factors: map<string, Factor>)
    ensures Summarize(RowsFor(e, factors)) == EntryTotals(e, factors)
  {
    if Survives(e, factors) {
      var r := MakeRow(e.1, factors[e.0]);
      assert RowsFor(e, factors) == [r];
      SummarizeSingle(r);
      assert Bucket(r.scope, r.emissions) == EntryTotals(e, factors);
    } else {
      assert RowsFor(e, factors) == [];
    }
  }

  /** The total of the summary is the sum of quantity times factor over
      exactly the kept entries, when every kept entry's category names one of
      the three scopes. */
  lemma {:induction false} TotalOfCalculation(inputs: seq<Entry>, factors: map<string, Factor>)
    requires forall i :: 0 <= i < |inputs| ==> KeptInScope(inputs[i], factors)
    ensures Summarize(Calculate(inputs, factors)).total == SurvivingEmissions(inputs, factors)
  {
    SummaryOfCalculation(inputs, factors);
    EntriesTotalOfRecognised(inputs, factors);
  }

  /** A kept entry's category names one of the three scopes. */
  predicate KeptInScope(e: Entry, factors: map<string, Factor>) {
    Survives(e, factors) ==> Recognised(ScopeOf(e.1.category))
  }

  lemma EntryTotalOfRecognised(e: Entry, factors: map<string, Factor>)
    requires KeptInScope(e, factors)
    ensures EntryTotals(e, factors).total == Emitted(e, factors)
  {
    if Survives(e, factors) {
      BucketTotal(ScopeOf(e.1.category), e.1.quantity * factors[e.0].value);
    }
  }

  lemma EntriesTotalStep(inputs: seq<Entry>, factors: map<string, Factor>)
    requires inputs != []
    requires EntriesTotals(inputs[..|inputs| - 1], factors).total == SurvivingEmissions(inputs[..|inputs| - 1], factors)
    requires KeptInScope(inputs[|inputs| - 1], factors)
    ensures EntriesTotals(inputs, factors).total == SurvivingEmissions(inputs, factors)
  {
    var n := |inputs| - 1;
    var e := inputs[n];
    calc {
      EntriesTotals(inputs, factors).total;
      Add(EntriesTotals(inputs[..n], factors), EntryTotals(e, factors)).total;
      EntriesTotals(inputs[..n], factors).total + EntryTotals(e, factors).total;
      { EntryTotalOfRecognised(e, factors); }
      SurvivingEmissions(inputs[..n], factors) + Emitted(e, factors);
      SurvivingEmissions(inputs, factors);
    }
  }

  lemma {:induction false} EntriesTotalOfRecognised(inputs: seq<Entry>, factors: map<string, Factor>)
    requires forall i :: 0 <= i < |inputs| ==> KeptInScope(inputs[i], factors)
    ensures EntriesTotals(inputs, factors).total == SurvivingEmissions(inputs, factors)
    decreases |inputs|
  {
    if inputs != [] {
      var n := |inputs| - 1;
      var pre := inputs[..n];
      var e := inputs[n];
      forall i | 0 <= i < |pre| ensures KeptInScope(pre[i], factors) {
        assert pre[i] == inputs[i];
      }
      EntriesTotalOfRecognised(pre, factors);
      EntriesTotalStep(inputs, factors);
    }
  }

  // ---------------------------------------------------------------------
  // Monotonicity in one quantity
  // ---------------------------------------------------------------------

  /** The inputs with the quantity of entry i replaced by q. */
  function WithQuantity(inputs: seq<Entry>, i: nat, q: real): (r: seq<Entry>)
    requires i < |inputs|
    ensures |r| == |inputs| && r[i].1.quantity == q
    ensures forall j :: 0 <= j < |inputs| && j != i ==> r[j] == inputs[j]
  {
    inputs[i := Raised(inputs[i], q)]
  }

  lemma BucketMonotone(scope: string, x: real, y: real)
    requires x <= y
    ensures AtMost(Bucket(scope, x), Bucket(scope, y))
  {
  }

  lemma ScaleMonotone(x: real, y: real, v: real)
    requires x <= y && v >= 0.0
    ensures x * v <= y * v
  {
    assert y * v - x * v == (y - x) * v;
  }

  function Raised(e: Entry, q: real): Entry {
    (e.0, e.1.(quantity := q))
  }

  lemma KeptEntryRaised(e: Entry, q: real, factors: map<string, Factor>)
    requires Survives(e, factors) && q >= e.1.quantity && factors[e.0].value >= 0.0
    ensures AtMost(EntryTotals(e, factors), EntryTotals(Raised(e, q), factors))
  {
    var v := factors[e.0].value;
    var lo, hi := e.1.quantity * v, q * v;
    assert lo <= hi by {
      ScaleMonotone(e.1.quantity, q, v);
    }
    BucketMonotone(ScopeOf(e.1.category), lo, hi);
  }

  lemma SkippedEntryRaised(e: Entry, q: real, factors: map<string, Factor>)
    requires !Survives(e, factors)
    requires e.0 in factors ==> factors[e.0].value >= 0.0
    ensures AtMost(EntryTotals(e, factors), EntryTotals(Raised(e, q), factors))
  {
    if Survives(Raised(e, q), factors) {
      var hi := q * factors[e.0].value;
      assert 0.0 <= hi by {
        ScaleMonotone(0.0, q, factors[e.0].value);
      }
      BucketMonotone(ScopeOf(e.1.category), 0.0, hi);
      assert Bucket(ScopeOf(e.1.category), 0.0) == Zero;
    }
  }

  lemma EntryTotalsMonotone(e: Entry, q: real, factors: map<string, Factor>)
    requires q >= e.1.quantity
    requires e.0 in factors ==> factors[e.0].value >= 0.0
    ensures AtMost(EntryTotals(e, factors), EntryTotals(Raised(e, q), factors))
  {
    if Survives(e, factors) {
      KeptEntryRaised(e, q, factors);
    } else {
      SkippedEntryRaised(e, q, factors);
    }
  }

  /** With non-negative factors, raising one entry's quantity lowers no scope
      bucket and not the total. */
  lemma {:induction false} MonotoneInQuantity(inputs: seq<Entry>, factors: map<string, Factor>, i: nat, q: real)
    requires i < |inputs| && q >= inputs[i].1.quantity
    requires forall k :: k in factors ==> factors[k].value >= 0.0
    ensures AtMost(Summarize(Calculate(inputs, factors)), Summarize(Calculate(WithQuantity(inputs, i, q), factors)))
  {
    SummaryOfCalculation(inputs, factors);
    SummaryOfCalculation(WithQuantity(inputs, i, q), factors);
    EntriesTotalsMonotone(inputs, factors, i, q);
  }

  lemma {:induction false} EntriesTotalsMonotone(inputs: seq<Entry>, factors: map<string, Factor>, i: nat, q: real)
    requires i < |inputs| && q >= inputs[i].1.quantity
    requires forall k :: k in factors ==> factors[k].value >= 0.0
    ensures AtMost(EntriesTotals(inputs, factors), EntriesTotals(WithQuantity(inputs, i, q), factors))
    decreases |inputs|
  {
    var n := |inputs| - 1;
    var raised := WithQuantity(inputs, i, q);
    if i == n {
      assert raised[..n] == inputs[..n];
      EntryTotalsMonotone(inputs[n], q, factors);
    } else {
      assert raised[..n] == WithQuantity(inputs[..n], i, q);
      EntriesTotalsMonotone(inputs[..n], factors, i, q);
    }
  }
}
