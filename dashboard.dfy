/** The two chart series of the dashboard: spending by category (a pie chart)
    and spending per day over the last seven days (a bar chart). */
module Dashboard {
  import opened Records

  const Uncategorized := "Uncategorized"
  const Palette: seq<string> := ["#FF6384", "#36A2EB", "#FFCE56", "#4BC0C0", "#9966FF", "#FF9F40"]
  const LegendFontColor := "#7F7F7F"
  const LegendFontSize := 15

  /** `expense.category || 'Uncategorized'`: a null or empty category falls back. */
  function BucketOf(e: Expense): string
  {
    match e.category
    case Some(c) => if c == "" then Uncategorized else c
    case None => Uncategorized
  }

  /** A null or empty category lands in the fallback bucket; so does a category
      actually named "Uncategorized"; every other category is its own bucket. */
  lemma UncategorizedFallback(e: Expense)
    ensures BucketOf(e) != ""
    ensures BucketOf(e) == Uncategorized <==> e.category in {None, Some(""), Some(Uncategorized)}
    ensures e.category.Some? && e.category.value != "" ==> BucketOf(e) == e.category.value
  {
  }

  /** The bucket of every expense, in input order. */
  function BucketNames(es: seq<Expense>): seq<string>
  {
    seq(|es|, i requires 0 <= i < |es| => BucketOf(es[i]))
  }

  /** The reference meaning of a bucket's total: the amounts of its expenses. */
  function BucketTotal(es: seq<Expense>, c: string): real
  {
    SumIf(es, InBucket(c))
  }

  function InBucket(c: string): Expense -> bool
  {
    (e: Expense) => BucketOf(e) == c
  }

  /** The position of the first occurrence of `c` in `s`. */
  function FirstIndex(s: seq<string>, c: string): (k: nat)
    requires c in s
    ensures k < |s| && s[k] == c
    ensures forall j :: 0 <= j < k ==> s[j] != c
  {
    if s[0] == c then 0 else 1 + FirstIndex(s[1..], c)
  }

  // ---------------------------------------------------------------------------
  // Category totals: the `categoryTotals` object built by the reduce.

  /** A JavaScript object used as a dictionary: its keys in insertion order and
      the value stored under each. */
  datatype Tally = Tally(keys: seq<string>, totals: map<string, real>)

  ghost predicate WellFormed(t: Tally)
  {
    && (forall i, j :: 0 <= i < j < |t.keys| ==> t.keys[i] != t.keys[j])
    && (forall k :: k in t.keys <==> k in t.totals)
  }

  /** `acc[c] = (acc[c] || 0) + x`: a new key is appended to the insertion order. */
  function Add(t: Tally, c: string, x: real): Tally
  {
    var previous := if c in t.totals then t.totals[c] else 0.0;
    Tally(if c in t.totals then t.keys else t.keys + [c], t.totals[c := previous + x])
  }

  /** The dictionary after the reduce has visited every expense, left to right. */
  function TallyOf(es: seq<Expense>): Tally
  {
    if es == [] then Tally([], map[])
    else
      var e := es[|es| - 1];
      Add(TallyOf(es[..|es| - 1]), BucketOf(e), e.amount)
  }

  lemma BucketNamesSnoc(es: seq<Expense>)
    requires es != []
    ensures BucketNames(es) == BucketNames(es[..|es| - 1]) + [BucketOf(es[|es| - 1])]
  {
  }

  /** The dictionary's keys are distinct and are exactly the keys it stores. */
  lemma {:induction false} TallyWellFormed(es: seq<Expense>)
    ensures WellFormed(TallyOf(es))
  {
    if es != [] {
      TallyWellFormed(es[..|es| - 1]);
    }
  }

  /** The dictionary stores a key exactly for each bucket of the input. */
  lemma {:induction false} TallyKeys(es: seq<Expense>)
    ensures forall c :: c in TallyOf(es).totals <==> c in BucketNames(es)
  {
    if es != [] {
      TallyKeys(es[..|es| - 1]);
      BucketNamesSnoc(es);
    }
  }

  /** Under each bucket the dictionary holds the sum of that bucket's amounts. */
  lemma {:induction false} TallyValues(es: seq<Expense>)
    ensures forall c :: c in TallyOf(es).totals ==> TallyOf(es).totals[c] == BucketTotal(es, c)
  {
    if es != [] {
      var rest, e := es[..|es| - 1], es[|es| - 1];
      TallyValues(rest);
      TallyKeys(rest);
      var t, r := TallyOf(es), TallyOf(rest);
      assert t == Add(r, BucketOf(e), e.amount);
      forall c | c in t.totals
        ensures t.totals[c] == BucketTotal(es, c)
      {
        assert BucketTotal(es, c) == BucketTotal(rest, c) + (if BucketOf(e) == c then e.amount else 0.0);
        if c == BucketOf(e) && c !in r.totals {
          forall i | 0 <= i < |rest|
            ensures !InBucket(c)(rest[i])
          {
            assert BucketNames(rest)[i] == BucketOf(rest[i]);
          }
          SumIfNone(rest, InBucket(c));
        }
      }
    }
  }

  /** `KeysSum(keys, m)`: the values stored under `keys`, added in order. */
  function KeysSum(keys: seq<string>, m: map<string, real>): real
  {
    if keys == [] then 0.0
    else KeysSum(keys[..|keys| - 1], m) + (if keys[|keys| - 1] in m then m[keys[|keys| - 1]] else 0.0)
  }

  lemma {:induction false} KeysSumFrame(keys: seq<string>, m: map<string, real>, c: string, v: real)
    requires c !in keys
    ensures KeysSum(keys, m[c := v]) == KeysSum(keys, m)
  {
    if keys != [] {
      KeysSumFrame(keys[..|keys| - 1], m, c, v);
    }
  }

  lemma KeysSumAppendNew(keys: seq<string>, m: map<string, real>, c: string, v: real)
    requires c !in keys
    ensures KeysSum(keys + [c], m[c := v]) == KeysSum(keys, m) + v
  {
    assert (keys + [c])[..|keys|] == keys;
    KeysSumFrame(keys, m, c, v);
  }

  lemma {:induction false} KeysSumBump(keys: seq<string>, m: map<string, real>, c: string, x: real)
    requires c in m && c in keys
    requires forall i, j :: 0 <= i < j < |keys| ==> keys[i] != keys[j]
    ensures KeysSum(keys, m[c := m[c] + x]) == KeysSum(keys, m) + x
  {
    var front, last := keys[..|keys| - 1], keys[|keys| - 1];
    if last == c {
      forall i | 0 <= i < |front|
        ensures front[i] != c
      {
        assert front[i] == keys[i];
      }
      KeysSumFrame(front, m, c, m[c] + x);
    } else {
      KeysSumBump(front, m, c, x);
    }
  }

  /** Adding `x` under one key of a well-formed dictionary adds `x` to the sum
      of its values. */
  lemma AddSum(t: Tally, c: string, x: real)
    requires WellFormed(t)
    ensures KeysSum(Add(t, c, x).keys, Add(t, c, x).totals) == KeysSum(t.keys, t.totals) + x
  {
    if c in t.totals {
      KeysSumBump(t.keys, t.totals, c, x);
    } else {
      KeysSumAppendNew(t.keys, t.totals, c, 0.0 + x);
    }
  }

  /** Bucketing is a partition: the bucket totals add up to the whole snapshot. */
  lemma {:induction false} TallyPartition(es: seq<Expense>)
    ensures KeysSum(TallyOf(es).keys, TallyOf(es).totals) == Total(es)
  {
    if es != [] {
      var rest, e := es[..|es| - 1], es[|es| - 1];
      TallyPartition(rest);
      TallyWellFormed(rest);
      AddSum(TallyOf(rest), BucketOf(e), e.amount);
      assert Total(es) == Total(rest) + e.amount;
    }
  }

  lemma FirstIndexSnoc(s: seq<string>, x: string, c: string)
    requires c in s
    ensures FirstIndex(s + [x], c) == FirstIndex(s, c)
  {
    var p, q := FirstIndex(s, c), FirstIndex(s + [x], c);
    assert (s + [x])[p] == c;
    assert q <= p;
    assert s[q] == (s + [x])[q];
  }

  /** Every key occurs in `names`, and the keys are listed in the order of
      their first occurrence there. */
  ghost predicate FirstOccurrenceOrder(keys: seq<string>, names: seq<string>)
  {
    && (forall k :: k in keys ==> k in names)
    && (forall i, j :: 0 <= i < j < |keys| ==>
          keys[i] in names && keys[j] in names && FirstIndex(names, keys[i]) < FirstIndex(names, keys[j]))
  }

  /** Visiting one more name keeps the order of the keys seen so far, and a
      name never seen before may be appended as the last key. */
  lemma FirstOccurrenceOrderSnoc(keys: seq<string>, names: seq<string>, c: string)
    requires FirstOccurrenceOrder(keys, names)
    ensures FirstOccurrenceOrder(keys, names + [c])
    ensures c !in names ==> FirstOccurrenceOrder(keys + [c], names + [c])
  {
    forall k | k in keys
      ensures FirstIndex(names + [c], k) == FirstIndex(names, k)
    {
      FirstIndexSnoc(names, c, k);
    }
    if c !in names {
      var keys', names' := keys + [c], names + [c];
      assert FirstIndex(names', c) == |names|;
      forall i, j | 0 <= i < j < |keys'|
        ensures keys'[i] in names' && keys'[j] in names' && FirstIndex(names', keys'[i]) < FirstIndex(names', keys'[j])
      {
        assert keys'[i] in keys;
        if j < |keys| {
          assert keys'[j] in keys;
        }
      }
    }
  }

  /** Keys are in order of first occurrence of their bucket in the input. */
  lemma {:induction false} TallyOrder(es: seq<Expense>)
    ensures FirstOccurrenceOrder(TallyOf(es).keys, BucketNames(es))
  {
    if es != [] {
      var rest, e := es[..|es| - 1], es[|es| - 1];
      TallyOrder(rest);
      TallyWellFormed(rest);
      TallyKeys(rest);
      BucketNamesSnoc(es);
      var t := TallyOf(rest);
      assert WellFormed(t);
      FirstOccurrenceOrderSnoc(t.keys, BucketNames(rest), BucketOf(e));
    }
  }

  // ---------------------------------------------------------------------------
  // The pie chart data: `Object.keys(categoryTotals).map(...)`.

  datatype Slice = Slice(name: string, population: real, color: string,
                         legendFontColor: string, legendFontSize: int)

  function SliceAt(t: Tally, i: nat): Slice
    requires i < |t.keys|
  {
    var name := t.keys[i];
    Slice(name, if name in t.totals then t.totals[name] else 0.0,
          Palette[i % |Palette|], LegendFontColor, LegendFontSize)
  }

  function SlicesOf(t: Tally): seq<Slice>
  {
    seq(|t.keys|, i requires 0 <= i < |t.keys| => SliceAt(t, i))
  }

  /** What `getCategoryData` returns for a snapshot. */
  function CategoryData(es: seq<Expense>): seq<Slice>
  {
    SlicesOf(TallyOf(es))
  }

  function PopulationSum(slices: seq<Slice>): real
  {
    if slices == [] then 0.0
    else PopulationSum(slices[..|slices| - 1]) + slices[|slices| - 1].population
  }

  /** The slices name each bucket of the input exactly once, and a slice's
      population is the sum of the amounts of the expenses in its bucket. */
  lemma CategoryDataBuckets(es: seq<Expense>)
    ensures es == [] ==> CategoryData(es) == []
    ensures forall i, j :: 0 <= i < j < |CategoryData(es)| ==> CategoryData(es)[i].name != CategoryData(es)[j].name
    ensures forall c :: c in BucketNames(es) <==> exists i :: 0 <= i < |CategoryData(es)| && CategoryData(es)[i].name == c
    ensures forall i :: 0 <= i < |CategoryData(es)| ==> CategoryData(es)[i].population == BucketTotal(es, CategoryData(es)[i].name)
  {
    TallyWellFormed(es);
    TallyKeys(es);
    TallyValues(es);
    var t := TallyOf(es);
    forall c | c in BucketNames(es)
      ensures exists i :: 0 <= i < |CategoryData(es)| && CategoryData(es)[i].name == c
    {
      assert c in t.keys;
      var i :| 0 <= i < |t.keys| && t.keys[i] == c;
      assert CategoryData(es)[i].name == c;
    }
  }

  lemma {:induction false} PopulationSumOfSlices(t: Tally)
    ensures PopulationSum(SlicesOf(t)) == KeysSum(t.keys, t.totals)
    decreases |t.keys|
  {
    if t.keys != [] {
      var front := Tally(t.keys[..|t.keys| - 1], t.totals);
      PopulationSumOfSlices(front);
      assert SlicesOf(t)[..|t.keys| - 1] == SlicesOf(front);
    }
  }

  /** The populations of all slices add up to the sum of all amounts. */
  lemma CategoryDataPartition(es: seq<Expense>)
    ensures PopulationSum(CategoryData(es)) == Total(es)
  {
    PopulationSumOfSlices(TallyOf(es));
    TallyPartition(es);
  }

  /** Slices appear in the order in which their buckets first occur. */
  lemma CategoryDataOrder(es: seq<Expense>)
    ensures forall i :: 0 <= i < |CategoryData(es)| ==> CategoryData(es)[i].name in BucketNames(es)
    ensures forall i, j :: 0 <= i < j < |CategoryData(es)| ==>
              CategoryData(es)[i].name in BucketNames(es) && CategoryData(es)[j].name in BucketNames(es) &&
              FirstIndex(BucketNames(es), CategoryData(es)[i].name) < FirstIndex(BucketNames(es), CategoryData(es)[j].name)
  {
    TallyOrder(es);
    var t := TallyOf(es);
    forall i | 0 <= i < |CategoryData(es)|
      ensures CategoryData(es)[i].name in BucketNames(es)
    {
      assert CategoryData(es)[i].name == t.keys[i];
    }
  }

  /** Slice `i` is coloured `Palette[i mod 6]`: colours repeat with period 6. */
  lemma CategoryDataColors(es: seq<Expense>)
    ensures forall i :: 0 <= i < |CategoryData(es)| ==> CategoryData(es)[i].color == Palette[i % 6]
    ensures forall i :: 0 <= i < |CategoryData(es)| - 6 ==> CategoryData(es)[i + 6].color == CategoryData(es)[i].color
  {
    var r := CategoryData(es);
    forall i | 0 <= i < |r| - 6
      ensures r[i + 6].color == r[i].color
    {
      assert (i + 6) % 6 == i % 6;
    }
  }

  /** `getCategoryData`: the reduce updates the dictionary in place, the map
      turns its keys into slices. */
  method GetCategoryData(expenses: seq<Expense>) returns (slices: seq<Slice>)
    ensures slices == CategoryData(expenses)
  {
    var keys: seq<string> := [];
    var totals: map<string, real> := map[];
    var i := 0;
    while i < |expenses|
      invariant 0 <= i <= |expenses|
      invariant Tally(keys, totals) == TallyOf(expenses[..i])
    {
      var expense := expenses[i];
      var category := BucketOf(expense);
      var previous := if category in totals then totals[category] else 0.0;
      if category !in totals {
        keys := keys + [category];
      }
      totals := totals[category := previous + expense.amount];
      assert expenses[..i + 1][..i] == expenses[..i];
      i := i + 1;
    }
    assert expenses[..i] == expenses;
    slices := seq(|keys|, k requires 0 <= k < |keys| => SliceAt(Tally(keys, totals), k));
  }

  // ---------------------------------------------------------------------------
  // The weekly bar chart.

  /** English short weekday names; day 0 (1970-01-01) was a Thursday. */
  const WeekdayNames: seq<string> := ["Thu", "Fri", "Sat", "Sun", "Mon", "Tue", "Wed"]

  function WeekdayLabel(day: int): string
  {
    WeekdayNames[day % 7]
  }

  /** `expenses.filter(e => same calendar day as d).reduce(sum)`; an expense whose
      date does not parse is on no day. */
  function DayTotal(es: seq<Expense>, d: int): real
  {
    SumIf(es, OnDay(d))
  }

  function OnDay(d: int): Expense -> bool
  {
    (e: Expense) => e.day == Some(d)
  }

  /** Dated on one of the `n` consecutive days starting at `first`. */
  function InDays(first: int, n: int): Expense -> bool
  {
    (e: Expense) => e.day.Some? && first <= e.day.value < first + n
  }

  /** The totals of the `n` consecutive days starting at `first`. */
  function Series(es: seq<Expense>, first: int, n: nat): seq<real>
  {
    seq(n, k requires 0 <= k < n => DayTotal(es, first + k))
  }

  function SumSeq(s: seq<real>): real
  {
    if s == [] then 0.0 else SumSeq(s[..|s| - 1]) + s[|s| - 1]
  }

  datatype WeeklyData = WeeklyData(labels: seq<string>, data: seq<real>)

  /** `getWeeklyData`: for i from 6 down to 0, the day `today - i`. */
  method GetWeeklyData(expenses: seq<Expense>, today: int) returns (w: WeeklyData)
    ensures |w.labels| == 7 && |w.data| == 7
    ensures forall k :: 0 <= k < 7 ==> w.labels[k] == WeekdayLabel(today - 6 + k)
    ensures forall k :: 0 <= k < 7 ==> w.data[k] == DayTotal(expenses, today - 6 + k)
    ensures w.data == Series(expenses, today - 6, 7)
  {
    var labels: seq<string> := [];
    var data: seq<real> := [];
    var i := 6;
    while i >= 0
      invariant -1 <= i <= 6
      invariant |labels| == 6 - i && |data| == 6 - i
      invariant forall k :: 0 <= k < 6 - i ==> labels[k] == WeekdayLabel(today - 6 + k)
      invariant forall k :: 0 <= k < 6 - i ==> data[k] == DayTotal(expenses, today - 6 + k)
    {
      var d := today - i;
      labels := labels + [WeekdayLabel(d)];
      var dailyTotal := DayTotal(expenses, d);
      data := data + [dailyTotal];
      i := i - 1;
    }
    w := WeeklyData(labels, data);
  }

  /** A day on which no expense falls has total 0. */
  lemma DayWithoutExpenses(es: seq<Expense>, d: int)
    requires forall i :: 0 <= i < |es| ==> es[i].day != Some(d)
    ensures DayTotal(es, d) == 0.0
  {
    SumIfNone(es, OnDay(d));
  }

  /** Adding an expense whose date does not parse changes no day's total. */
  lemma UnparseableDateOnNoDay(es: seq<Expense>, e: Expense, d: int)
    requires e.day.None?
    ensures DayTotal(es + [e], d) == DayTotal(es, d)
    ensures BucketTotal(es + [e], BucketOf(e)) == BucketTotal(es, BucketOf(e)) + e.amount
  {
    SumIfAppend(es, e, OnDay(d));
    SumIfAppend(es, e, InBucket(BucketOf(e)));
  }

  /** The `n` day totals together count each expense dated in those days once
      and no other expense. */
  lemma {:induction false} SeriesCountsEachExpenseOnce(es: seq<Expense>, first: int, n: nat)
    ensures SumSeq(Series(es, first, n)) == SumIf(es, InDays(first, n))
  {
    if n == 0 {
      SumIfNone(es, InDays(first, n));
    } else {
      SeriesCountsEachExpenseOnce(es, first, n - 1);
      var s := Series(es, first, n);
      assert s[..n - 1] == Series(es, first, n - 1);
      assert s[n - 1] == DayTotal(es, first + (n - 1));
      assert SumSeq(s) == SumSeq(s[..n - 1]) + s[n - 1];
      SumIfSplit(es, InDays(first, n), InDays(first, n - 1), OnDay(first + (n - 1)));
    }
  }

  /** The labels of the week ending on `today`, oldest first. */
  function WeekLabelsOf(today: int): seq<string>
  {
    seq(7, k requires 0 <= k < 7 => WeekdayLabel(today - 6 + k))
  }

  lemma WeekdayShift(today: int, k: int)
    requires 0 <= k < 7
    ensures (today - 6 + k) % 7 == (today % 7 + 1 + k) % 7
  {
    var q, r := today / 7, today % 7;
    assert today - 6 + k == 7 * (q - 1) + (r + 1 + k);
  }

  /** The last label is today's, and a week ending on a Wednesday reads
      Thu, Fri, Sat, Sun, Mon, Tue, Wed. */
  lemma WeekLabels(today: int)
    ensures WeekLabelsOf(today)[6] == WeekdayLabel(today)
    ensures WeekdayLabel(today) == "Wed" ==> WeekLabelsOf(today) == ["Thu", "Fri", "Sat", "Sun", "Mon", "Tue", "Wed"]
  {
    if WeekdayLabel(today) == "Wed" {
      var r := today % 7;
      assert r == 6 by {
        assert WeekdayNames[r] == "Wed";
      }
      forall k | 0 <= k < 7
        ensures WeekLabelsOf(today)[k] == WeekdayNames[k]
      {
        WeekdayShift(today, k);
      }
    }
  }
}
