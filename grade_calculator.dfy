/**
 * The per-course grade model: weighted categories (`grading_breakdown`),
 * how many assignments each category holds (`assignment_counts`) and the
 * percentages recorded so far (`grades`).
 */
module Grades {
  import opened Py

  // ---------------------------------------------------------------------------
  // Values the calculator computes
  // ---------------------------------------------------------------------------

  /** The sum of the first `n` numbers of `s`. */
  function SumTo(s: seq<real>, n: nat): real
    requires n <= |s|
  {
    if n == 0 then 0.0 else SumTo(s, n - 1) + s[n - 1]
  }

  /** `sum(s)` */
  function Sum(s: seq<real>): real {
    SumTo(s, |s|)
  }

  /** Sums of numbers that agree on the first `n` places agree. */
  lemma {:induction false} SumToAgree(s: seq<real>, t: seq<real>, n: nat)
    requires n <= |s| && n <= |t|
    requires forall i :: 0 <= i < n ==> s[i] == t[i]
    ensures SumTo(s, n) == SumTo(t, n)
  {
    if n > 0 {
      SumToAgree(s, t, n - 1);
    }
  }

  /** `t` lies between `lo` and `hi` times the weight `u`. */
  predicate Within(t: real, u: real, lo: real, hi: real) {
    lo * u <= t <= hi * u
  }

  /** Two parts within the bounds add up to a part within the bounds. */
  lemma StepWithin(t: real, u: real, x: real, w: real, lo: real, hi: real)
    requires Within(t, u, lo, hi) && Within(x, w, lo, hi)
    ensures Within(t + x, u + w, lo, hi)
  {
  }

  /**
   * When every number `s[i]` lies between `lo` and `hi` times its weight
   * `w[i]`, the sum lies between `lo` and `hi` times the summed weight.
   */
  lemma {:induction false} WeightedWithin(s: seq<real>, w: seq<real>, n: nat, lo: real, hi: real)
    requires n <= |s| && n <= |w|
    requires forall i :: 0 <= i < n ==> Within(s[i], w[i], lo, hi)
    ensures Within(SumTo(s, n), SumTo(w, n), lo, hi)
  {
    if n > 0 {
      WeightedWithin(s, w, n - 1, lo, hi);
      StepWithin(SumTo(s, n - 1), SumTo(w, n - 1), s[n - 1], w[n - 1], lo, hi);
    }
  }

  /** `score / max_score * 100` */
  function Percentage(score: real, maxScore: real): real
    requires maxScore != 0.0
  {
    score / maxScore * 100.0
  }

  /** Reading back a score out of 100 gives the score itself. */
  lemma PercentageOutOfHundred(score: real)
    ensures Percentage(score, 100.0) == score
  {
  }

  /** The average of a category's percentages; None (not 0) when nothing is recorded. */
  function Mean(s: seq<real>): (r: Option<real>)
    ensures r.None? <==> s == []
  {
    if s == [] then None else Some(Sum(s) / |s| as real)
  }

  lemma {:induction false} SumWithin(s: seq<real>, n: nat, lo: real, hi: real)
    requires n <= |s|
    requires forall i :: 0 <= i < n ==> lo <= s[i] <= hi
    ensures Within(SumTo(s, n), n as real, lo, hi)
  {
    if n > 0 {
      SumWithin(s, n - 1, lo, hi);
      StepWithin(SumTo(s, n - 1), (n - 1) as real, s[n - 1], 1.0, lo, hi);
      assert SumTo(s, n) == SumTo(s, n - 1) + s[n - 1];
      assert n as real == (n - 1) as real + 1.0;
    }
  }

  /** The average lies between any bounds of the recorded percentages. */
  lemma MeanWithin(s: seq<real>, lo: real, hi: real)
    requires s != []
    requires forall i :: 0 <= i < |s| ==> lo <= s[i] <= hi
    ensures lo <= Mean(s).value <= hi
  {
    SumWithin(s, |s|, lo, hi);
    DivWithin(Sum(s), |s| as real, lo, hi);
  }

  /** `m * n` between `lo * n` and `hi * n` with `n > 0` puts `m` between `lo` and `hi`. */
  lemma ScaledWithin(m: real, n: real, lo: real, hi: real)
    requires n > 0.0 && lo * n <= m * n <= hi * n
    ensures lo <= m <= hi
  {
  }

  /** A total within the bounds of a positive weight, divided by that weight, lies in [lo, hi]. */
  lemma DivWithin(t: real, u: real, lo: real, hi: real)
    requires u > 0.0 && Within(t, u, lo, hi)
    ensures lo <= t / u <= hi
  {
    var q := t / u;
    assert q * u == t;
    ScaledWithin(q, u, lo, hi);
  }

  /** An average in [lo, hi] times a non-negative weight lies between `lo` and `hi` times that weight. */
  lemma ProductWithin(a: real, w: real, lo: real, hi: real)
    requires w >= 0.0 && lo <= a <= hi
    ensures Within(a * w, w, lo, hi)
  {
    assert (a - lo) * w >= 0.0;
    assert (hi - a) * w >= 0.0;
  }

  /** `get_category_grade` on a score map: KeyError for a category without a list. */
  function CategoryGrade(grades: map<string, seq<real>>, category: string): Outcome<Option<real>> {
    if category in grades then Return(Mean(grades[category])) else Raise(KeyError)
  }

  /** Whether category `c` takes part in the current grade: it has a weight and at least one score. */
  predicate IsGraded(c: string, weights: map<string, real>, grades: map<string, seq<real>>) {
    c in weights && c in grades && grades[c] != []
  }

  /** What category `c` adds to `total`: its average times its weight, or nothing while it has no score. */
  function Contribution(c: string, weights: map<string, real>, grades: map<string, seq<real>>): real {
    if IsGraded(c, weights, grades) then Mean(grades[c]).value * weights[c] else 0.0
  }

  /** What category `c` adds to `weight_used`. */
  function UsedPart(c: string, weights: map<string, real>, grades: map<string, seq<real>>): real {
    if IsGraded(c, weights, grades) then weights[c] else 0.0
  }

  /** What each category of `cats` adds to `total`, in order. */
  function Contributions(cats: seq<string>, weights: map<string, real>, grades: map<string, seq<real>>): seq<real> {
    seq(|cats|, i requires 0 <= i < |cats| => Contribution(cats[i], weights, grades))
  }

  /** What each category of `cats` adds to `weight_used`, in order. */
  function UsedParts(cats: seq<string>, weights: map<string, real>, grades: map<string, seq<real>>): seq<real> {
    seq(|cats|, i requires 0 <= i < |cats| => UsedPart(cats[i], weights, grades))
  }

  /** `total` once the loop of `get_current_total_grade` has seen the first `n` categories. */
  function TotalUpTo(cats: seq<string>, n: nat, weights: map<string, real>, grades: map<string, seq<real>>): real
    requires n <= |cats|
  {
    SumTo(Contributions(cats, weights, grades), n)
  }

  /** `weight_used` once the same loop has seen the first `n` categories. */
  function WeightUpTo(cats: seq<string>, n: nat, weights: map<string, real>, grades: map<string, seq<real>>): real
    requires n <= |cats|
  {
    SumTo(UsedParts(cats, weights, grades), n)
  }

  /** The current grade, rescaled to the categories that have at least one score. */
  function Overall(cats: seq<string>, weights: map<string, real>, grades: map<string, seq<real>>): real {
    var used := WeightUpTo(cats, |cats|, weights, grades);
    if used == 0.0 then 0.0 else TotalUpTo(cats, |cats|, weights, grades) / used
  }

  /** `get_current_total_grade`: raises KeyError when a breakdown category has no score list. */
  function TotalGrade(breakdown: Dict<real>, grades: map<string, seq<real>>): Outcome<real> {
    if forall j :: 0 <= j < |breakdown.keys| ==> breakdown.keys[j] in grades
    then Return(Overall(breakdown.keys, breakdown.items, grades))
    else Raise(KeyError)
  }

  /** A breakdown category without a score list makes the current grade raise KeyError. */
  lemma MissingListRaises(breakdown: Dict<real>, grades: map<string, seq<real>>, c: string)
    requires c in breakdown.items && c !in grades
    ensures TotalGrade(breakdown, grades) == Raise(KeyError)
  {
    assert breakdown.keys[IndexOf(breakdown.keys, c)] !in grades;
  }

  /** The running sums only look at the first `n` categories. */
  lemma SumsOfPrefix(a: seq<string>, b: seq<string>, n: nat, weights: map<string, real>, grades: map<string, seq<real>>)
    requires n <= |a| && n <= |b| && a[..n] == b[..n]
    ensures TotalUpTo(a, n, weights, grades) == TotalUpTo(b, n, weights, grades)
    ensures WeightUpTo(a, n, weights, grades) == WeightUpTo(b, n, weights, grades)
  {
    assert forall i :: 0 <= i < n ==> a[i] == a[..n][i] && b[i] == b[..n][i];
    SumToAgree(Contributions(a, weights, grades), Contributions(b, weights, grades), n);
    SumToAgree(UsedParts(a, weights, grades), UsedParts(b, weights, grades), n);
  }

  /** With nothing graded among the first `n` categories, both running sums are 0. */
  lemma {:induction false} NothingGradedUpTo(cats: seq<string>, n: nat, weights: map<string, real>, grades: map<string, seq<real>>)
    requires n <= |cats|
    requires forall j :: 0 <= j < n ==> !IsGraded(cats[j], weights, grades)
    ensures TotalUpTo(cats, n, weights, grades) == 0.0 && WeightUpTo(cats, n, weights, grades) == 0.0
  {
    if n > 0 {
      NothingGradedUpTo(cats, n - 1, weights, grades);
      assert Contribution(cats[n - 1], weights, grades) == 0.0;
    }
  }

  /** With nothing graded, the current grade is 0 (not an error). */
  lemma NothingGradedIsZero(cats: seq<string>, weights: map<string, real>, grades: map<string, seq<real>>)
    requires forall c :: c in cats ==> !IsGraded(c, weights, grades)
    ensures Overall(cats, weights, grades) == 0.0
  {
    NothingGradedUpTo(cats, |cats|, weights, grades);
  }

  /** The categories of `cats` that take part in the current grade, in order. */
  function GradedOnly(cats: seq<string>, weights: map<string, real>, grades: map<string, seq<real>>): (r: seq<string>)
    ensures forall c :: c in r ==> c in cats && IsGraded(c, weights, grades)
  {
    if cats == [] then []
    else
      var c := cats[|cats| - 1];
      var rest := GradedOnly(cats[..|cats| - 1], weights, grades);
      if IsGraded(c, weights, grades) then rest + [c] else rest
  }

  /** Ungraded categories take no part: the grade equals the one computed over graded categories only. */
  lemma {:induction false} UngradedIgnored(cats: seq<string>, weights: map<string, real>, grades: map<string, seq<real>>)
    ensures var g := GradedOnly(cats, weights, grades);
      && TotalUpTo(cats, |cats|, weights, grades) == TotalUpTo(g, |g|, weights, grades)
      && WeightUpTo(cats, |cats|, weights, grades) == WeightUpTo(g, |g|, weights, grades)
      && Overall(cats, weights, grades) == Overall(g, weights, grades)
  {
    if cats != [] {
      var n := |cats|;
      var c, front := cats[n - 1], cats[..n - 1];
      var gf := GradedOnly(front, weights, grades);
      UngradedIgnored(front, weights, grades);
      assert cats[..n - 1] == front[..n - 1];
      SumsOfPrefix(cats, front, n - 1, weights, grades);
      if IsGraded(c, weights, grades) {
        var g := gf + [c];
        assert g[..|gf|] == gf[..|gf|];
        SumsOfPrefix(g, gf, |gf|, weights, grades);
        assert g[|g| - 1] == c;
      } else {
        assert Contribution(c, weights, grades) == 0.0 && UsedPart(c, weights, grades) == 0.0;
      }
    }
  }

  /** Every graded category among the first `n` has a non-negative weight and an average in [lo, hi]. */
  predicate GradedWithin(cats: seq<string>, n: nat, weights: map<string, real>, grades: map<string, seq<real>>, lo: real, hi: real)
    requires n <= |cats|
  {
    forall j :: 0 <= j < n && IsGraded(cats[j], weights, grades) ==>
      weights[cats[j]] >= 0.0 && lo <= Mean(grades[cats[j]]).value <= hi
  }

  /** A category within the bounds adds between `lo` and `hi` times its used weight. */
  lemma ContributionWithin(c: string, weights: map<string, real>, grades: map<string, seq<real>>, lo: real, hi: real)
    requires IsGraded(c, weights, grades) ==> weights[c] >= 0.0 && lo <= Mean(grades[c]).value <= hi
    ensures Within(Contribution(c, weights, grades), UsedPart(c, weights, grades), lo, hi)
  {
    if IsGraded(c, weights, grades) {
      ProductWithin(Mean(grades[c]).value, weights[c], lo, hi);
    }
  }

  lemma AccumulatedWithin(cats: seq<string>, n: nat, weights: map<string, real>, grades: map<string, seq<real>>, lo: real, hi: real)
    requires n <= |cats| && GradedWithin(cats, n, weights, grades, lo, hi)
    ensures Within(TotalUpTo(cats, n, weights, grades), WeightUpTo(cats, n, weights, grades), lo, hi)
  {
    var xs, ws := Contributions(cats, weights, grades), UsedParts(cats, weights, grades);
    forall i | 0 <= i < n ensures Within(xs[i], ws[i], lo, hi) {
      ContributionWithin(cats[i], weights, grades, lo, hi);
    }
    WeightedWithin(xs, ws, n, lo, hi);
  }

  /**
   * With non-negative weights and some positive graded weight, the current
   * grade lies between the smallest and the largest graded category average
   * (any `lo` and `hi` that bound those averages).
   */
  lemma GradeWithinAverages(cats: seq<string>, weights: map<string, real>, grades: map<string, seq<real>>, lo: real, hi: real)
    requires GradedWithin(cats, |cats|, weights, grades, lo, hi)
    requires WeightUpTo(cats, |cats|, weights, grades) > 0.0
    ensures lo <= Overall(cats, weights, grades) <= hi
  {
    AccumulatedWithin(cats, |cats|, weights, grades, lo, hi);
    DivWithin(TotalUpTo(cats, |cats|, weights, grades), WeightUpTo(cats, |cats|, weights, grades), lo, hi);
  }

  /** Two homeworks of 80 and 100 at weight 0.5, an ungraded midterm at 0.5: the grade is 90. */
  lemma HomeworkOnlyScenario()
    ensures Overall(["homeworks", "midterm"], map["homeworks" := 0.5, "midterm" := 0.5],
                    map["homeworks" := [80.0, 100.0], "midterm" := []]) == 90.0
  {
    var cats := ["homeworks", "midterm"];
    var w := map["homeworks" := 0.5, "midterm" := 0.5];
    var g := map["homeworks" := [80.0, 100.0], "midterm" := []];
    assert SumTo(g["homeworks"], 1) == 80.0;
    assert Sum(g["homeworks"]) == 180.0;
    assert Mean(g["homeworks"]) == Some(90.0);
    assert Contribution("homeworks", w, g) == 45.0 && Contribution("midterm", w, g) == 0.0;
    assert TotalUpTo(cats, 2, w, g) == 45.0 && WeightUpTo(cats, 2, w, g) == 0.5;
  }
  // ---------------------------------------------------------------------------
  // The summary
  // ---------------------------------------------------------------------------

  /** One entry of `summary["categories"]`. */
  datatype CategoryInfo = CategoryInfo(
    category: string, average: Option<real>, weight: real,
    completed: int, total: int, check: bool, remaining: int)

  /** What `get_summary` returns; `categories` keeps the breakdown's order. */
  datatype Summary = Summary(course: string, currentGrade: real, categories: seq<CategoryInfo>)

  function Info(c: string, breakdown: Dict<real>, counts: map<string, int>, grades: map<string, seq<real>>): CategoryInfo
    requires c in breakdown.items && c in grades
  {
    var completed := |grades[c]|;
    var total := if c in counts then counts[c] else 1;
    CategoryInfo(c, Mean(grades[c]), breakdown.items[c] * 100.0, completed, total, total == completed, total - completed)
  }

  /** `get_summary` on a calculator's state. */
  function SummaryOf(name: string, breakdown: Dict<real>, counts: map<string, int>, grades: map<string, seq<real>>): Outcome<Summary> {
    var keys := breakdown.keys;
    match TotalGrade(breakdown, grades)
    case Raise(e) => Raise(e)
    case Return(g) =>
      Return(Summary(name, g, seq(|keys|, j requires 0 <= j < |keys| => Info(keys[j], breakdown, counts, grades))))
  }

  /** `summary["categories"][category]` */
  function Lookup(infos: seq<CategoryInfo>, category: string): (r: Option<CategoryInfo>)
    ensures r.Some? ==> r.value in infos && r.value.category == category
    ensures r.None? ==> forall i :: 0 <= i < |infos| ==> infos[i].category != category
  {
    if infos == [] then None
    else if infos[0].category == category then Some(infos[0])
    else Lookup(infos[1..], category)
  }

  /**
   * What the summary reports for the category at position `j` of the breakdown:
   * weight times 100, completed = number of scores, total = the count (1 when
   * absent), check exactly when total equals completed, remaining = total - completed,
   * and the current grade equals `get_current_total_grade`.
   */
  lemma SummaryReports(name: string, breakdown: Dict<real>, counts: map<string, int>, grades: map<string, seq<real>>, j: nat)
    requires forall c :: c in breakdown.items ==> c in grades
    requires j < |breakdown.keys|
    ensures var s := SummaryOf(name, breakdown, counts, grades);
      var c := breakdown.keys[j];
      && s.Return?
      && s.value.course == name
      && Return(s.value.currentGrade) == TotalGrade(breakdown, grades)
      && |s.value.categories| == |breakdown.keys|
      && var info := s.value.categories[j];
      && info.category == c
      && info.average == Mean(grades[c])
      && info.weight == breakdown.items[c] * 100.0
      && info.completed == |grades[c]|
      && info.total == (if c in counts then counts[c] else 1)
      && (info.check <==> info.total == info.completed)
      && info.remaining == info.total - info.completed
  {
    assert breakdown.keys[j] in breakdown.items;
  }

  /** The summary raises KeyError exactly when some breakdown category has no score list. */
  lemma SummaryRaisesIffListMissing(name: string, breakdown: Dict<real>, counts: map<string, int>, grades: map<string, seq<real>>)
    ensures SummaryOf(name, breakdown, counts, grades).Raise?
        <==> exists c :: c in breakdown.items && c !in grades
    ensures SummaryOf(name, breakdown, counts, grades).Raise? ==> TotalGrade(breakdown, grades).Raise?
  {
    if exists c :: c in breakdown.items && c !in grades {
      var c :| c in breakdown.items && c !in grades;
      assert c in breakdown.keys;
    }
  }

  /**
   * The state `add_category` leaves behind: the new category has a weight and a
   * count but no score list, so its grade, the current grade and the summary all
   * raise KeyError from then on.
   */
  lemma AddedCategoryBreaksSummary(name: string, breakdown: Dict<real>, counts: map<string, int>,
                                   grades: map<string, seq<real>>, category: string, weight: real, count: int)
    requires grades.Keys == breakdown.items.Keys
    requires category !in breakdown.items
    ensures var b := Put(breakdown, category, weight);
      && CategoryGrade(grades, category) == Raise(KeyError)
      && TotalGrade(b, grades) == Raise(KeyError)
      && SummaryOf(name, b, counts[category := count], grades) == Raise(KeyError)
  {
    var b := Put(breakdown, category, weight);
    assert category in b.keys;
  }

  // ---------------------------------------------------------------------------
  // The calculator object
  // ---------------------------------------------------------------------------

  class GradeCalculator {
    const name: string
    var breakdown: Dict<real>
    var counts: map<string, int>
    var grades: map<string, seq<real>>

    /** Every breakdown category has a score list and nothing else has one. */
    ghost predicate ScoresCover()
      reads this
    {
      grades.Keys == breakdown.items.Keys
    }

    /** `__init__`: every breakdown category starts with an empty score list. */
    constructor (name: string, breakdown: Dict<real>, counts: map<string, int>)
      ensures this.name == name && this.breakdown == breakdown && this.counts == counts
      ensures grades == map c | c in breakdown.items :: []
      ensures ScoresCover()
    {
      var g: map<string, seq<real>> := map[];
      for i := 0 to |breakdown.keys|
        invariant g == map c | c in breakdown.keys[..i] :: []
      {
        assert breakdown.keys[..i + 1] == breakdown.keys[..i] + [breakdown.keys[i]];
        g := g[breakdown.keys[i] := []];
      }
      assert breakdown.keys[..|breakdown.keys|] == breakdown.keys;
      this.name := name;
      this.breakdown := breakdown;
      this.counts := counts;
      this.grades := g;
    }

    /** `add_grade`: appends `score / max_score * 100` to the category's list. */
    method AddGrade(category: string, score: real, maxScore: real := 100.0) returns (r: Outcome<bool>)
      modifies this
      ensures breakdown == old(breakdown) && counts == old(counts)
      ensures category !in old(grades) ==> r == Return(false) && grades == old(grades)
      ensures category in old(grades) && maxScore == 0.0 ==> r == Raise(ZeroDivisionError) && grades == old(grades)
      ensures category in old(grades) && maxScore != 0.0 ==>
        r == Return(true) && grades == old(grades)[category := old(grades)[category] + [Percentage(score, maxScore)]]
    {
      if category !in grades {
        return Return(false);
      }
      if maxScore == 0.0 {
        return Raise(ZeroDivisionError);
      }
      var percentage := score / maxScore * 100.0;
      grades := grades[category := grades[category] + [percentage]];
      return Return(true);
    }

    /** `add_category` as written: sets weight and count only, so the new category gets no score list. */
    method AddCategory(category: string, weight: real := 0.0, count: int := 1) returns (r: bool)
      modifies this
      ensures r <==> category !in old(breakdown.items)
      ensures !r ==> breakdown == old(breakdown) && counts == old(counts)
      ensures r ==> breakdown == Put(old(breakdown), category, weight) && counts == old(counts)[category := count]
      ensures grades == old(grades)
      ensures r && old(ScoresCover()) ==> !ScoresCover()
    {
      if category in breakdown.items {
        return false;
      }
      breakdown := Put(breakdown, category, weight);
      counts := counts[category := count];
      return true;
    }

    /** `add_category` as evidently intended: the new category also gets an empty score list. */
    method AddCategoryFixed(category: string, weight: real := 0.0, count: int := 1) returns (r: bool)
      modifies this
      ensures r <==> category !in old(breakdown.items)
      ensures !r ==> breakdown == old(breakdown) && counts == old(counts) && grades == old(grades)
      ensures r ==> breakdown == Put(old(breakdown), category, weight) && counts == old(counts)[category := count]
      ensures r ==> grades == old(grades)[category := []]
      ensures old(ScoresCover()) ==> ScoresCover()
    {
      if category in breakdown.items {
        return false;
      }
      breakdown := Put(breakdown, category, weight);
      counts := counts[category := count];
      grades := grades[category := []];
      return true;
    }

    /** `get_category_grade` */
    function GetCategoryGrade(category: string): (r: Outcome<Option<real>>)
      reads this
      ensures r.Raise? <==> category !in grades
      ensures r.Return? ==> (r.value.None? <==> grades[category] == [])
    {
      CategoryGrade(grades, category)
    }

    /** `get_current_total_grade`: the loop over the breakdown accumulating `total` and `weight_used`. */
    method GetCurrentTotalGrade() returns (r: Outcome<real>)
      ensures r == TotalGrade(breakdown, grades)
    {
      var keys := breakdown.keys;
      var total, weightUsed := 0.0, 0.0;
      var i := 0;
      while i < |keys|
        invariant 0 <= i <= |keys|
        invariant forall j :: 0 <= j < i ==> keys[j] in grades
        invariant total == TotalUpTo(keys, i, breakdown.items, grades)
        invariant weightUsed == WeightUpTo(keys, i, breakdown.items, grades)
      {
        var category := keys[i];
        var weight := breakdown.items[category];
        var avg := GetCategoryGrade(category);
        if avg.Raise? {
          assert keys[i] !in grades;
          return Raise(KeyError);
        }
        if avg.value.Some? {
          total := total + avg.value.value * weight;
          weightUsed := weightUsed + weight;
        }
        i := i + 1;
      }
      ghost var expected := TotalGrade(breakdown, grades);
      if weightUsed == 0.0 {
        assert expected == Return(0.0);
        return Return(0.0);
      }
      assert expected == Return(total / weightUsed);
      return Return(total / weightUsed);
    }

    /** `get_summary`: reads the state and builds one entry per breakdown category, in order. */
    method GetSummary() returns (s: Outcome<Summary>)
      ensures s == SummaryOf(name, breakdown, counts, grades)
    {
      var current := GetCurrentTotalGrade();
      if current.Raise? {
        return Raise(current.exception);
      }
      var keys, b, cs, gs := breakdown.keys, breakdown, counts, grades;
      assert forall c :: c in keys ==> c in gs;
      var infos: seq<CategoryInfo> := [];
      for i := 0 to |keys|
        invariant |infos| == i
        invariant forall j :: 0 <= j < i ==> infos[j] == Info(keys[j], b, cs, gs)
      {
        var category := keys[i];
        var avg := GetCategoryGrade(category);
        var completed := |grades[category]|;
        var total := if category in counts then counts[category] else 1;
        var info := CategoryInfo(category, avg.value, breakdown.items[category] * 100.0,
                                 completed, total, total == completed, total - completed);
        assert info == Info(keys[i], b, cs, gs);
        infos := infos + [info];
      }
      assert infos == seq(|keys|, j requires 0 <= j < |keys| => Info(keys[j], b, cs, gs));
      s := Return(Summary(name, current.value, infos));
    }

    /**
     * `update_category_name` as written: the three maps are popped one after
     * another, so a missing count or score list raises KeyError after the
     * earlier maps have already been moved.
     */
    method UpdateCategoryName(category: string, newName: string) returns (r: Outcome<bool>)
      modifies this
      ensures category !in old(breakdown.items) || newName in old(breakdown.items) ==>
        r == Return(false) && breakdown == old(breakdown) && counts == old(counts) && grades == old(grades)
      ensures category in old(breakdown.items) && newName !in old(breakdown.items) ==>
        && breakdown == Put(Pop(old(breakdown), category), newName, old(breakdown.items)[category])
        && (category !in old(counts) ==> r == Raise(KeyError) && counts == old(counts) && grades == old(grades))
        && (category in old(counts) ==> counts == (old(counts) - {category})[newName := old(counts)[category]])
        && (category in old(counts) && category !in old(grades) ==> r == Raise(KeyError) && grades == old(grades))
        && (category in old(counts) && category in old(grades) ==>
              r == Return(true) && grades == (old(grades) - {category})[newName := old(grades)[category]])
    {
      if category !in breakdown.items {
        return Return(false);
      }
      if newName in breakdown.items {
        return Return(false);
      }
      var weight := breakdown.items[category];
      breakdown := Put(Pop(breakdown, category), newName, weight);
      if category !in counts {
        return Raise(KeyError);
      }
      var count := counts[category];
      counts := (counts - {category})[newName := count];
      if category !in grades {
        return Raise(KeyError);
      }
      var scores := grades[category];
      grades := (grades - {category})[newName := scores];
      return Return(true);
    }

    /** `update_category_count` */
    method UpdateCategoryCount(category: string, count: int) returns (r: bool)
      modifies this
      ensures r <==> category in old(counts)
      ensures counts == if r then old(counts)[category := count] else old(counts)
      ensures breakdown == old(breakdown) && grades == old(grades)
    {
      if category !in counts {
        return false;
      }
      counts := counts[category := count];
      return true;
    }

    /** `update_category_grade`: replaces the first occurrence of `oldScore` only. */
    method UpdateCategoryGrade(category: string, oldScore: real, newScore: real) returns (r: bool)
      modifies this
      ensures r <==> category in old(grades) && oldScore in old(grades)[category]
      ensures r ==> grades == old(grades)[category := old(grades)[category][IndexOf(old(grades)[category], oldScore) := newScore]]
      ensures !r ==> grades == old(grades)
      ensures breakdown == old(breakdown) && counts == old(counts)
    {
      if category !in grades {
        return false;
      }
      if oldScore !in grades[category] {
        return false;
      }
      var i := IndexOf(grades[category], oldScore);
      grades := grades[category := grades[category][i := newScore]];
      return true;
    }

    /** `remove_category` as written: pops breakdown, then counts, then scores. */
    method RemoveCategory(category: string) returns (r: Outcome<bool>)
      modifies this
      ensures category !in old(breakdown.items) ==>
        r == Return(false) && breakdown == old(breakdown) && counts == old(counts) && grades == old(grades)
      ensures category in old(breakdown.items) ==>
        && breakdown == Pop(old(breakdown), category)
        && (category !in old(counts) ==> r == Raise(KeyError) && counts == old(counts) && grades == old(grades))
        && (category in old(counts) ==> counts == old(counts) - {category})
        && (category in old(counts) && category !in old(grades) ==> r == Raise(KeyError) && grades == old(grades))
        && (category in old(counts) && category in old(grades) ==> r == Return(true) && grades == old(grades) - {category})
    {
      if category !in breakdown.items {
        return Return(false);
      }
      breakdown := Pop(breakdown, category);
      if category !in counts {
        return Raise(KeyError);
      }
      counts := counts - {category};
      if category !in grades {
        return Raise(KeyError);
      }
      grades := grades - {category};
      return Return(true);
    }

    /** `remove_grade`: deletes the first occurrence of `score` only. */
    method RemoveGrade(category: string, score: real) returns (r: bool)
      modifies this
      ensures r <==> category in old(grades) && score in old(grades)[category]
      ensures r ==> grades == old(grades)[category := RemoveFirst(old(grades)[category], score)]
      ensures r ==> |grades[category]| == |old(grades)[category]| - 1
      ensures !r ==> grades == old(grades)
      ensures breakdown == old(breakdown) && counts == old(counts)
    {
      if category !in grades {
        return false;
      }
      if score !in grades[category] {
        return false;
      }
      grades := grades[category := RemoveFirst(grades[category], score)];
      return true;
    }
  }
}
