/** The dashboard figures computed from the record list: total pests, the
    high-risk alert count, the density string and the recent-activity window. */
module Aggregates {
  import opened PestRecords
  import Seqs
  import Decimal

  /** Counts above this are high risk. */
  const HighRiskThreshold: int := 20

  /** How many records the recent-activity panel shows. */
  const RecentWindow: nat := 5

  /** `reduce((sum, item) => sum + item.count, 0)`: the sum of all counts. */
  function TotalPests(s: seq<Record>): (t: int)
    ensures s == [] ==> t == 0
    ensures (forall i :: 0 <= i < |s| ==> s[i].count >= 0) ==> t >= 0
  {
    if s == [] then 0 else TotalPests(s[..|s| - 1]) + s[|s| - 1].count
  }

  /** The total of two lists put together is the sum of their totals. */
  lemma {:induction false} TotalConcat(s: seq<Record>, t: seq<Record>)
    ensures TotalPests(s + t) == TotalPests(s) + TotalPests(t)
  {
    if t == [] {
      assert s + t == s;
    } else {
      TotalConcat(s, t[..|t| - 1]);
      assert (s + t)[..|s + t| - 1] == s + t[..|t| - 1];
    }
  }

  /** Adding a record at the front raises the total by its count. */
  lemma TotalPrepend(r: Record, s: seq<Record>)
    ensures TotalPests([r] + s) == r.count + TotalPests(s)
  {
    TotalConcat([r], s);
  }

  predicate IsHighRisk(r: Record)
  {
    r.count > HighRiskThreshold
  }

  /** `filter(item => item.count > 20).length`. */
  function HighRisk(s: seq<Record>): (n: nat)
    ensures n <= |s|
  {
    |Seqs.Filter(s, IsHighRisk)|
  }

  /** Adding a record at the front raises the alert count by one exactly when
      its count is above the threshold, so adding high-risk records never
      lowers it. */
  lemma HighRiskPrepend(r: Record, s: seq<Record>)
    ensures HighRisk([r] + s) == HighRisk(s) + (if r.count > HighRiskThreshold then 1 else 0)
  {
    Seqs.FilterConcat([r], s, IsHighRisk);
    assert [r][..0] == [];
  }

  /** Every record above the threshold is counted, and nothing else is. */
  lemma HighRiskCountsExactly(s: seq<Record>, i: int)
    requires 0 <= i < |s|
    ensures s[i].count > HighRiskThreshold <==> s[i] in Seqs.Filter(s, IsHighRisk)
  {
    if s[i].count > HighRiskThreshold {
      Seqs.FilterComplete(s, IsHighRisk, i);
    }
  }

  /** `totalPests > 0 ? ((totalPests / 100) * 10).toFixed(1) + '%' : '0%'`.
      For an integer total the number printed is total / 10, so its
      integer part is `total / 10` and its one decimal is `total % 10`. */
  function AvgDensity(total: int): (d: string)
    ensures total <= 0 ==> d == "0%"
    ensures total > 0 ==> |d| >= 4 && d[|d| - 1] == '%' && d[|d| - 3] == '.'
    ensures total > 0 ==> (d[0] == '0' ==> |d| == 4)
  {
    if total > 0 then Decimal.NatToString(total / 10) + "." + [Decimal.DigitChar(total % 10)] + "%"
    else "0%"
  }

  /** `d` is digits with no leading zero, a point, one digit and "%", and
      those digits read as a number with one decimal are total / 10. */
  predicate DensityReadsAs(d: string, total: int)
  {
    |d| >= 4 && d[|d| - 1] == '%' && d[|d| - 3] == '.' &&
    (forall i :: 0 <= i < |d| - 3 ==> Decimal.IsDigit(d[i])) &&
    Decimal.IsDigit(d[|d| - 2]) &&
    Decimal.ParseDigits(d[..|d| - 3]) * 10 + Decimal.DigitValue(d[|d| - 2]) == total &&
    (d[0] == '0' ==> |d| == 4)
  }

  /** The density string is "0%" for a total of at most zero; otherwise it is
      an integer part, a point, one digit and "%", and reading the digits back
      as a number with one decimal gives total / 10 exactly. */
  lemma AvgDensityMeaning(total: int)
    ensures total <= 0 ==> AvgDensity(total) == "0%"
    ensures total > 0 ==> DensityReadsAs(AvgDensity(total), total)
  {
    if total > 0 {
      var d := AvgDensity(total);
      var whole := Decimal.NatToString(total / 10);
      assert d[..|d| - 3] == whole;
      Decimal.ParseNatToString(total / 10);
    }
  }

  /** `w` holds min(5, |s|) records, position j being the record at
      min(5, |s|) - 1 - j in `s`: the newest five, oldest of them first. */
  predicate IsRecentWindow(w: seq<Record>, s: seq<Record>)
  {
    var m := if |s| < RecentWindow then |s| else RecentWindow;
    |w| == m && forall j :: 0 <= j < m ==> w[j] == s[m - 1 - j]
  }

  /** `slice(0, 5).reverse()`: the newest five records, oldest of them
      first. The window holds min(5, length) records, position j being the
      record at min(5, length) - 1 - j in the list. */
  function Recent(s: seq<Record>): (w: seq<Record>)
    ensures IsRecentWindow(w, s)
  {
    Seqs.Reverse(s[..if |s| < RecentWindow then |s| else RecentWindow])
  }

  /** On seven records the window is positions 4, 3, 2, 1, 0. */
  lemma RecentOfSeven(s: seq<Record>)
    requires |s| == 7
    ensures Recent(s) == [s[4], s[3], s[2], s[1], s[0]]
  {
    var w := Recent(s);
    assert |w| == 5;
    assert w[0] == s[4] && w[1] == s[3] && w[2] == s[2] && w[3] == s[1] && w[4] == s[0];
  }

  /** The seed list: 25 + 12 + 8 + 35 + 18 = 98 pests, two of them high-risk
      entries (25 and 35), shown as density "9.8%". */
  lemma SeedFigures()
    ensures TotalPests(SampleData) == 98
    ensures HighRisk(SampleData) == 2
    ensures AvgDensity(TotalPests(SampleData)) == "9.8%"
  {
    var s := SampleData;
    var p1, p2, p3, p4 := s[..1], s[..2], s[..3], s[..4];
    assert p1[..0] == [] && p2[..1] == p1 && p3[..2] == p2 && p4[..3] == p3 && s[..4] == p4;
    assert TotalPests(p1) == 25 && TotalPests(p2) == 37 && TotalPests(p3) == 45 && TotalPests(p4) == 80;
    assert Seqs.Filter(p1, IsHighRisk) == [s[0]];
    assert Seqs.Filter(p2, IsHighRisk) == [s[0]];
    assert Seqs.Filter(p3, IsHighRisk) == [s[0]];
    assert Seqs.Filter(p4, IsHighRisk) == [s[0], s[3]];
  }

  /** A total of 100 shows as "10.0%". */
  lemma DensityOfHundred()
    ensures AvgDensity(100) == "10.0%"
  {
  }
}
