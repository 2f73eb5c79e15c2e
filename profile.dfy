/** The profile screen: completed count, average percentage, and the
    history list with its LULUS / REMIDI labels. */
module Profile {
  import opened Types
  import JsMath

  /** The "Tes Selesai" figure. */
  function CompletedCount(u: User): nat
  {
    |u.scores|
  }

  datatype Verdict = Lulus | Remidi

  /** `score / total >= 0.6` is exact in integers when 0 < total. */
  lemma PassRuleExact(score: nat, total: nat)
    requires total > 0
    ensures (score as real) / (total as real) >= 0.6 <==> 5 * score >= 3 * total
  {
    JsMath.DivAtLeast(score as real, 0.6, total as real);
  }

  /** The label of one history row. Division is IEEE division: a positive
      score over a zero total is +Infinity (LULUS), 0 / 0 is NaN (REMIDI). */
  function VerdictOf(r: ScoreRecord): (v: Verdict)
    ensures r.total > 0 ==> (v == Lulus <==> (r.score as real) / (r.total as real) >= 0.6)
    ensures r.total == 0 ==> (v == Lulus <==> r.score > 0)
  {
    if r.total == 0 then
      (if r.score > 0 then Lulus else Remidi)
    else
      PassRuleExact(r.score, r.total);
      if 5 * r.score >= 3 * r.total then Lulus else Remidi
  }

  /** A record the app itself can create: at most `total` right out of a
      positive number of questions. */
  predicate WellFormed(r: ScoreRecord)
  {
    0 < r.total && r.score <= r.total
  }

  predicate AllTotalsPositive(s: seq<ScoreRecord>)
  {
    forall i :: 0 <= i < |s| ==> s[i].total > 0
  }

  predicate AllWellFormed(s: seq<ScoreRecord>)
  {
    forall i :: 0 <= i < |s| ==> WellFormed(s[i])
  }

  function Ratio(r: ScoreRecord): real
    requires r.total > 0
  {
    (r.score as real) / (r.total as real)
  }

  /** The `reduce` over the history: the ratios added left to right from 0. */
  function SumRatios(s: seq<ScoreRecord>): real
    requires AllTotalsPositive(s)
  {
    if s == [] then 0.0 else SumRatios(s[..|s| - 1]) + Ratio(s[|s| - 1])
  }

  /** The "Rata-rata" figure: the rounded mean of per-record ratios, times
      100, or 0 for an empty history. `None` stands for the non-finite
      number the source computes once some record has a zero total. */
  function AveragePercentage(s: seq<ScoreRecord>): (r: Option<int>)
    ensures |s| == 0 ==> r == Some(0)
    ensures r.None? <==> exists i :: 0 <= i < |s| && s[i].total == 0
    ensures |s| > 0 && r.Some? ==>
      r.value as real - 0.5 <= SumRatios(s) / (|s| as real) * 100.0 < r.value as real + 0.5
  {
    if |s| == 0 then Some(0)
    else if !AllTotalsPositive(s) then None
    else Some(JsMath.Round(SumRatios(s) / (|s| as real) * 100.0))
  }

  lemma {:induction false} SumRatiosBounds(s: seq<ScoreRecord>)
    requires AllWellFormed(s)
    ensures AllTotalsPositive(s)
    ensures 0.0 <= SumRatios(s) <= |s| as real
  {
    if s != [] {
      var init := s[..|s| - 1];
      assert AllWellFormed(init) by {
        forall i | 0 <= i < |init| ensures WellFormed(init[i]) {
          assert init[i] == s[i];
        }
      }
      SumRatiosBounds(init);
      var last := s[|s| - 1];
      assert WellFormed(last);
      assert 0.0 <= Ratio(last) <= 1.0 by {
        PassRuleBound(last.score, last.total);
      }
    }
  }

  lemma PassRuleBound(score: nat, total: nat)
    requires 0 < total && score <= total
    ensures 0.0 <= (score as real) / (total as real) <= 1.0
  {
    JsMath.DivAtLeast(score as real, 0.0, total as real);
    JsMath.DivAtMost(score as real, 1.0, total as real);
  }

  /** With well-formed records the average always lies in 0..100. */
  lemma AverageInRange(s: seq<ScoreRecord>)
    requires AllWellFormed(s)
    ensures AveragePercentage(s).Some?
    ensures 0 <= AveragePercentage(s).value <= 100
  {
    if |s| > 0 {
      SumRatiosBounds(s);
      var n := |s| as real;
      var mean := SumRatios(s) / n;
      JsMath.DivAtLeast(SumRatios(s), 0.0, n);
      JsMath.DivAtMost(SumRatios(s), 1.0, n);
      JsMath.RoundWithin(mean * 100.0, 0, 100);
    }
  }

  /** The average is a mean of ratios, not the pooled score over the pooled
      total: 1/1 and 1/2 average to 75, where 2/3 would round to 67. */
  lemma AverageIsMeanOfRatios(a: ScoreRecord, b: ScoreRecord)
    requires a.score == 1 && a.total == 1 && b.score == 1 && b.total == 2
    ensures AveragePercentage([a, b]) == Some(75)
    ensures JsMath.Round((a.score + b.score) as real / (a.total + b.total) as real * 100.0) == 67
  {
    var s := [a, b];
    assert s[..1] == [a];
    assert [a][..0] == [];
    assert SumRatios([a]) == 1.0;
    assert SumRatios(s) == 1.5;
    assert SumRatios(s) / 2.0 * 100.0 == 75.0;
    JsMath.RoundOfInteger(75);
  }

  /** A history of perfect records averages exactly 100. */
  lemma {:induction false} SumRatiosPerfect(s: seq<ScoreRecord>)
    requires forall i :: 0 <= i < |s| ==> 0 < s[i].total && s[i].score == s[i].total
    ensures AllTotalsPositive(s)
    ensures SumRatios(s) == |s| as real
  {
    if s != [] {
      var init := s[..|s| - 1];
      assert forall i :: 0 <= i < |init| ==> init[i] == s[i];
      SumRatiosPerfect(init);
      var last := s[|s| - 1];
      JsMath.DivAtLeast(last.score as real, 1.0, last.total as real);
      JsMath.DivAtMost(last.score as real, 1.0, last.total as real);
      assert Ratio(last) == 1.0;
      assert SumRatios(s) == SumRatios(init) + Ratio(last);
    }
  }

  lemma AveragePerfect(s: seq<ScoreRecord>)
    requires |s| > 0
    requires forall i :: 0 <= i < |s| ==> 0 < s[i].total && s[i].score == s[i].total
    ensures AveragePercentage(s) == Some(100)
  {
    SumRatiosPerfect(s);
    assert SumRatios(s) / (|s| as real) == 1.0;
    JsMath.RoundOfInteger(100);
  }

  /** The icon and colour of a row: a vial on red for Simulasi, a
      graduation cap on blue for Latihan. */
  datatype Badge = VialOnRed | CapOnBlue

  datatype HistoryRow = HistoryRow(
    mode: QuizMode,
    level: HSKLevel,
    score: nat,
    total: nat,
    timestamp: int,
    badge: Badge,
    verdict: Verdict)

  function BadgeOf(mode: QuizMode): Badge
  {
    if mode == Simulasi then VialOnRed else CapOnBlue
  }

  function RowOf(r: ScoreRecord): (row: HistoryRow)
    ensures row.mode == r.mode && row.level == r.level && row.timestamp == r.timestamp
    ensures row.score == r.score && row.total == r.total
    ensures row.verdict == VerdictOf(r)
    ensures row.badge == BadgeOf(r.mode)
  {
    HistoryRow(r.mode, r.level, r.score, r.total, r.timestamp, BadgeOf(r.mode), VerdictOf(r))
  }

  /** The badge depends on the record's mode and on nothing else. */
  lemma BadgeOnlyByMode(r1: ScoreRecord, r2: ScoreRecord)
    ensures RowOf(r1).badge == RowOf(r2).badge <==> r1.mode == r2.mode
  {
  }

  /** "Riwayat Belajar": a placeholder for an empty history, else one row per record. */
  datatype History = Placeholder | Rows(rows: seq<HistoryRow>)

  function HistoryOf(s: seq<ScoreRecord>): (h: History)
    ensures h.Placeholder? <==> |s| == 0
    ensures h.Rows? ==> |h.rows| == |s| && forall i :: 0 <= i < |s| ==> h.rows[i] == RowOf(s[i])
  {
    if |s| == 0 then Placeholder else Rows(seq(|s|, i requires 0 <= i < |s| => RowOf(s[i])))
  }

  /** Rows follow stored order, so a record prepended to the history is
      listed first, ahead of the earlier rows in their earlier order. */
  lemma HistoryAfterPrepend(r: ScoreRecord, s: seq<ScoreRecord>)
    ensures HistoryOf([r] + s).Rows?
    ensures HistoryOf([r] + s).rows == [RowOf(r)] + (if s == [] then [] else HistoryOf(s).rows)
  {
    var t := [r] + s;
    var lhs := HistoryOf(t).rows;
    var rhs := [RowOf(r)] + (if s == [] then [] else HistoryOf(s).rows);
    assert |lhs| == |rhs|;
    forall i | 0 <= i < |lhs| ensures lhs[i] == rhs[i] {
      if i > 0 {
        assert t[i] == s[i - 1];
      }
    }
  }
}
