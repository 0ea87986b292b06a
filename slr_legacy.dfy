/**
 * The first weekly report script (`generate-slr.py`). Its durations, titles and day cells are
 * the renderer's own rules and are modelled once, in `SlrRender`; what differs is modelled
 * here: a target's value is the mean of its SLI's daily averages over every SLO of the
 * product, an SLO's totals use a plain `max`, and the period comes from the first SLO alone.
 */
module SlrLegacy {
  import opened Wrappers
  import opened PyStr
  import opened OrderedDict
  import Kairos
  import opened SlrRender

  /** `values_by_sli[sli]`: the SLI's daily averages over all SLOs, in order. */
  function AllAvgs(slos: seq<Days>, sli: string): seq<real>
    decreases |slos|
  {
    if |slos| == 0 then [] else AllAvgs(slos[..|slos| - 1], sli) + ColumnOf(Last(slos), sli, Avg)
  }

  /** The mean of those averages, or none without data. */
  function MeanAvg(slos: seq<Days>, sli: string): Option<real> {
    var xs := AllAvgs(slos, sli);
    if |xs| > 0 then Some(Kairos.SumOf(xs) / |xs| as real) else None
  }

  /** A target's row: its value ('-' for none) and whether it holds. */
  function LegacyVerdict(t: Target, slos: seq<Days>): Verdict {
    var value := MeanAvg(slos, t.sliName);
    Verdict(t.unit, value, TargetOk(value, t))
  }

  /** An SLI has data in some SLO's days. */
  predicate AnyReported(slos: seq<Days>, sli: string) {
    exists i :: 0 <= i < |slos| && Reported(slos[i], sli)
  }

  lemma {:induction false} AllAvgsEmpty(slos: seq<Days>, sli: string)
    ensures |AllAvgs(slos, sli)| == 0 <==> !AnyReported(slos, sli)
    decreases |slos|
  {
    if |slos| > 0 {
      var init := slos[..|slos| - 1];
      AllAvgsEmpty(init, sli);
      ColumnOfEmpty(Last(slos), sli, Avg);
      if AnyReported(slos, sli) && !AnyReported(init, sli) {
        var i :| 0 <= i < |slos| && Reported(slos[i], sli);
        assert i == |slos| - 1;
      }
      if AnyReported(init, sli) {
        var i :| 0 <= i < |init| && Reported(init[i], sli);
        assert slos[i] == init[i];
      }
    }
  }

  /**
   * The mean exists exactly when the SLI has data in some SLO, and it lies between the
   * smallest and the largest daily average.
   */
  lemma MeanAvgMeaning(slos: seq<Days>, sli: string)
    ensures MeanAvg(slos, sli).None? <==> !AnyReported(slos, sli)
    ensures MeanAvg(slos, sli).Some? ==>
      var xs := AllAvgs(slos, sli);
      |xs| > 0 && Kairos.MinOf(xs) <= MeanAvg(slos, sli).value <= Kairos.MaxOf(xs)
  {
    var xs := AllAvgs(slos, sli);
    AllAvgsEmpty(slos, sli);
    if |xs| > 0 {
      var lo, hi := Kairos.MinOf(xs), Kairos.MaxOf(xs);
      Kairos.SumBounds(xs, lo, hi);
      Kairos.QuotientBetween(Kairos.SumOf(xs), |xs| as real, lo, hi);
    }
  }

  /**
   * A target's row carries the target's unit and the mean of its SLI's averages, and the
   * target holds exactly when it has no value or the value does not break it.
   */
  lemma LegacyVerdictMeaning(t: Target, slos: seq<Days>)
    ensures LegacyVerdict(t, slos).unit == t.unit
    ensures LegacyVerdict(t, slos).value == MeanAvg(slos, t.sliName)
    ensures LegacyVerdict(t, slos).value.None? <==> !AnyReported(slos, t.sliName)
    ensures LegacyVerdict(t, slos).ok <==>
      LegacyVerdict(t, slos).value.None? || !Red(t, LegacyVerdict(t, slos).value.value)
  {
    var value := MeanAvg(slos, t.sliName);
    MeanAvgMeaning(slos, t.sliName);
    if value.Some? {
      TargetOkIsNotRed(value.value, t);
    }
  }

  /** `max(by_sli.values())`: the largest per-SLI total; `max` of nothing raises. */
  function StrictFigure(days: Days, tally: Tally): Result<int, string> {
    var values := Values(Totals(days, tally));
    if |values| == 0 then Err("ValueError") else Ok(MaxOrZero(values))
  }

  /**
   * The plain `max` fails exactly for an SLO without any SLI data, and otherwise agrees with
   * the renderer's `max_or_zero`.
   */
  lemma StrictFigureMeaning(days: Days, tally: Tally)
    ensures StrictFigure(days, tally).Err? <==> forall sli :: !Reported(days, sli)
    ensures StrictFigure(days, tally).Ok? ==> StrictFigure(days, tally).value == SloFigure(days, tally)
  {
    var t := Totals(days, tally);
    if |t| > 0 {
      TotalsMeaning(days, tally, t[0].0);
      assert t[0].0 in Keys(t);
    } else {
      forall sli ensures !Reported(days, sli) {
        TotalsMeaning(days, tally, sli);
      }
    }
  }

  /** The period from the first SLO's days: no SLO raises IndexError, no days ValueError. */
  function StrictPeriod(slos: seq<seq<string>>): Result<(string, string), string> {
    if |slos| == 0 then Err("IndexError")
    else if |slos[0]| == 0 then Err("ValueError")
    else Ok((Prefix(MinStr(slos[0]), 10), Prefix(MaxStr(slos[0]), 10)))
  }

  /**
   * Whenever the first SLO has days with non-empty dates, both scripts report the same
   * period; the first script fails whenever the first SLO has no days, even if a later one has.
   */
  lemma StrictPeriodAgrees(slos: seq<seq<string>>)
    ensures StrictPeriod(slos).Ok? && |StrictPeriod(slos).value.0| > 0 && |StrictPeriod(slos).value.1| > 0 ==>
      ReportPeriod(slos) == StrictPeriod(slos)
    ensures StrictPeriod(slos).Err? <==> |slos| == 0 || |slos[0]| == 0
  {
  }

  const SecondSloOnly: seq<seq<string>> := [[], ["2018-01-01"]]

  /** With days only in the second SLO, the first script fails where the renderer reports. */
  lemma FirstSloWithoutDays()
    ensures StrictPeriod(SecondSloOnly) == Err("ValueError")
    ensures ReportPeriod(SecondSloOnly) == Ok(("2018-01-01", "2018-01-01"))
  {
    var day := "2018-01-01";
    assert SecondSloOnly[1..] == [[day]];
    assert MinStr([day]) == day && MaxStr([day]) == day;
    assert Prefix(day, 10) == day;
  }
}
