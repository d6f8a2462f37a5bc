/** The scoring heuristics: a pitcher's career pitching line and a roster's
    career hitting lines, each mapped to a score clamped to [0, 100]. */
module Scoring {
  import opened Wrappers

  /** One value of a fetched stat record as Python's `float()` sees it: a
      number, or something `float()` rejects (a placeholder string such as
      "-.--", a null).  A field the record does not have is an absent key. */
  datatype StatValue = Num(value: real) | Malformed

  /** A career stat record, keyed by the stats API's field names. */
  type StatMap = map<string, StatValue>

  const Era := "era"
  const StrikeoutsPer9 := "strikeoutsPer9Inn"
  const WalksPer9 := "walksPer9Inn"
  const Avg := "avg"
  const Obp := "obp"
  const Slg := "slg"

  /** The score a pitcher gets when a field of the record fails to parse. */
  const ParseFailureScore := 50.0
  /** The hitter score of a roster where no player could be scored. */
  const NoHittersScore := 50.0

  /** `float(stat.get(key, default))`: None when `float()` raises. */
  function ReadField(stat: StatMap, key: string, default: real): (r: Option<real>)
    ensures key !in stat ==> r == Some(default)
    ensures key in stat && stat[key].Num? ==> r == Some(stat[key].value)
    ensures r.None? <==> key in stat && stat[key].Malformed?
  {
    if key !in stat then Some(default)
    else match stat[key]
      case Num(v) => Some(v)
      case Malformed => None
  }

  /** Every score of the model lies in [0, 100]. */
  predicate IsScore(s: real)
  {
    0.0 <= s <= 100.0
  }

  /** `max(0, min(100, v))` */
  function Clamp(v: real): (r: real)
    ensures IsScore(r)
    ensures 0.0 <= v <= 100.0 ==> r == v
    ensures v < 0.0 ==> r == 0.0
    ensures v > 100.0 ==> r == 100.0
  {
    if v < 0.0 then 0.0 else if v > 100.0 then 100.0 else v
  }

  lemma ClampMonotone(v: real, w: real)
    requires v <= w
    ensures Clamp(v) <= Clamp(w)
  {
  }

  // ---------------------------------------------------------------- pitchers

  /** The pitching blend, anchored so that a league-average line (ERA 5.0,
      K/9 6.0, BB/9 3.0) scores 0. */
  function PitchingFormula(era: real, k9: real, bb9: real): (v: real)
    ensures era == 5.0 && k9 == 6.0 && bb9 == 3.0 ==> v == 0.0
    ensures era < 5.0 && k9 >= 6.0 && bb9 <= 3.0 ==> v > 0.0
  {
    (5.0 - era) * 12.0 + (k9 - 6.0) * 8.0 + (3.0 - bb9) * 5.0
  }

  predicate PitchingMalformed(stat: StatMap)
  {
    ReadField(stat, Era, 5.0).None?
    || ReadField(stat, StrikeoutsPer9, 6.0).None?
    || ReadField(stat, WalksPer9, 3.0).None?
  }

  /** `pitcher_score`: missing fields take the defaults 5.0, 6.0 and 3.0, the
      formula is clamped, and any field that fails to parse gives 50. */
  function PitcherScore(stat: StatMap): (r: real)
    ensures IsScore(r)
    ensures PitchingMalformed(stat) ==> r == ParseFailureScore
  {
    match (ReadField(stat, Era, 5.0), ReadField(stat, StrikeoutsPer9, 6.0), ReadField(stat, WalksPer9, 3.0))
    case (Some(era), Some(k9), Some(bb9)) => Clamp(PitchingFormula(era, k9, bb9))
    case _ => ParseFailureScore
  }

  /** The defaults cancel exactly: an empty record (what the stats fetch
      gives back on any failure) scores 0, not the midpoint 50. */
  lemma PitcherScoreEmpty()
    ensures PitcherScore(map[]) == 0.0
  {
  }

  /** A record whose three fields are numbers, whatever other fields it
      carries, scores the clamped formula of those numbers. */
  lemma PitcherScoreOfNumbers(stat: StatMap, era: real, k9: real, bb9: real)
    requires Era in stat && stat[Era] == Num(era)
    requires StrikeoutsPer9 in stat && stat[StrikeoutsPer9] == Num(k9)
    requires WalksPer9 in stat && stat[WalksPer9] == Num(bb9)
    ensures PitcherScore(stat) == Clamp(PitchingFormula(era, k9, bb9))
  {
  }

  /** ERA 3.00, K/9 9.0, BB/9 2.0 give 24 + 24 + 5 = 53. */
  lemma PitcherScoreSample()
    ensures PitcherScore(map[Era := Num(3.0), StrikeoutsPer9 := Num(9.0), WalksPer9 := Num(2.0)]) == 53.0
  {
    PitcherScoreOfNumbers(map[Era := Num(3.0), StrikeoutsPer9 := Num(9.0), WalksPer9 := Num(2.0)], 3.0, 9.0, 2.0);
  }

  /** A better line never scores lower: lower ERA, more strikeouts and fewer
      walks per nine innings, between two records that both parse. */
  lemma PitcherScoreMonotone(better: StatMap, worse: StatMap)
    requires !PitchingMalformed(better) && !PitchingMalformed(worse)
    requires ReadField(better, Era, 5.0).value <= ReadField(worse, Era, 5.0).value
    requires ReadField(better, StrikeoutsPer9, 6.0).value >= ReadField(worse, StrikeoutsPer9, 6.0).value
    requires ReadField(better, WalksPer9, 3.0).value <= ReadField(worse, WalksPer9, 3.0).value
    ensures PitcherScore(better) >= PitcherScore(worse)
  {
    var b := PitchingFormula(ReadField(better, Era, 5.0).value, ReadField(better, StrikeoutsPer9, 6.0).value,
                             ReadField(better, WalksPer9, 3.0).value);
    var w := PitchingFormula(ReadField(worse, Era, 5.0).value, ReadField(worse, StrikeoutsPer9, 6.0).value,
                             ReadField(worse, WalksPer9, 3.0).value);
    ClampMonotone(w, b);
  }

  // ----------------------------------------------------------------- hitters

  /** The hitting blend, anchored so that a league-average line (AVG .250,
      OBP .320, SLG .400) scores 0. */
  function HittingFormula(avg: real, obp: real, slg: real): (v: real)
    ensures avg == 0.250 && obp == 0.320 && slg == 0.400 ==> v == 0.0
    ensures avg >= 0.250 && obp >= 0.320 && slg > 0.400 ==> v > 0.0
  {
    (avg - 0.250) * 100.0 + (obp - 0.320) * 80.0 + (slg - 0.400) * 60.0
  }

  /** The clamped score of one player's hitting record, or None when a field
      fails to parse and the player is skipped. */
  function HitterValue(stat: StatMap): (r: Option<real>)
    ensures r.Some? ==> IsScore(r.value)
    ensures r.None? <==> ReadField(stat, Avg, 0.250).None? || ReadField(stat, Obp, 0.320).None?
                         || ReadField(stat, Slg, 0.400).None?
  {
    match (ReadField(stat, Avg, 0.250), ReadField(stat, Obp, 0.320), ReadField(stat, Slg, 0.400))
    case (Some(avg), Some(obp), Some(slg)) =>
      Some(Clamp(HittingFormula(avg, obp, slg)))
    case _ => None
  }

  /** A record whose avg, obp and slg are numbers, whatever other fields it
      carries, scores the clamped hitting formula of those numbers. */
  lemma HitterValueOfNumbers(stat: StatMap, avg: real, obp: real, slg: real)
    requires Avg in stat && stat[Avg] == Num(avg)
    requires Obp in stat && stat[Obp] == Num(obp)
    requires Slg in stat && stat[Slg] == Num(slg)
    ensures HitterValue(stat) == Some(Clamp(HittingFormula(avg, obp, slg)))
  {
  }

  /** A better hitting line never scores lower: higher avg, obp and slg,
      between two records that both parse. */
  lemma HitterValueMonotone(better: StatMap, worse: StatMap)
    requires HitterValue(better).Some? && HitterValue(worse).Some?
    requires ReadField(better, Avg, 0.250).value >= ReadField(worse, Avg, 0.250).value
    requires ReadField(better, Obp, 0.320).value >= ReadField(worse, Obp, 0.320).value
    requires ReadField(better, Slg, 0.400).value >= ReadField(worse, Slg, 0.400).value
    ensures HitterValue(better).value >= HitterValue(worse).value
  {
    var b := HittingFormula(ReadField(better, Avg, 0.250).value, ReadField(better, Obp, 0.320).value,
                            ReadField(better, Slg, 0.400).value);
    var w := HittingFormula(ReadField(worse, Avg, 0.250).value, ReadField(worse, Obp, 0.320).value,
                            ReadField(worse, Slg, 0.400).value);
    ClampMonotone(w, b);
  }

  /** The `scores` list that `hitter_score` builds, one entry per player whose
      record parses, in roster order. */
  function KeptScores(players: seq<StatMap>): (s: seq<real>)
    ensures |s| <= |players|
    ensures forall i :: 0 <= i < |s| ==> IsScore(s[i])
  {
    if players == [] then []
    else
      var init := KeptScores(players[..|players| - 1]);
      match HitterValue(players[|players| - 1])
      case Some(v) => init + [v]
      case None => init
  }

  /** `sum(scores)`: the sum of n scores lies in [0, 100 n]. */
  function Sum(s: seq<real>): (r: real)
    ensures (forall i :: 0 <= i < |s| ==> IsScore(s[i])) ==> 0.0 <= r <= 100.0 * |s| as real
  {
    if s == [] then 0.0 else Sum(s[..|s| - 1]) + s[|s| - 1]
  }

  /** `sum(scores) / len(scores) if scores else 50`: the mean of a non-empty
      list, which times the length gives back the sum. */
  function MeanOrDefault(s: seq<real>): (r: real)
    ensures s == [] ==> r == NoHittersScore
    ensures s != [] ==> r * |s| as real == Sum(s)
  {
    if s == [] then NoHittersScore else Sum(s) / |s| as real
  }

  lemma MeanBounds(s: seq<real>)
    requires forall i :: 0 <= i < |s| ==> IsScore(s[i])
    ensures IsScore(MeanOrDefault(s))
  {
    if s != [] {
      var n := |s| as real;
      assert Sum(s) / n <= 100.0 by {
        assert Sum(s) / n * n == Sum(s);
      }
    }
  }

  /** What `hitter_score` returns for a roster whose records were fetched:
      whatever the records hold, it lies in [0, 100]. */
  function HitterScoreOf(players: seq<StatMap>): (r: real)
    ensures IsScore(r)
  {
    MeanBounds(KeptScores(players));
    MeanOrDefault(KeptScores(players))
  }

  /** The kept scores of two rosters joined are the kept scores of the first
      followed by those of the second. */
  lemma {:induction false} KeptScoresAppend(a: seq<StatMap>, b: seq<StatMap>)
    ensures KeptScores(a + b) == KeptScores(a) + KeptScores(b)
  {
    if b == [] {
      assert a + b == a;
    } else {
      var init := b[..|b| - 1];
      KeptScoresAppend(a, init);
      assert (a + b)[..|a + b| - 1] == a + init;
      assert (a + b)[|a + b| - 1] == b[|b| - 1];
    }
  }

  /** An empty roster scores exactly 50. */
  lemma HitterScoreEmpty()
    ensures HitterScoreOf([]) == NoHittersScore
  {
  }

  /** A player whose record fails to parse is skipped wherever they stand in
      the roster: they add nothing to the kept scores and so nothing to the
      mean. */
  lemma {:induction false} MalformedPlayerSkipped(before: seq<StatMap>, p: StatMap, after: seq<StatMap>)
    requires HitterValue(p).None?
    ensures KeptScores(before + [p] + after) == KeptScores(before + after)
    ensures HitterScoreOf(before + [p] + after) == HitterScoreOf(before + after)
  {
    if after == [] {
      assert before + [p] + after == before + [p];
      assert before + after == before;
      assert (before + [p])[..|before|] == before;
      assert KeptScores(before + [p]) == KeptScores(before);
    } else {
      var last := after[|after| - 1];
      var rest := after[..|after| - 1];
      MalformedPlayerSkipped(before, p, rest);
      assert before + [p] + after == (before + [p] + rest) + [last];
      assert before + after == (before + rest) + [last];
      assert (before + [p] + after)[..|before + [p] + after| - 1] == before + [p] + rest;
      assert (before + after)[..|before + after| - 1] == before + rest;
    }
  }

  /** A player whose record parses is kept wherever they stand in the
      roster: their clamped score enters the kept scores at their position,
      and so the mean. */
  lemma ParsedPlayerKept(before: seq<StatMap>, p: StatMap, after: seq<StatMap>)
    requires HitterValue(p).Some?
    ensures KeptScores(before + [p] + after) == KeptScores(before) + [HitterValue(p).value] + KeptScores(after)
    ensures HitterScoreOf(before + [p] + after)
         == MeanOrDefault(KeptScores(before) + [HitterValue(p).value] + KeptScores(after))
  {
    KeptScoresAppend(before + [p], after);
    KeptScoresAppend(before, [p]);
    assert [p][..0] == [];
  }

  /** A player whose record is empty (nothing fetched) is not skipped,
      wherever they stand in the roster: the defaults score exactly 0, and
      that 0 is one more entry of the mean. */
  lemma AbsentPlayerCounts(before: seq<StatMap>, after: seq<StatMap>)
    ensures KeptScores(before + [map[]] + after) == KeptScores(before) + [0.0] + KeptScores(after)
    ensures HitterScoreOf(before + [map[]] + after) == MeanOrDefault(KeptScores(before) + [0.0] + KeptScores(after))
    ensures |KeptScores(before + [map[]] + after)| == |KeptScores(before + after)| + 1
  {
    var empty: StatMap := map[];
    ParsedPlayerKept(before, empty, after);
    KeptScoresAppend(before, after);
  }

  /** `hitter_score`: builds the list of kept scores player by player and
      returns their mean, or 50 when none was kept. */
  method HitterScore(players: seq<StatMap>) returns (score: real)
    ensures score == HitterScoreOf(players)
    ensures IsScore(score)
  {
    var scores: seq<real> := [];
    var i := 0;
    while i < |players|
      invariant 0 <= i <= |players|
      invariant scores == KeptScores(players[..i])
    {
      assert players[..i + 1][..i] == players[..i];
      var v := HitterValue(players[i]);
      if v.Some? {
        scores := scores + [v.value];
      }
      i := i + 1;
    }
    assert players[..i] == players;
    score := if scores != [] then Sum(scores) / |scores| as real else NoHittersScore;
  }
}
