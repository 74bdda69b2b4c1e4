/**
 * The Elo rankings table of the browser (public/js/rankings.js): the rating
 * bands, the in-place sort by rating, the position and star labels of each
 * row, and the chart colours. Ratings are whole numbers here; a missing
 * rating is `None`.
 */
module Rankings {
  import opened Wrappers
  import opened Strings
  import opened Sorting

  datatype Ranking = Ranking(model: string, elo: Option<int>)

  /** `getEloClass(elo)`; a missing rating compares false and falls to the last band. */
  function EloClass(elo: Option<int>): (c: string)
    ensures c == "elo-master" <==> elo.Some? && elo.value >= 1800
    ensures c == "elo-expert" <==> elo.Some? && 1600 <= elo.value < 1800
    ensures c == "elo-intermediate" <==> elo.Some? && 1400 <= elo.value < 1600
    ensures c == "elo-beginner" <==> elo.None? || elo.value < 1400
  {
    if elo.Some? && elo.value >= 1800 then "elo-master"
    else if elo.Some? && elo.value >= 1600 then "elo-expert"
    else if elo.Some? && elo.value >= 1400 then "elo-intermediate"
    else "elo-beginner"
  }

  /** `ranking.elo >= 1600`: whether the row shows a star. */
  predicate Starred(elo: Option<int>)
  {
    elo.Some? && elo.value >= 1600
  }

  /** The star marks exactly the expert and master bands. */
  lemma StarredIffTopBands(elo: Option<int>)
    ensures Starred(elo) <==> EloClass(elo) == "elo-expert" || EloClass(elo) == "elo-master"
  {
  }

  /** `ranking.elo || 1500`: the sort key, where a missing or zero rating counts as 1500. */
  function SortKey(r: Ranking): (k: int)
    ensures r.elo.Some? && r.elo.value != 0 ==> k == r.elo.value
    ensures r.elo.None? || r.elo.value == 0 ==> k == 1500
  {
    if r.elo.Some? && r.elo.value != 0 then r.elo.value else 1500
  }

  /**
   * `rankings.sort((a, b) => (b.elo || 1500) - (a.elo || 1500))`, which
   * reorders the caller's array itself.
   */
  method SortRankings(rankings: array<Ranking>)
    modifies rankings
    ensures rankings[..] == SortDesc(old(rankings[..]), SortKey)
  {
    var sorted := SortDesc(rankings[..], SortKey);
    forall i | 0 <= i < rankings.Length {
      rankings[i] := sorted[i];
    }
  }

  /**
   * The sorted rankings run from the highest key down, hold the same
   * rankings, and keep rankings with equal keys in their old order.
   */
  lemma SortedRankings(rankings: seq<Ranking>)
    ensures forall i, j :: 0 <= i < j < |SortDesc(rankings, SortKey)| ==>
      SortKey(SortDesc(rankings, SortKey)[i]) >= SortKey(SortDesc(rankings, SortKey)[j])
    ensures multiset(SortDesc(rankings, SortKey)) == multiset(rankings)
    ensures forall k :: WithKey(SortDesc(rankings, SortKey), SortKey, k) == WithKey(rankings, SortKey, k)
  {
    SortDescCorrect(rankings, SortKey);
  }

  /** `positionDisplay` for the row at `index`: a medal and the place for the first three, else the place. */
  function PositionLabel(index: nat): string
  {
    if index == 0 then "🥇 1"
    else if index == 1 then "🥈 2"
    else if index == 2 then "🥉 3"
    else NatToString(index + 1)
  }

  /** Every label ends with the 1-based place, and from the fourth row on it is just the place. */
  lemma PositionLabelPlace(index: nat)
    ensures EndsWith(PositionLabel(index), NatToString(index + 1))
    ensures index >= 3 ==> ParseInt(PositionLabel(index)) == Some(index + 1)
    ensures index < 3 <==> !IsDigit(PositionLabel(index)[0])
  {
    if index < 3 {
      MedalLabel(index);
    } else {
      PlaceLabel(index);
    }
  }

  lemma MedalLabel(index: nat)
    requires index < 3
    ensures EndsWith(PositionLabel(index), NatToString(index + 1))
    ensures !IsDigit(PositionLabel(index)[0])
  {
    var shown := PositionLabel(index);
    assert NatToString(index + 1) == [DigitChar(index + 1)];
    assert shown[|shown| - 1..] == [DigitChar(index + 1)];
  }

  lemma PlaceLabel(index: nat)
    requires index >= 3
    ensures PositionLabel(index) == NatToString(index + 1)
    ensures ParseInt(PositionLabel(index)) == Some(index + 1)
    ensures IsDigit(PositionLabel(index)[0])
  {
    var place := NatToString(index + 1);
    assert PositionLabel(index) == place;
    DigitsValueNatToString(index + 1);
    ParseIntDigits(place);
  }

  /** What a table row shows besides the figures. */
  datatype Row = Row(position: string, model: string, starred: bool, eloClass: string)

  function RowAt(r: Ranking, index: nat): Row
  {
    Row(PositionLabel(index), r.model, Starred(r.elo), EloClass(r.elo))
  }

  /** The rows of an already sorted list, in order. */
  function RowsOf(sorted: seq<Ranking>): (rows: seq<Row>)
    ensures |rows| == |sorted|
    ensures forall i :: 0 <= i < |rows| ==> rows[i] == RowAt(sorted[i], i)
  {
    seq(|sorted|, i requires 0 <= i < |sorted| => RowAt(sorted[i], i))
  }

  /** `updateEloRankingsTable(rankings)`: a message for no rankings, else one row per ranking after sorting. */
  datatype Table = NoRankings | Rows(rows: seq<Row>)

  function RankingsTable(rankings: seq<Ranking>): Table
  {
    if |rankings| == 0 then NoRankings else Rows(RowsOf(SortDesc(rankings, SortKey)))
  }

  /**
   * One row per ranking: row i shows the i-th ranking of a rearrangement of
   * the input into descending key order, so the medal rows hold the
   * rankings with the highest keys.
   */
  lemma RankingsTableRows(rankings: seq<Ranking>)
    ensures RankingsTable(rankings).NoRankings? <==> |rankings| == 0
    ensures RankingsTable(rankings).Rows? ==>
      var sorted := SortDesc(rankings, SortKey);
      var rows := RankingsTable(rankings).rows;
      |rows| == |rankings| && multiset(sorted) == multiset(rankings)
      && (forall i :: 0 <= i < |rows| ==> rows[i] == RowAt(sorted[i], i))
      && forall i, j :: 0 <= i < j < |rows| ==> SortKey(sorted[i]) >= SortKey(sorted[j])
  {
    SortDescCorrect(rankings, SortKey);
  }

  // ---------------------------------------------------------------------
  // getModelColor

  /** The red, green and blue of the eight chart colours. */
  const Palette: seq<(nat, nat, nat)> := [
    (102, 126, 234), (220, 53, 69), (40, 167, 69), (255, 193, 7),
    (23, 162, 184), (108, 117, 125), (111, 66, 193), (253, 126, 20)]

  /** `getModelColor(index, alpha)` with `alpha` as it is printed. */
  function ModelColor(index: nat, alpha: string): string
  {
    var c := Palette[index % |Palette|];
    "rgba(" + NatToString(c.0) + ", " + NatToString(c.1) + ", " + NatToString(c.2) + ", " + alpha + ")"
  }

  /** The colours repeat every eight models. */
  lemma ModelColorCycle(index: nat, alpha: string)
    ensures ModelColor(index + 8, alpha) == ModelColor(index, alpha)
  {
    assert (index + 8) % 8 == index % 8;
  }

  /** Within one cycle of eight models no two get the same colour. */
  lemma PaletteDistinct(index: nat, other: nat)
    ensures index % 8 != other % 8 ==> Palette[index % 8] != Palette[other % 8]
  {
  }
}
