/** The matchup matrix view (src/components/MetaMatrix.tsx): the per-cell
    win-rate statistic, its colour, the neutral diagonal and the square
    row/column layout. The Wilson score interval comes from a third-party
    library; it is a parameter here, a total function, so it returns even
    for a pair with no games, where the source calls it before the check. */
module MetaMatrix {
  import opened Wrappers
  import opened Shapes

  /** What the interval library returns for (wins, total): bounds on the win probability. */
  datatype Interval = Interval(left: real, right: real)

  /** A displayed matchup: win rate in percent, the raw counts and the
      interval bounds scaled to percent. */
  datatype CellStat = CellStat(winrate: real, wins: nat, losses: nat, wilsonLower: real, wilsonUpper: real)

  /** `matchupData[hero]?.[villain]`. */
  function Lookup(matrix: Obj<Obj<Cell>>, hero: string, villain: string): (r: Option<Cell>)
    ensures r.Some? <==> Get(matrix, hero).Some? && Get(Get(matrix, hero).value, villain).Some?
    ensures r.Some? ==>
      exists i, j :: 0 <= i < |matrix| && matrix[i].key == hero
        && 0 <= j < |matrix[i].value| && matrix[i].value[j] == Entry(villain, r.value)
  {
    match Get(matrix, hero)
    case None => None
    case Some(row) => Get(row, villain)
  }

  /** `calculateWinrate(hero, villain)`: absent when the pair has no entry
      and, indistinguishably, when the pair has no decided games; otherwise
      the row archetype's share of wins, in percent. */
  function CalculateWinrate(matrix: Obj<Obj<Cell>>, hero: string, villain: string, wilson: (nat, nat) -> Interval): (r: Option<CellStat>)
    ensures r.None? <==>
      Lookup(matrix, hero, villain).None? || Lookup(matrix, hero, villain).value.wins + Lookup(matrix, hero, villain).value.losses == 0
    ensures r.Some? ==>
      var c := Lookup(matrix, hero, villain).value;
      && r.value.wins == c.wins && r.value.losses == c.losses
      && 0.0 <= r.value.winrate <= 100.0
      && r.value.winrate * (c.wins + c.losses) as real == 100.0 * c.wins as real
      && r.value.wilsonLower == wilson(c.wins, c.wins + c.losses).left * 100.0
      && r.value.wilsonUpper == wilson(c.wins, c.wins + c.losses).right * 100.0
  {
    match Lookup(matrix, hero, villain)
    case None => None
    case Some(m) =>
      var wins := m.wins;
      var losses := m.losses;
      var total := wins + losses;
      var ci := wilson(wins, total);
      if total == 0 then None
      else
        var rate := (wins as real / total as real) * 100.0;
        WinrateBounds(wins, total);
        Some(CellStat(rate, wins, losses, ci.left * 100.0, ci.right * 100.0))
  }

  lemma WinrateBounds(wins: nat, total: nat)
    requires 0 < total && wins <= total
    ensures 0.0 <= (wins as real / total as real) * 100.0 <= 100.0
    ensures (wins as real / total as real) * 100.0 * total as real == 100.0 * wins as real
  {
    var q := wins as real / total as real;
    assert q * total as real == wins as real;
    assert q <= 1.0 by {
      if q > 1.0 {
        assert q * total as real > 1.0 * total as real;
      }
    }
  }

  /** A win rate recovers the wins it was computed from, so the cell loses
      nothing of the record but the draws. */
  lemma WinrateRecoversWins(matrix: Obj<Obj<Cell>>, hero: string, villain: string, wilson: (nat, nat) -> Interval)
    requires CalculateWinrate(matrix, hero, villain, wilson).Some?
    ensures var st := CalculateWinrate(matrix, hero, villain, wilson).value;
      st.winrate * (st.wins + st.losses) as real / 100.0 == st.wins as real
  {
  }

  /** A missing pair and a pair with no decided games render the same. */
  lemma MissingAndEmptyAlike(wilson: (nat, nat) -> Interval)
    ensures CalculateWinrate([], "a", "b", wilson) == None
    ensures CalculateWinrate([Entry("a", [Entry("b", Cell(0, 0))])], "a", "b", wilson) == None
  {
  }

  /** `hsl(hue, 70%, 45%)`; the number formatting of the hue is not modelled. */
  datatype Colour = Hsl(hue: real, saturation: nat, lightness: nat)

  /** `getWinrateColor(winrate)`: the hue runs linearly from red (0) at 0%
      to green (120) at 100%. */
  function WinrateColour(winrate: real): (c: Colour)
    ensures 0.0 <= winrate <= 100.0 ==> 0.0 <= c.hue <= 120.0
    ensures c.saturation == 70 && c.lightness == 45
  {
    Hsl(winrate / 100.0 * 120.0, 70, 45)
  }

  /** The colour scale is strictly increasing, so the hue determines the win rate. */
  lemma HueIsLinear(a: real, b: real)
    ensures WinrateColour(a).hue * 100.0 / 120.0 == a
    ensures a < b ==> WinrateColour(a).hue < WinrateColour(b).hue
  {
  }

  /** One cell of the table: the grey diagonal, the placeholder text for an
      absent statistic, or a coloured statistic. */
  datatype CellView = Diagonal | Pending | Shown(stat: CellStat, colour: Colour)

  function RenderCell(matrix: Obj<Obj<Cell>>, hero: string, villain: string, wilson: (nat, nat) -> Interval): (v: CellView)
    ensures hero == villain ==> v == Diagonal
    ensures hero != villain ==> (v.Pending? <==> CalculateWinrate(matrix, hero, villain, wilson).None?)
    ensures v.Shown? ==>
      && v.stat == CalculateWinrate(matrix, hero, villain, wilson).value
      && 0.0 <= v.stat.winrate <= 100.0
      && 0.0 <= v.colour.hue <= 120.0
      && v.colour == WinrateColour(v.stat.winrate)
  {
    if hero == villain then Diagonal
    else match CalculateWinrate(matrix, hero, villain, wilson)
      case None => Pending
      case Some(st) => Shown(st, WinrateColour(st.winrate))
  }

  /** The diagonal never consults the matrix: whatever it holds for a
      self-pairing, the cell is the same. */
  lemma DiagonalIgnoresData(m1: Obj<Obj<Cell>>, m2: Obj<Obj<Cell>>, a: string, wilson: (nat, nat) -> Interval)
    ensures RenderCell(m1, a, a, wilson) == RenderCell(m2, a, a, wilson) == Diagonal
  {
  }

  /** The row header's overall record: wins, losses and the win percentage,
      which is NaN in the source when the record has no decided games (`None` here). */
  datatype Header = Header(hero: string, record: Option<HeaderRecord>)
  datatype HeaderRecord = HeaderRecord(wins: nat, losses: nat, percent: Option<real>)

  function RenderHeader(records: map<string, Tally>, hero: string): (h: Header)
    ensures h.hero == hero
    ensures h.record.Some? <==> hero in records
    ensures h.record.Some? ==>
      && h.record.value.wins == records[hero].wins && h.record.value.losses == records[hero].losses
      && (h.record.value.percent.Some? <==> Games(records[hero]) > 0)
      && (h.record.value.percent.Some? ==> 0.0 <= h.record.value.percent.value <= 100.0)
      && (h.record.value.percent.Some? ==>
            h.record.value.percent.value * Games(records[hero]) as real == 100.0 * records[hero].wins as real)
  {
    if hero !in records then Header(hero, None)
    else
      var t := records[hero];
      if Games(t) == 0 then Header(hero, Some(HeaderRecord(t.wins, t.losses, None)))
      else
        WinrateBounds(t.wins, Games(t));
        Header(hero, Some(HeaderRecord(t.wins, t.losses, Some((t.wins as real / Games(t) as real) * 100.0))))
  }

  datatype Row = Row(header: Header, cells: seq<CellView>)

  /** The whole component: a placeholder for an empty archetype list,
      otherwise a square table whose columns and rows are the same list. */
  datatype MatrixView = Placeholder | Table(columns: seq<string>, rows: seq<Row>)

  function Render(matrix: Obj<Obj<Cell>>, records: map<string, Tally>, archetypes: seq<string>, wilson: (nat, nat) -> Interval): (v: MatrixView)
    ensures v.Placeholder? <==> archetypes == []
    ensures v.Table? ==>
      && v.columns == archetypes
      && |v.rows| == |archetypes|
      && forall i :: 0 <= i < |archetypes| ==>
           && v.rows[i].header == RenderHeader(records, archetypes[i])
           && |v.rows[i].cells| == |archetypes|
           && forall j :: 0 <= j < |archetypes| ==>
                v.rows[i].cells[j] == RenderCell(matrix, archetypes[i], archetypes[j], wilson)
  {
    if archetypes == [] then Placeholder
    else
      Table(archetypes,
        seq(|archetypes|, i requires 0 <= i < |archetypes| =>
          Row(RenderHeader(records, archetypes[i]),
              seq(|archetypes|, j requires 0 <= j < |archetypes| =>
                RenderCell(matrix, archetypes[i], archetypes[j], wilson)))))
  }

  /** Every rendered table has the grey diagonal, and every coloured cell
      shows a win rate in [0, 100] with a hue in [0, 120]. */
  lemma RenderedTableShape(matrix: Obj<Obj<Cell>>, records: map<string, Tally>, archetypes: seq<string>, wilson: (nat, nat) -> Interval)
    requires archetypes != []
    ensures var v := Render(matrix, records, archetypes, wilson);
      && (forall i :: 0 <= i < |archetypes| ==> v.rows[i].cells[i] == Diagonal)
      && (forall i, j :: 0 <= i < |archetypes| && 0 <= j < |archetypes| && v.rows[i].cells[j].Shown? ==>
            0.0 <= v.rows[i].cells[j].stat.winrate <= 100.0 && 0.0 <= v.rows[i].cells[j].colour.hue <= 120.0)
  {
  }
}
