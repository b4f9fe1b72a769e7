/** The record shapes exchanged with the server and the canonical matchup
    cell the rest of the model works on.

    A parsed JSON object is an association list, so that `Object.keys` has
    its insertion order. A parsed object never repeats a key; lookups take the
    first entry, which is the only one in that case. */
module Shapes {
  import opened Wrappers

  datatype Entry<V> = Entry(key: string, value: V)

  type Obj<V> = seq<Entry<V>>

  /** `Object.keys(o)`. */
  function Keys<V>(o: Obj<V>): (ks: seq<string>)
    ensures |ks| == |o|
    ensures forall i :: 0 <= i < |o| ==> ks[i] == o[i].key
  {
    if o == [] then [] else [o[0].key] + Keys(o[1..])
  }

  /** `o[k]`, with `None` for `undefined`. */
  function Get<V>(o: Obj<V>, k: string): (r: Option<V>)
    ensures r.Some? <==> k in Keys(o)
    ensures r.Some? ==> exists i :: 0 <= i < |o| && o[i] == Entry(k, r.value)
  {
    if o == [] then None
    else if o[0].key == k then Some(o[0].value)
    else Get(o[1..], k)
  }

  /** One pairwise matchup as the rest of the model sees it: the row
      archetype's wins and losses against the column archetype. */
  datatype Cell = Cell(wins: nat, losses: nat)

  /** The matchup shape returned by the authenticated API (`src/lib/api-client.ts`). */
  datatype ApiMatchup = ApiMatchup(wins: nat, losses: nat, draws: nat)

  /** The matchup shape the matrix component declares (`src/components/MetaMatrix.tsx`). */
  datatype LegacyMatchup = LegacyMatchup(archetype1Wins: nat, archetype2Wins: nat)

  /** Adapters from each shape to the canonical cell; draws carry no weight. */
  function FromApi(m: ApiMatchup): (c: Cell)
    ensures c.wins == m.wins && c.losses == m.losses
  {
    Cell(m.wins, m.losses)
  }

  function FromLegacy(m: LegacyMatchup): (c: Cell)
    ensures c.wins == m.archetype1Wins && c.losses == m.archetype2Wins
  {
    Cell(m.archetype1Wins, m.archetype2Wins)
  }

  /** An archetype's overall record as the win-loss endpoint returns it. */
  datatype WinLossRecord = WinLossRecord(
    archetype: string, wins: nat, losses: nat, draws: nat, totalMatches: nat, winRate: real)

  /** The part of a record every ordering and display reads: wins and losses. */
  datatype Tally = Tally(wins: nat, losses: nat)

  function Games(t: Tally): nat {
    t.wins + t.losses
  }

  function TallyOf(r: WinLossRecord): (t: Tally)
    ensures t.wins == r.wins && t.losses == r.losses
  {
    Tally(r.wins, r.losses)
  }

  function Tallies(records: map<string, WinLossRecord>): (t: map<string, Tally>)
    ensures t.Keys == records.Keys
    ensures forall k :: k in t ==> t[k] == TallyOf(records[k])
  {
    map k | k in records :: TallyOf(records[k])
  }
}
