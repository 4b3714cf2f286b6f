/** The flat pest-observation record, the five-record seed list and the two
    ways a new record is built: manual entry and simulated detection. The
    host facilities the source calls (the clock and the random generator)
    are parameters here. */
module PestRecords {
  import Decimal

  /** One observation: a species count at a field location on a date. */
  datatype Record = Record(id: int, date: string, species: string, count: int, location: string)

  /** The seed list used when nothing is saved. */
  const SampleData: seq<Record> := [
    Record(1, "2025-12-18", "aphids", 25, "Field A, Zone 1"),
    Record(2, "2025-12-18", "caterpillars", 12, "Field B, Zone 2"),
    Record(3, "2025-12-17", "beetles", 8, "Field A, Zone 3"),
    Record(4, "2025-12-17", "aphids", 35, "Field B, Zone 1"),
    Record(5, "2025-12-16", "whiteflies", 18, "Field A, Zone 2")
  ]

  /** The species a simulated detection picks from. */
  const SpeciesList: seq<string> := ["aphids", "caterpillars", "beetles", "whiteflies", "thrips"]

  /** The location used when the manual form leaves it empty. */
  const DefaultLocation: string := "Field A"

  /** `iso.split('T')[0]`: everything before the first 'T', or all of `iso`
      when it has none. The contract pins that piece down uniquely. */
  function DatePart(iso: string): (d: string)
    ensures d <= iso
    ensures 'T' !in d
    ensures |d| < |iso| ==> iso[|d|] == 'T'
  {
    if iso == [] || iso[0] == 'T' then [] else [iso[0]] + DatePart(iso[1..])
  }

  /** The record `addPestData` builds from the form: the id is the clock
      reading, the date the day part of the current ISO timestamp, and an
      empty location falls back to "Field A". */
  function NewRecord(now: int, isoNow: string, species: string, count: int, location: string): (r: Record)
    ensures r.id == now && r.species == species && r.count == count
    ensures r.date <= isoNow && 'T' !in r.date && (|r.date| < |isoNow| ==> isoNow[|r.date|] == 'T')
    ensures r.location != ""
    ensures location == "" ==> r.location == DefaultLocation
    ensures location != "" ==> r.location == location
  {
    Record(now, DatePart(isoNow), species, count, if location == "" then DefaultLocation else location)
  }

  /** "Field X, Zone k" with X a capital letter A..C and k a digit 1..4. */
  predicate IsFieldZone(loc: string)
  {
    |loc| == 15 && loc[..6] == "Field " && 'A' <= loc[6] <= 'C' && loc[7..14] == ", Zone " && '1' <= loc[14] <= '4'
  }

  /** The simulated location from the field draw `field` (0..2, the letter
      `65 + field`) and the zone draw `zone` (0..3, printed as `zone + 1`). */
  function SimulatedLocation(field: int, zone: int): (loc: string)
    requires 0 <= field < 3 && 0 <= zone < 4
    ensures IsFieldZone(loc)
    ensures loc[6] as int == 65 + field && loc[14] as int == '1' as int + zone
  {
    "Field " + [(65 + field) as char] + ", Zone " + Decimal.NatToString(zone + 1)
  }

  /** The record `simulateDetection` builds. The four random draws are
      `floor(random * n)` for n = 5, 30, 3 and 4, given here as indices. */
  function SimulatedRecord(now: int, isoNow: string, speciesDraw: int, countDraw: int, field: int, zone: int): (r: Record)
    requires 0 <= speciesDraw < |SpeciesList| && 0 <= countDraw < 30
    requires 0 <= field < 3 && 0 <= zone < 4
    ensures r.id == now && r.date == DatePart(isoNow)
    ensures r.species in SpeciesList
    ensures 5 <= r.count <= 34
    ensures IsFieldZone(r.location)
  {
    Record(now, DatePart(isoNow), SpeciesList[speciesDraw], countDraw + 5, SimulatedLocation(field, zone))
  }

  /** Every species of the list, every count 5..34 and every "Field X, Zone k"
      is produced by some choice of draws: the ranges are exact. */
  lemma SimulationReaches(now: int, isoNow: string, sp: string, count: int, loc: string)
    returns (speciesDraw: int, countDraw: int, field: int, zone: int)
    requires sp in SpeciesList && 5 <= count <= 34 && IsFieldZone(loc)
    ensures 0 <= speciesDraw < |SpeciesList| && 0 <= countDraw < 30
    ensures 0 <= field < 3 && 0 <= zone < 4
    ensures SimulatedRecord(now, isoNow, speciesDraw, countDraw, field, zone) == Record(now, DatePart(isoNow), sp, count, loc)
  {
    speciesDraw :| 0 <= speciesDraw < |SpeciesList| && SpeciesList[speciesDraw] == sp;
    countDraw := count - 5;
    field := loc[6] as int - 65;
    zone := loc[14] as int - '1' as int;
    var built := SimulatedLocation(field, zone);
    assert built[..6] == loc[..6] && built[7..14] == loc[7..14];
    assert forall i :: 0 <= i < 15 ==> built[i] == loc[i] by {
      forall i | 0 <= i < 15 ensures built[i] == loc[i] {
        if i < 6 {
          assert built[i] == built[..6][i] && loc[i] == loc[..6][i];
        } else if 7 <= i < 14 {
          assert built[i] == built[7..14][i - 7] && loc[i] == loc[7..14][i - 7];
        }
      }
    }
  }
}
