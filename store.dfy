/** The page state of the dashboard script: the live record list `pestData`,
    the saved copy behind the storage key "pestData" and the storage flag
    "isLoggedIn". Saving and loading are state updates between the list and
    the saved copy; the clock and the random generator are parameters. */
module RecordStore {
  import opened Wrappers
  import opened PestRecords
  import Seqs
  import Aggregates
  import SpeciesStats

  const AdminUser: string := "admin"
  const AdminPassword: string := "admin123"

  /** The test of `filter(item => item.id !== id)`. */
  function KeepsOtherIds(id: int): Record -> bool
  {
    (r: Record) => r.id != id
  }

  /** `deletePest`'s filter: every record with this id goes, not only the first. */
  function RemoveId(s: seq<Record>, id: int): (r: seq<Record>)
    ensures |r| <= |s|
    ensures forall i :: 0 <= i < |r| ==> r[i].id != id && r[i] in s
  {
    Seqs.Filter(s, KeepsOtherIds(id))
  }

  /** Every record with another id survives the delete. */
  lemma RemoveIdKeepsOthers(s: seq<Record>, id: int, i: int)
    requires 0 <= i < |s| && s[i].id != id
    ensures s[i] in RemoveId(s, id)
  {
    Seqs.FilterComplete(s, KeepsOtherIds(id), i);
  }

  /** Deleting works piecewise, so the survivors keep their relative order. */
  lemma RemoveIdConcat(s: seq<Record>, t: seq<Record>, id: int)
    ensures RemoveId(s + t, id) == RemoveId(s, id) + RemoveId(t, id)
  {
    Seqs.FilterConcat(s, t, KeepsOtherIds(id));
  }

  /** Deleting an id that no record has leaves the list as it was. */
  lemma RemoveIdAbsent(s: seq<Record>, id: int)
    requires forall i :: 0 <= i < |s| ==> s[i].id != id
    ensures RemoveId(s, id) == s
  {
    Seqs.FilterKeepsAll(s, KeepsOtherIds(id));
  }

  /** Deleting twice is deleting once. */
  lemma RemoveIdIdempotent(s: seq<Record>, id: int)
    ensures RemoveId(RemoveId(s, id), id) == RemoveId(s, id)
  {
    RemoveIdAbsent(RemoveId(s, id), id);
  }

  /** What the analysis panel shows. */
  datatype AnalysisStats = AnalysisStats(topPest: string, totalDetections: nat)

  class PestStore {
    /** The global `pestData` list, newest record first. */
    var pestData: seq<Record>
    /** What the storage holds under "pestData"; `None` when nothing was ever saved. */
    var saved: Option<seq<Record>>
    /** Whether the storage holds the "isLoggedIn" flag. */
    var loggedIn: bool

    /** A page load over the given storage, before `loadData` runs. */
    constructor (storedData: Option<seq<Record>>, storedLogin: bool)
      ensures pestData == [] && saved == storedData && loggedIn == storedLogin
    {
      pestData := [];
      saved := storedData;
      loggedIn := storedLogin;
    }

    /** The saved list when there is one, the seed list otherwise. */
    method LoadData()
      modifies this`pestData
      ensures pestData == if saved.Some? then saved.value else SampleData
    {
      pestData := if saved.Some? then saved.value else SampleData;
    }

    /** Writes the live list to storage. */
    method SaveData()
      modifies this`saved
      ensures saved == Some(pestData)
    {
      saved := Some(pestData);
    }

    /** Manual entry: the new record goes to the front, every earlier record
        follows in its old order, and the list is saved. */
    method AddPestData(now: int, isoNow: string, species: string, count: int, location: string) returns (rec: Record)
      modifies this`pestData, this`saved
      ensures rec == NewRecord(now, isoNow, species, count, location)
      ensures rec.location == if location == "" then DefaultLocation else location
      ensures pestData == [rec] + old(pestData)
      ensures saved == Some(pestData)
    {
      rec := NewRecord(now, isoNow, species, count, location);
      pestData := [rec] + pestData;
      SaveData();
    }

    /** Simulated detection: a record built from the four random draws goes to
        the front and the list is saved. */
    method SimulateDetection(now: int, isoNow: string, speciesDraw: int, countDraw: int, field: int, zone: int)
      returns (rec: Record)
      requires 0 <= speciesDraw < |SpeciesList| && 0 <= countDraw < 30
      requires 0 <= field < 3 && 0 <= zone < 4
      modifies this`pestData, this`saved
      ensures rec == SimulatedRecord(now, isoNow, speciesDraw, countDraw, field, zone)
      ensures rec.species in SpeciesList && 5 <= rec.count <= 34 && IsFieldZone(rec.location)
      ensures pestData == [rec] + old(pestData)
      ensures saved == Some(pestData)
    {
      rec := SimulatedRecord(now, isoNow, speciesDraw, countDraw, field, zone);
      pestData := [rec] + pestData;
      SaveData();
    }

    /** A confirmed delete: every record with `id` is removed and the list is saved. */
    method DeletePest(id: int)
      modifies this`pestData, this`saved
      ensures pestData == RemoveId(old(pestData), id)
      ensures forall i :: 0 <= i < |pestData| ==> pestData[i].id != id
      ensures saved == Some(pestData)
    {
      pestData := RemoveId(pestData, id);
      SaveData();
    }

    /** Only admin / admin123 sets the flag; any other pair changes nothing. */
    method HandleLogin(username: string, password: string) returns (ok: bool)
      modifies this`loggedIn
      ensures ok <==> username == AdminUser && password == AdminPassword
      ensures loggedIn == (ok || old(loggedIn))
    {
      ok := username == AdminUser && password == AdminPassword;
      if ok {
        loggedIn := true;
      }
    }

    /** Clears the flag. */
    method Logout()
      modifies this`loggedIn
      ensures !loggedIn
    {
      loggedIn := false;
    }

    /** The figures `updateDashboard` and `updateRecentActivity` display:
        the total, the alert count, the density (readable back as total / 10
        with one decimal) and the recent window (the newest five, oldest first). */
    method UpdateDashboard() returns (totalPests: int, alerts: nat, avgDensity: string, recent: seq<Record>)
      ensures totalPests == Aggregates.TotalPests(pestData)
      ensures alerts == Aggregates.HighRisk(pestData)
      ensures totalPests <= 0 ==> avgDensity == "0%"
      ensures totalPests > 0 ==> Aggregates.DensityReadsAs(avgDensity, totalPests)
      ensures Aggregates.IsRecentWindow(recent, pestData)
    {
      totalPests := Aggregates.TotalPests(pestData);
      alerts := Aggregates.HighRisk(pestData);
      avgDensity := Aggregates.AvgDensity(totalPests);
      Aggregates.AvgDensityMeaning(totalPests);
      recent := Aggregates.Recent(pestData);
    }

    /** The doughnut chart's series: `Object.keys` and `Object.values` of the
        species totals, species in first-seen order. */
    method InitCharts() returns (labels: seq<string>, values: seq<int>)
      ensures labels == SpeciesStats.SpeciesOrder(pestData)
      ensures |values| == |labels|
      ensures forall j :: 0 <= j < |labels| ==> values[j] == SpeciesStats.SpeciesSum(pestData, labels[j])
    {
      var totals;
      labels, totals := SpeciesStats.CountBySpecies(pestData);
      values := seq(|labels|, j requires 0 <= j < |labels| => totals[labels[j]]);
    }

    /** `updateAnalysisStats`: the top pest and the number of detections.
        On an empty list the source's reduce throws before either is
        computed, which is `None` here. */
    method UpdateAnalysisStats() returns (stats: Option<AnalysisStats>)
      ensures stats.None? <==> pestData == []
      ensures stats.Some? ==> Some(stats.value.topPest) == SpeciesStats.TopPest(pestData)
      ensures stats.Some? ==> stats.value.topPest in SpeciesStats.SpeciesOrder(pestData)
      ensures stats.Some? ==> stats.value.totalDetections == |pestData|
    {
      var keys, totals := SpeciesStats.CountBySpecies(pestData);
      var entries := seq(|keys|, j requires 0 <= j < |keys| => (keys[j], totals[keys[j]]));
      assert entries == SpeciesStats.SpeciesTotals(pestData);
      if entries == [] {
        stats := None;
      } else {
        var topPest := SpeciesStats.ReduceTop(entries);
        stats := Some(AnalysisStats(topPest.0, |pestData|));
      }
    }
  }

  /** Adding a record and then loading the page again: the reloaded list
      starts with the new record, followed by the list as it was. */
  method ReloadAfterAdd(store: PestStore, now: int, isoNow: string, species: string, count: int, location: string)
    returns (reloaded: seq<Record>)
    modifies store
    ensures reloaded == [NewRecord(now, isoNow, species, count, location)] + old(store.pestData)
    ensures reloaded[0] == NewRecord(now, isoNow, species, count, location)
  {
    var rec := store.AddPestData(now, isoNow, species, count, location);
    var page := new PestStore(store.saved, store.loggedIn);
    page.LoadData();
    reloaded := page.pestData;
  }
}
