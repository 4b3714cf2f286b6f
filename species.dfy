/** Per-species totals and the top species. The source builds the totals in
    an object keyed by species inside a `forEach`; an object keeps its
    (non-numeric) keys in first-insertion order, so the model is the key
    order `SpeciesOrder` plus the sum `SpeciesSum` for each key. */
module SpeciesStats {
  import opened PestRecords
  import opened Wrappers
  import Aggregates

  /** The species of `s`, each once, in the order they first appear. */
  function SpeciesOrder(s: seq<Record>): (keys: seq<string>)
    ensures |keys| <= |s|
    ensures s != [] ==> keys != []
  {
    if s == [] then []
    else
      var keys := SpeciesOrder(s[..|s| - 1]);
      if s[|s| - 1].species in keys then keys else keys + [s[|s| - 1].species]
  }

  /** The summed count of the records of species `sp`; with non-negative
      counts it lies between 0 and the total pest count. */
  function SpeciesSum(s: seq<Record>, sp: string): (n: int)
    ensures (forall i :: 0 <= i < |s| ==> s[i].count >= 0) ==> 0 <= n <= Aggregates.TotalPests(s)
  {
    if s == [] then 0
    else SpeciesSum(s[..|s| - 1], sp) + (if s[|s| - 1].species == sp then s[|s| - 1].count else 0)
  }

  /** A species is a key exactly when some record has it. */
  lemma {:induction false} SpeciesOrderMembers(s: seq<Record>, sp: string)
    ensures sp in SpeciesOrder(s) <==> exists i :: 0 <= i < |s| && s[i].species == sp
  {
    if s != [] {
      var init := s[..|s| - 1];
      SpeciesOrderMembers(init, sp);
      if exists i :: 0 <= i < |init| && init[i].species == sp {
        var i :| 0 <= i < |init| && init[i].species == sp;
        assert s[i].species == sp;
      }
      if exists i :: 0 <= i < |s| && s[i].species == sp {
        var i :| 0 <= i < |s| && s[i].species == sp;
        if i < |init| {
          assert init[i].species == sp;
        }
      }
    }
  }

  /** A species that no record has sums to zero. */
  lemma {:induction false} SpeciesSumAbsent(s: seq<Record>, sp: string)
    requires sp !in SpeciesOrder(s)
    ensures SpeciesSum(s, sp) == 0
  {
    if s != [] {
      SpeciesSumAbsent(s[..|s| - 1], sp);
    }
  }

  predicate NoDuplicates(keys: seq<string>)
  {
    forall i, j :: 0 <= i < j < |keys| ==> keys[i] != keys[j]
  }

  /** No species is a key twice. */
  lemma {:induction false} SpeciesOrderDistinct(s: seq<Record>)
    ensures NoDuplicates(SpeciesOrder(s))
  {
    if s != [] {
      var prev := SpeciesOrder(s[..|s| - 1]);
      var last := s[|s| - 1].species;
      SpeciesOrderDistinct(s[..|s| - 1]);
      if last !in prev {
        assert forall i :: 0 <= i < |prev| ==> prev[i] != last;
      }
    }
  }

  /** Keys are in first-seen order: wherever the species of a later key
      appears, the species of an earlier key has already appeared. */
  lemma {:induction false} SpeciesOrderFirstSeen(s: seq<Record>, i: int, j: int, k: int)
    requires 0 <= i < j < |SpeciesOrder(s)|
    requires 0 <= k < |s| && s[k].species == SpeciesOrder(s)[j]
    ensures exists m :: 0 <= m < k && s[m].species == SpeciesOrder(s)[i]
  {
    var init := s[..|s| - 1];
    var prev := SpeciesOrder(init);
    var keys := SpeciesOrder(s);
    var last := s[|s| - 1].species;
    assert keys[..|prev|] == prev;
    if k < |init| {
      assert init[k].species == keys[j];
      if j < |prev| {
        SpeciesOrderFirstSeen(init, i, j, k);
        var m :| 0 <= m < k && init[m].species == prev[i];
        assert s[m].species == keys[i];
      } else {
        SpeciesOrderMembers(init, keys[j]);
        assert false;
      }
    } else if j < |prev| {
      SpeciesOrderMembers(init, keys[j]);
      var k' :| 0 <= k' < |init| && init[k'].species == keys[j];
      SpeciesOrderFirstSeen(init, i, j, k');
      var m :| 0 <= m < k' && init[m].species == prev[i];
      assert s[m].species == keys[i];
    } else {
      SpeciesOrderMembers(init, keys[i]);
      var m :| 0 <= m < |init| && init[m].species == prev[i];
      assert s[m].species == keys[i];
    }
  }

  /** The entries `[species, total]` for the given keys, in key order. */
  function EntriesFor(keys: seq<string>, s: seq<Record>): (e: seq<(string, int)>)
    ensures |e| == |keys|
    ensures forall j :: 0 <= j < |keys| ==> e[j] == (keys[j], SpeciesSum(s, keys[j]))
  {
    if keys == [] then [] else [(keys[0], SpeciesSum(s, keys[0]))] + EntriesFor(keys[1..], s)
  }

  /** `Object.entries(speciesCount)` after the `forEach`. */
  function SpeciesTotals(s: seq<Record>): (e: seq<(string, int)>)
    ensures |e| == |SpeciesOrder(s)|
    ensures forall j :: 0 <= j < |e| ==> e[j] == (SpeciesOrder(s)[j], SpeciesSum(s, SpeciesOrder(s)[j]))
    ensures s != [] ==> e != []
  {
    EntriesFor(SpeciesOrder(s), s)
  }

  function SumTotals(e: seq<(string, int)>): int
  {
    if e == [] then 0 else e[0].1 + SumTotals(e[1..])
  }

  /** The last record adds its count to the sum over distinct keys exactly
      when its species is one of them. */
  lemma {:induction false} SumTotalsStep(keys: seq<string>, s: seq<Record>)
    requires NoDuplicates(keys) && s != []
    ensures SumTotals(EntriesFor(keys, s)) ==
      SumTotals(EntriesFor(keys, s[..|s| - 1])) + (if s[|s| - 1].species in keys then s[|s| - 1].count else 0)
  {
    if keys != [] {
      assert NoDuplicates(keys[1..]);
      SumTotalsStep(keys[1..], s);
      assert s[|s| - 1].species in keys <==> s[|s| - 1].species == keys[0] || s[|s| - 1].species in keys[1..];
    }
  }

  /** Every record's species is one of the keys. */
  predicate Covers(keys: seq<string>, s: seq<Record>)
  {
    forall i :: 0 <= i < |s| ==> s[i].species in keys
  }

  /** Summing over distinct keys that cover every species gives the total. */
  lemma {:induction false} SumTotalsCovering(keys: seq<string>, s: seq<Record>)
    requires NoDuplicates(keys) && Covers(keys, s)
    ensures SumTotals(EntriesFor(keys, s)) == Aggregates.TotalPests(s)
  {
    if s == [] {
      SumTotalsOfEmpty(keys);
    } else {
      var init := s[..|s| - 1];
      assert Covers(keys, init) by {
        forall i | 0 <= i < |init| ensures init[i].species in keys {
          assert init[i] == s[i];
        }
      }
      assert s[|s| - 1].species in keys;
      SumTotalsCovering(keys, init);
      SumTotalsStep(keys, s);
    }
  }

  lemma {:induction false} SumTotalsOfEmpty(keys: seq<string>)
    ensures SumTotals(EntriesFor(keys, [])) == 0
  {
    if keys != [] {
      SumTotalsOfEmpty(keys[1..]);
    }
  }

  /** The species totals add up to the total pest count. */
  lemma SpeciesTotalsSum(s: seq<Record>)
    ensures SumTotals(SpeciesTotals(s)) == Aggregates.TotalPests(s)
  {
    SpeciesOrderDistinct(s);
    assert Covers(SpeciesOrder(s), s) by {
      forall i | 0 <= i < |s| ensures s[i].species in SpeciesOrder(s) {
        SpeciesOrderMembers(s, s[i].species);
      }
    }
    SumTotalsCovering(SpeciesOrder(s), s);
  }

  /** The step of `reduce((a, b) => a[1] > b[1] ? a : b)`: an equal total keeps `b`. */
  function Pick(a: (string, int), b: (string, int)): (p: (string, int))
    ensures p == a || p == b
    ensures p.1 >= a.1 && p.1 >= b.1
    ensures p == b <==> b.1 >= a.1
  {
    if a.1 > b.1 then a else b
  }

  /** `entries.reduce(Pick)` with no initial value, hence only on a non-empty list. */
  function ReduceTop(e: seq<(string, int)>): (top: (string, int))
    requires |e| > 0
    ensures top in e
  {
    if |e| == 1 then e[0] else Pick(ReduceTop(e[..|e| - 1]), e[|e| - 1])
  }

  /** The reduction picks an entry of maximal total, the last such entry. */
  lemma {:induction false} ReduceTopIsLastMaximum(e: seq<(string, int)>) returns (k: nat)
    requires |e| > 0
    ensures k < |e| && ReduceTop(e) == e[k]
    ensures forall j :: 0 <= j < |e| ==> e[j].1 <= e[k].1
    ensures forall j :: k < j < |e| ==> e[j].1 < e[k].1
  {
    if |e| == 1 {
      k := 0;
    } else {
      var k' := ReduceTopIsLastMaximum(e[..|e| - 1]);
      assert e[k'] == e[..|e| - 1][k'];
      if e[k'].1 > e[|e| - 1].1 {
        k := k';
        assert forall j :: 0 <= j < |e| - 1 ==> e[j] == e[..|e| - 1][j];
      } else {
        k := |e| - 1;
        assert forall j :: 0 <= j < |e| - 1 ==> e[j] == e[..|e| - 1][j];
      }
    }
  }

  /** The top pest of `updateAnalysisStats`; `None` where the source's
      `reduce` of an empty entry list throws. */
  function TopPest(s: seq<Record>): (top: Option<string>)
    ensures top.None? <==> s == []
    ensures top.Some? ==> top.value in SpeciesOrder(s)
  {
    if s == [] then None else Some(ReduceTop(SpeciesTotals(s)).0)
  }

  /** For a non-empty list the top pest is a species of maximal total, and
      every species first seen after it has a strictly smaller total. */
  lemma TopPestIsLastMaximum(s: seq<Record>) returns (k: nat)
    requires s != []
    ensures var keys := SpeciesOrder(s);
      k < |keys| && TopPest(s) == Some(keys[k]) &&
      (forall j :: 0 <= j < |keys| ==> SpeciesSum(s, keys[j]) <= SpeciesSum(s, keys[k])) &&
      (forall j :: k < j < |keys| ==> SpeciesSum(s, keys[j]) < SpeciesSum(s, keys[k]))
  {
    k := ReduceTopIsLastMaximum(SpeciesTotals(s));
  }

  /** The `forEach` that fills `speciesCount`: returns the object's key order
      and its key-to-total map. */
  method CountBySpecies(data: seq<Record>) returns (keys: seq<string>, totals: map<string, int>)
    ensures keys == SpeciesOrder(data)
    ensures forall sp :: sp in totals <==> sp in keys
    ensures forall sp :: sp in totals ==> totals[sp] == SpeciesSum(data, sp)
  {
    keys, totals := [], map[];
    var i := 0;
    while i < |data|
      invariant 0 <= i <= |data|
      invariant keys == SpeciesOrder(data[..i])
      invariant forall sp :: sp in totals <==> sp in keys
      invariant forall sp :: sp in totals ==> totals[sp] == SpeciesSum(data[..i], sp)
    {
      var item := data[i];
      assert data[..i + 1][..i] == data[..i] && data[..i + 1][i] == item;
      var prior := if item.species in totals then totals[item.species] else 0;
      if item.species !in totals {
        SpeciesSumAbsent(data[..i], item.species);
        keys := keys + [item.species];
      }
      totals := totals[item.species := prior + item.count];
      i := i + 1;
    }
    assert data[..i] == data;
  }
}
