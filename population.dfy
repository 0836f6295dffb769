/** The population registry: `generate_pop_dict` turns the census table of
    state population estimates into a dictionary keyed by postal code. */
module Population {
  import opened Wrappers

  /** One row of the census table: the numeric state id (`STATE`) and the
      2019 population estimate (`POPESTIMATE2019`). */
  datatype CensusRecord = CensusRecord(state: int, population: int)

  /** The KeyError raised for a state id missing from the code table. */
  datatype PopError = UnknownRegionIdentifier(state: int)

  /** Rows with this id are the national and regional totals. */
  const AggregateState := 0

  /** The fixed table from census state ids to postal codes; None for an id
      the table lacks. */
  function StateCode(id: int): Option<string> {
    match id
    case 1 => Some("AL")
    case 2 => Some("AK")
    case 4 => Some("AZ")
    case 5 => Some("AR")
    case 6 => Some("CA")
    case 8 => Some("CO")
    case 9 => Some("CT")
    case 10 => Some("DE")
    case 11 => Some("DC")
    case 12 => Some("FL")
    case 13 => Some("GA")
    case 15 => Some("HI")
    case 16 => Some("ID")
    case 17 => Some("IL")
    case 18 => Some("IN")
    case 19 => Some("IA")
    case 20 => Some("KS")
    case 21 => Some("KY")
    case 22 => Some("LA")
    case 23 => Some("ME")
    case 24 => Some("MD")
    case 25 => Some("MA")
    case 26 => Some("MI")
    case 27 => Some("MN")
    case 28 => Some("MS")
    case 29 => Some("MO")
    case 30 => Some("MT")
    case 31 => Some("NE")
    case 32 => Some("NV")
    case 33 => Some("NH")
    case 34 => Some("NJ")
    case 35 => Some("NM")
    case 36 => Some("NY")
    case 37 => Some("NC")
    case 38 => Some("ND")
    case 39 => Some("OH")
    case 40 => Some("OK")
    case 41 => Some("OR")
    case 42 => Some("PA")
    case 44 => Some("RI")
    case 45 => Some("SC")
    case 46 => Some("SD")
    case 47 => Some("TN")
    case 48 => Some("TX")
    case 49 => Some("UT")
    case 50 => Some("VT")
    case 51 => Some("VA")
    case 53 => Some("WA")
    case 54 => Some("WV")
    case 55 => Some("WI")
    case 56 => Some("WY")
    case 72 => Some("PR")
    case _ => None
  }

  /** A Python dictionary from postal code to population: the keys in
      insertion order and the key-value mapping. */
  datatype PopDict = PopDict(codes: seq<string>, pop: map<string, int>) {

    /** The keys are listed once each, and exactly the mapped keys are listed. */
    predicate WellFormed() {
      && (forall i, j :: 0 <= i < j < |codes| ==> codes[i] != codes[j])
      && (forall k :: k in pop ==> k in codes)
      && (forall i :: 0 <= i < |codes| ==> codes[i] in pop)
    }

    /** `d[k] = v`: a new key goes to the end; an existing key keeps its place
        and takes the new value. */
    function Insert(k: string, v: int): (d: PopDict)
      requires WellFormed()
      ensures d.WellFormed()
      ensures d.pop == pop[k := v]
      ensures d.codes == if k in pop then codes else codes + [k]
    {
      if k in pop then PopDict(codes, pop[k := v]) else PopDict(codes + [k], pop[k := v])
    }
  }

  /** A row the code table can key: an aggregate row or a known state id. */
  predicate Keyable(r: CensusRecord) {
    r.state == AggregateState || StateCode(r.state).Some?
  }

  /** A row that becomes a registry entry. */
  predicate IsStateRow(r: CensusRecord) {
    r.state != AggregateState && StateCode(r.state).Some?
  }

  /** The position of the first row whose id the code table lacks. */
  function FirstUnknown(records: seq<CensusRecord>): (r: Option<nat>)
    ensures r.None? <==> forall i :: 0 <= i < |records| ==> Keyable(records[i])
    ensures r.Some? ==> (r.value < |records| && !Keyable(records[r.value])
                         && forall j :: 0 <= j < r.value ==> Keyable(records[j]))
  {
    if records == [] then None
    else if !Keyable(records[0]) then Some(0)
    else match FirstUnknown(records[1..])
      case None => None
      case Some(i) => Some(i + 1)
  }

  /** Some state row is keyed by `code`. */
  ghost predicate HasStateRow(records: seq<CensusRecord>, code: string) {
    exists i :: 0 <= i < |records| && IsStateRow(records[i]) && StateCode(records[i].state).value == code
  }

  /** Record i is the last state row that is keyed by `code`. */
  ghost predicate LastFor(records: seq<CensusRecord>, i: int, code: string) {
    && 0 <= i < |records|
    && IsStateRow(records[i]) && StateCode(records[i].state).value == code
    && forall j :: i < j < |records| && IsStateRow(records[j]) ==> StateCode(records[j].state).value != code
  }

  /** The last state row keyed by `code` carries population `v`. */
  ghost predicate LastPopulation(records: seq<CensusRecord>, code: string, v: int) {
    exists i :: LastFor(records, i, code) && records[i].population == v
  }

  /** `Series.to_dict()` over the non-aggregate rows, re-keyed by postal code:
      every state row is inserted in order, so a later row for the same code
      overwrites an earlier one. */
  function BuildPopDict(records: seq<CensusRecord>): (d: PopDict)
    ensures d.WellFormed()
  {
    if records == [] then PopDict([], map[])
    else
      var n := |records| - 1;
      var prev := BuildPopDict(records[..n]);
      var r := records[n];
      if IsStateRow(r) then prev.Insert(StateCode(r.state).value, r.population) else prev
  }

  /** One code of the built dictionary: present exactly when some state row
      has it, and then holding the population of the last such row. */
  lemma {:induction false} BuildPopDictAt(records: seq<CensusRecord>, code: string)
    ensures code in BuildPopDict(records).pop <==> HasStateRow(records, code)
    ensures code in BuildPopDict(records).pop ==> LastPopulation(records, code, BuildPopDict(records).pop[code])
  {
    if records != [] {
      var n := |records| - 1;
      BuildPopDictAt(records[..n], code);
      var r := records[n];
      if IsStateRow(r) && StateCode(r.state).value == code {
        assert LastFor(records, n, code);
      } else {
        BuildPopDictKeeps(records, code);
      }
    }
  }

  /** A last row that does not carry `code` changes nothing about it. */
  lemma BuildPopDictKeeps(records: seq<CensusRecord>, code: string)
    requires records != []
    requires !(IsStateRow(records[|records| - 1]) && StateCode(records[|records| - 1].state).value == code)
    requires var pre := records[..|records| - 1];
      && (code in BuildPopDict(pre).pop <==> HasStateRow(pre, code))
      && (code in BuildPopDict(pre).pop ==> LastPopulation(pre, code, BuildPopDict(pre).pop[code]))
    ensures code in BuildPopDict(records).pop <==> HasStateRow(records, code)
    ensures code in BuildPopDict(records).pop ==> LastPopulation(records, code, BuildPopDict(records).pop[code])
  {
    var n := |records| - 1;
    var pre := records[..n];
    var d := BuildPopDict(pre);
    assert code in BuildPopDict(records).pop <==> code in d.pop;
    assert code in d.pop ==> BuildPopDict(records).pop[code] == d.pop[code];
    assert HasStateRow(pre, code) ==> LastPopulation(records, code, d.pop[code]) by {
      if HasStateRow(pre, code) {
        var i :| LastFor(pre, i, code) && pre[i].population == d.pop[code];
        assert LastFor(records, i, code);
      }
    }
    assert HasStateRow(records, code) ==> HasStateRow(pre, code) by {
      if HasStateRow(records, code) {
        var i :| 0 <= i < |records| && IsStateRow(records[i]) && StateCode(records[i].state).value == code;
        assert pre[i] == records[i];
      }
    }
  }

  /** `generate_pop_dict`: drop the aggregate rows, re-key by postal code
      (raising on an id the table lacks), and collect the populations. */
  function GeneratePopDict(records: seq<CensusRecord>): (r: Result<PopDict, PopError>)
    ensures r.Failure? <==> exists i :: 0 <= i < |records| && !Keyable(records[i])
    ensures r.Failure? ==> exists i :: (0 <= i < |records| && !Keyable(records[i])
                                        && r.error == UnknownRegionIdentifier(records[i].state)
                                        && forall j :: 0 <= j < i ==> Keyable(records[j]))
    ensures r.Success? ==> r.value.WellFormed()
    ensures r.Success? ==> forall k :: k in r.value.pop <==> HasStateRow(records, k)
    ensures r.Success? ==> forall k :: k in r.value.pop ==> LastPopulation(records, k, r.value.pop[k])
  {
    match FirstUnknown(records)
    case Some(i) => Failure(UnknownRegionIdentifier(records[i].state))
    case None =>
      var d := BuildPopDict(records);
      assert forall k :: (k in d.pop <==> HasStateRow(records, k)) && (k in d.pop ==> LastPopulation(records, k, d.pop[k])) by {
        forall k ensures (k in d.pop <==> HasStateRow(records, k)) && (k in d.pop ==> LastPopulation(records, k, d.pop[k])) {
          BuildPopDictAt(records, k);
        }
      }
      Success(d)
  }

  /** An aggregate row never becomes an entry, whatever it holds. */
  lemma AggregateRowsExcluded(records: seq<CensusRecord>, total: int)
    ensures GeneratePopDict(records + [CensusRecord(AggregateState, total)]) == GeneratePopDict(records)
  {
    var more := records + [CensusRecord(AggregateState, total)];
    assert more[..|records|] == records;
    assert forall k :: 0 <= k < |records| ==> more[k] == records[k];
    if FirstUnknown(records).Some? {
      var i := FirstUnknown(records).value;
      assert !Keyable(more[i]);
      var j := FirstUnknown(more).value;
      assert j <= i;
    } else {
      assert FirstUnknown(more).None?;
    }
  }

  /** The census row (6, 39512223) becomes the entry CA: 39512223, and the
      national total beside it is dropped. */
  lemma CaliforniaExample()
    ensures GeneratePopDict([CensusRecord(0, 328239523), CensusRecord(6, 39512223)])
      == Success(PopDict(["CA"], map["CA" := 39512223]))
  {
    var records := [CensusRecord(0, 328239523), CensusRecord(6, 39512223)];
    assert StateCode(6) == Some("CA");
    assert records[1..][1..] == [];
    assert FirstUnknown(records[1..]) == None;
    assert FirstUnknown(records) == None;
    assert records[..1] == [CensusRecord(0, 328239523)];
    assert records[..1][..0] == [];
    assert BuildPopDict(records[..1]) == PopDict([], map[]);
    assert BuildPopDict(records) == PopDict(["CA"], map["CA" := 39512223]);
  }
}
