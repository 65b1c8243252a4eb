/**
 * The Singapore carpark tools (`functions/singapore.py`): the carpark search over the HDB carpark
 * dataset and the real-time availability snapshot, from the decoded API answer to the result dict.
 * The decoded answer is a parameter (None when the request or the decoding raises); a value whose
 * shape makes a `.get`, an index or a loop raise ends in the tool's generic failure.
 */
module Carparks {
  import opened Options
  import opened Dicts
  import opened Seqs
  import opened JsonValues

  /** The most results the search asks the dataset for. */
  const SearchCap := 100

  /** `min(limit, 100)`, the limit sent with the search request. */
  function RequestLimit(limit: int): (r: int)
    ensures r <= SearchCap
    ensures r == limit || r == SearchCap
    ensures limit <= SearchCap ==> r == limit
  {
    if limit < SearchCap then limit else SearchCap
  }

  /** One search hit: the carpark number and address, '' when absent. */
  datatype Carpark = Carpark(number: Json, address: Json)

  function CarparkOf(record: Json): (r: Option<Carpark>)
    ensures r.Some? <==> record.JObj?
  {
    if record.JObj? then
      Some(Carpark(Field(record.fields, "car_park_no", JStr("")), Field(record.fields, "address", JStr(""))))
    else None
  }

  datatype SearchOutcome =
    | SearchError(details: Json)
    | SearchFound(total: Json, showing: nat, carparks: seq<Carpark>)
    | SearchFailed

  /** The `result` object of a successful answer, when it is a dict. */
  function SearchResult(data: Dict<Json>): Json {
    Field(data, "result", JObj([]))
  }

  /**
   * `search_singapore_carparks`: `search(query, n)` is the decoded answer of the dataset for the
   * query with limit `n`.
   */
  function Search(query: string, limit: int, search: (string, int) -> Option<Json>): SearchOutcome
  {
    match search(query, RequestLimit(limit))
    case None => SearchFailed
    case Some(data) =>
      if !data.JObj? then SearchFailed
      else if !Truthy(Field(data.fields, "success", JNull)) then SearchError(Field(data.fields, "error", JObj([])))
      else
        var result := SearchResult(data.fields);
        if !result.JObj? then SearchFailed
        else
          match Iter(Field(result.fields, "records", JArr([])))
          case None => SearchFailed
          case Some(records) =>
            match MapAll(CarparkOf, records)
            case None => SearchFailed
            case Some(cps) => SearchFound(Field(result.fields, "total", JNum(0)), |cps|, cps)
  }

  /** The `carparks` loop of the search: one hit per record, in order. */
  method CollectCarparks(records: seq<Json>) returns (r: Option<seq<Carpark>>)
    ensures r == MapAll(CarparkOf, records)
  {
    var carparks := [];
    var i := 0;
    while i < |records|
      invariant 0 <= i <= |records|
      invariant MapAll(CarparkOf, records[..i]) == Some(carparks)
    {
      assert records[..i + 1][..i] == records[..i];
      if !records[i].JObj? {
        assert MapAll(CarparkOf, records[..i + 1]) == None;
        MapAllStops(CarparkOf, records, i + 1);
        return None;
      }
      var fields := records[i].fields;
      carparks := carparks + [Carpark(Field(fields, "car_park_no", JStr("")), Field(fields, "address", JStr("")))];
      i := i + 1;
    }
    assert records[..i] == records;
    r := Some(carparks);
  }

  method SearchCarparks(query: string, limit: int, search: (string, int) -> Option<Json>) returns (r: SearchOutcome)
    ensures r == Search(query, limit, search)
  {
    var reply := search(query, if limit < SearchCap then limit else SearchCap);
    if reply.None? || !reply.value.JObj? {
      return SearchFailed;
    }
    var data := reply.value.fields;
    if !Truthy(Field(data, "success", JNull)) {
      return SearchError(Field(data, "error", JObj([])));
    }
    var result := Field(data, "result", JObj([]));
    if !result.JObj? {
      return SearchFailed;
    }
    var records := Iter(Field(result.fields, "records", JArr([])));
    if records.None? {
      return SearchFailed;
    }
    var carparks := CollectCarparks(records.value);
    if carparks.None? {
      return SearchFailed;
    }
    r := SearchFound(Field(result.fields, "total", JNum(0)), |carparks.value|, carparks.value);
  }

  /**
   * A search answer is reported only when it says it succeeded; `showing` is the number of records
   * returned, and each hit is read from the record at the same position.
   */
  lemma SearchFoundSpec(query: string, limit: int, search: (string, int) -> Option<Json>)
    requires Search(query, limit, search).SearchFound?
    ensures var data := search(query, RequestLimit(limit));
      && data.Some? && data.value.JObj? && Truthy(Field(data.value.fields, "success", JNull))
      && var r := Search(query, limit, search);
      var records := Iter(Field(SearchResult(data.value.fields).fields, "records", JArr([]))).value;
      && r.showing == |r.carparks| == |records|
      && r.total == Field(SearchResult(data.value.fields).fields, "total", JNum(0))
      && forall i :: 0 <= i < |records| ==>
           records[i].JObj? && r.carparks[i] == Carpark(Field(records[i].fields, "car_park_no", JStr("")),
                                                        Field(records[i].fields, "address", JStr("")))
  {
  }

  /** An answer that does not report success gives the error with the answer's details. */
  lemma SearchUnsuccessful(query: string, limit: int, search: (string, int) -> Option<Json>)
    requires search(query, RequestLimit(limit)).Some? && search(query, RequestLimit(limit)).value.JObj?
    requires !Truthy(Field(search(query, RequestLimit(limit)).value.fields, "success", JNull))
    ensures Search(query, limit, search) == SearchError(Field(search(query, RequestLimit(limit)).value.fields, "error", JObj([])))
  {
  }

  /** One parking-lot entry of a carpark: type, total and available lots, '' when absent. */
  datatype Lot = Lot(lotType: Json, totalLots: Json, lotsAvailable: Json)

  /** One carpark of the availability answer. */
  datatype CarparkStatus = CarparkStatus(number: Json, updated: Json, lots: seq<Lot>)

  datatype AvailabilityOutcome =
    | NoData
    | NotFound(number: string, timestamp: Json)
    | Snapshot(timestamp: Json, totalResults: nat, showing: nat, carparks: seq<CarparkStatus>)
    | AvailabilityFailed

  function LotOf(info: Json): (r: Option<Lot>)
    ensures r.Some? <==> info.JObj?
  {
    if info.JObj? then
      Some(Lot(Field(info.fields, "lot_type", JStr("")), Field(info.fields, "total_lots", JStr("")),
               Field(info.fields, "lots_available", JStr(""))))
    else None
  }

  /** The entries the lot loop visits: `cp.get('carpark_info', [])`. */
  function LotInfos(cp: Dict<Json>): Option<seq<Json>> {
    Iter(Field(cp, "carpark_info", JArr([])))
  }

  function StatusOf(cp: Json): Option<CarparkStatus>
  {
    if !cp.JObj? then None
    else
      match LotInfos(cp.fields)
      case None => None
      case Some(infos) =>
        match MapAll(LotOf, infos)
        case None => None
        case Some(lots) =>
          Some(CarparkStatus(Field(cp.fields, "carpark_number", JStr("")), Field(cp.fields, "update_datetime", JStr("")), lots))
  }

  /** A filter to apply: a carpark number that is given and not empty. */
  predicate HasNumber(number: Option<string>) {
    number.Some? && number.value != ""
  }

  function Selected(number: string, cp: Json): seq<Json> {
    if cp.JObj? && Get(cp.fields, "carpark_number") == Some(JStr(number)) then [cp] else []
  }

  /** The comprehension keeping the carparks with the number, in order; None when an entry is not a dict. */
  function SelectNumber(number: string, cps: seq<Json>): Option<seq<Json>>
  {
    if forall i :: 0 <= i < |cps| ==> cps[i].JObj? then Some(FlatMap(cp => Selected(number, cp), cps)) else None
  }

  /** The result built from the carparks kept: at most `limit` of them, counted before truncation. */
  function Report(timestamp: Json, limit: int, cps: seq<Json>): AvailabilityOutcome
  {
    match MapAll(StatusOf, PySliceTo(cps, limit))
    case None => AvailabilityFailed
    case Some(statuses) => Snapshot(timestamp, |cps|, |statuses|, statuses)
  }

  /** The processing of the latest item's `timestamp` and `carpark_data`. */
  function FromLatest(number: Option<string>, limit: int, timestamp: Json, carparkData: Json): AvailabilityOutcome
  {
    if HasNumber(number) then
      match Iter(carparkData)
      case None => AvailabilityFailed
      case Some(all) =>
        match SelectNumber(number.value, all)
        case None => AvailabilityFailed
        case Some(kept) => if |kept| == 0 then NotFound(number.value, timestamp) else Report(timestamp, limit, kept)
    else
      match Sliceable(carparkData)
      case None => AvailabilityFailed
      case Some(all) => Report(timestamp, limit, all)
  }

  /** `get_singapore_carpark_availability`, with `reply` the decoded answer of the availability API. */
  function Availability(number: Option<string>, limit: int, reply: Option<Json>): AvailabilityOutcome
  {
    if reply.None? || !reply.value.JObj? then AvailabilityFailed
    else
      var items := Field(reply.value.fields, "items", JArr([]));
      if !Truthy(items) then NoData
      else if !items.JArr? || !items.items[0].JObj? then AvailabilityFailed
      else
        var latest := items.items[0].fields;
        FromLatest(number, limit, Field(latest, "timestamp", JStr("")), Field(latest, "carpark_data", JArr([])))
  }

  /** The `lots` loop of one carpark. */
  method CollectLots(infos: seq<Json>) returns (r: Option<seq<Lot>>)
    ensures r == MapAll(LotOf, infos)
  {
    var lots := [];
    var i := 0;
    while i < |infos|
      invariant 0 <= i <= |infos|
      invariant MapAll(LotOf, infos[..i]) == Some(lots)
    {
      assert infos[..i + 1][..i] == infos[..i];
      if !infos[i].JObj? {
        assert MapAll(LotOf, infos[..i + 1]) == None;
        MapAllStops(LotOf, infos, i + 1);
        return None;
      }
      var info := infos[i].fields;
      lots := lots + [Lot(Field(info, "lot_type", JStr("")), Field(info, "total_lots", JStr("")),
                          Field(info, "lots_available", JStr("")))];
      i := i + 1;
    }
    assert infos[..i] == infos;
    r := Some(lots);
  }

  /** The `carparks` loop over the truncated carpark data. */
  method CollectStatuses(cps: seq<Json>) returns (r: Option<seq<CarparkStatus>>)
    ensures r == MapAll(StatusOf, cps)
  {
    var carparks := [];
    var i := 0;
    while i < |cps|
      invariant 0 <= i <= |cps|
      invariant MapAll(StatusOf, cps[..i]) == Some(carparks)
    {
      assert cps[..i + 1][..i] == cps[..i];
      var status: Option<CarparkStatus> := None;
      if cps[i].JObj? {
        var infos := LotInfos(cps[i].fields);
        if infos.Some? {
          var lots := CollectLots(infos.value);
          if lots.Some? {
            status := Some(CarparkStatus(Field(cps[i].fields, "carpark_number", JStr("")),
                                         Field(cps[i].fields, "update_datetime", JStr("")), lots.value));
          }
        }
      }
      assert status == StatusOf(cps[i]);
      if status.None? {
        assert MapAll(StatusOf, cps[..i + 1]) == None;
        MapAllStops(StatusOf, cps, i + 1);
        return None;
      }
      carparks := carparks + [status.value];
      i := i + 1;
    }
    assert cps[..i] == cps;
    r := Some(carparks);
  }

  method CarparkAvailability(number: Option<string>, limit: int, reply: Option<Json>) returns (r: AvailabilityOutcome)
    ensures r == Availability(number, limit, reply)
  {
    if reply.None? || !reply.value.JObj? {
      return AvailabilityFailed;
    }
    var items := Field(reply.value.fields, "items", JArr([]));
    if !Truthy(items) {
      return NoData;
    }
    if !items.JArr? || !items.items[0].JObj? {
      return AvailabilityFailed;
    }
    var latest := items.items[0].fields;
    var timestamp := Field(latest, "timestamp", JStr(""));
    var carparkData := Field(latest, "carpark_data", JArr([]));
    var kept: seq<Json>;
    if number.Some? && number.value != "" {
      var all := Iter(carparkData);
      if all.None? {
        return AvailabilityFailed;
      }
      var selection := SelectNumber(number.value, all.value);
      if selection.None? {
        return AvailabilityFailed;
      }
      if |selection.value| == 0 {
        return NotFound(number.value, timestamp);
      }
      kept := selection.value;
    } else {
      var all := Sliceable(carparkData);
      if all.None? {
        return AvailabilityFailed;
      }
      kept := all.value;
    }
    var statuses := CollectStatuses(PySliceTo(kept, limit));
    if statuses.None? {
      return AvailabilityFailed;
    }
    r := Snapshot(timestamp, |kept|, |statuses.value|, statuses.value);
  }

  /** No item in the answer gives the no-data error. */
  lemma NoItemsNoData(number: Option<string>, limit: int, data: Dict<Json>)
    requires !Truthy(Field(data, "items", JArr([])))
    ensures Availability(number, limit, Some(JObj(data))) == NoData
  {
  }

  /** Only the first item is read: dropping the others changes nothing. */
  lemma OnlyFirstItem(number: Option<string>, limit: int, data: Dict<Json>, first: Json, rest: seq<Json>)
    requires Get(data, "items") == Some(JArr([first] + rest))
    ensures Availability(number, limit, Some(JObj(data)))
      == Availability(number, limit, Some(JObj(Put(data, "items", JArr([first])))))
  {
  }

  /** The selection keeps exactly the carparks carrying the number, in order. */
  lemma SelectedCarry(number: string, cps: seq<Json>, cp: Json)
    requires SelectNumber(number, cps).Some?
    ensures cp in SelectNumber(number, cps).value <==> cp in cps && Get(cp.fields, "carpark_number") == Some(JStr(number))
  {
    var f := c => Selected(number, c);
    if cp in FlatMap(f, cps) {
      FlatMapMember(f, cps, cp);
    }
    if cp in cps && Get(cp.fields, "carpark_number") == Some(JStr(number)) {
      var i :| 0 <= i < |cps| && cps[i] == cp;
      FlatMapSnoc(f, cps, i);
      FlatMapAppend(f, cps[..i + 1], cps[i + 1..]);
      assert cps == cps[..i + 1] + cps[i + 1..];
    }
  }

  /** The truncation keeps the first `limit` carparks, or all when there are fewer. */
  lemma SliceLength<T>(xs: seq<T>, limit: int)
    requires limit >= 0
    ensures |PySliceTo(xs, limit)| == if limit < |xs| then limit else |xs|
    ensures PySliceTo(xs, limit) == xs[..|PySliceTo(xs, limit)|]
  {
  }

  /**
   * For a non-negative limit, `showing` is `min(limit, total_results)`, `total_results` counts the
   * carparks kept, and the carparks shown are the first ones, in order.
   */
  lemma ReportSpec(timestamp: Json, limit: int, cps: seq<Json>)
    requires limit >= 0 && Report(timestamp, limit, cps).Snapshot?
    ensures var r := Report(timestamp, limit, cps);
      && r.timestamp == timestamp
      && r.totalResults == |cps|
      && r.showing == |r.carparks| == (if limit < |cps| then limit else |cps|)
      && forall i :: 0 <= i < r.showing ==> StatusOf(cps[i]) == Some(r.carparks[i])
  {
    SliceLength(cps, limit);
  }

  /** With a carpark number, every carpark reported has that number; none matching gives the not-found error with the timestamp. */
  lemma {:induction false} NumberFilterSpec(number: string, limit: int, timestamp: Json, carparkData: Json)
    requires number != "" && Iter(carparkData).Some? && SelectNumber(number, Iter(carparkData).value).Some?
    ensures var r := FromLatest(Some(number), limit, timestamp, carparkData);
      && (r.NotFound? <==> |SelectNumber(number, Iter(carparkData).value).value| == 0)
      && (r.NotFound? ==> r.timestamp == timestamp && r.number == number)
      && (r.Snapshot? ==> forall c :: c in r.carparks ==> c.number == JStr(number))
  {
    var all := Iter(carparkData).value;
    var kept := SelectNumber(number, all).value;
    var r := FromLatest(Some(number), limit, timestamp, carparkData);
    if |kept| > 0 {
      assert r == Report(timestamp, limit, kept);
      var shown := PySliceTo(kept, limit);
      PySlicePrefix(kept, limit);
      var statuses := MapAll(StatusOf, shown);
      if statuses.Some? {
        forall c | c in statuses.value ensures c.number == JStr(number) {
          var i :| 0 <= i < |statuses.value| && statuses.value[i] == c;
          assert StatusOf(shown[i]) == Some(c);
          assert shown[i] == kept[i];
          SelectedCarry(number, all, kept[i]);
        }
      }
    }
  }

  /** A carpark's `lots` mirror its `carpark_info` entries one for one, in order, with '' for what is missing. */
  lemma LotsMirror(cp: Json)
    requires StatusOf(cp).Some?
    ensures cp.JObj? && LotInfos(cp.fields).Some?
    ensures var infos := LotInfos(cp.fields).value;
      var lots := StatusOf(cp).value.lots;
      && |lots| == |infos|
      && forall i :: 0 <= i < |infos| ==>
           infos[i].JObj?
           && lots[i] == Lot(Field(infos[i].fields, "lot_type", JStr("")), Field(infos[i].fields, "total_lots", JStr("")),
                             Field(infos[i].fields, "lots_available", JStr("")))
  {
  }
}
