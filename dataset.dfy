/**
 * Dataset assembly of the vote scraper (`build_dataset`): the discovered identifiers, each turned
 * into its record, under a metadata header.
 */
module Dataset {
  import opened Options
  import opened Seqs
  import opened Dicts
  import opened JsonValues
  import opened Discovery
  import opened Brochure
  import opened VoteDetail

  /** The key under which the scraper lists the records. */
  const InitiativesKey := "federal_initiatives"
  /** The file the scraper writes. */
  const ExtractorOutputFile := "current_initiatives.json"
  /** The file the voting tools read. */
  const ToolDataFile := "current_votes.json"
  const DataVersion := "1.0"
  const Sources: seq<string> := [Base, "https://www.admin.ch"]

  datatype Metadata = Metadata(lastUpdated: string, dataVersion: string, sources: seq<string>)

  /** The dataset: the header and one record per identifier (the usage metrics are always empty). */
  datatype VoteDataset = VoteDataset(metadata: Metadata, initiatives: seq<Dict<Json>>)

  /** The dataset as the JSON object that is written out. */
  function ToJson(ds: VoteDataset): (r: Json)
    ensures r.JObj? && Keys(r.fields) == ["metadata", InitiativesKey, "usage_metrics"]
  {
    var meta: Dict<Json> := [
      ("last_updated", JStr(ds.metadata.lastUpdated)),
      ("data_version", JStr(ds.metadata.dataVersion)),
      ("sources", StrArray(ds.metadata.sources))];
    var records := seq(|ds.initiatives|, i requires 0 <= i < |ds.initiatives| => JObj(ds.initiatives[i]));
    var top: Dict<Json> := [("metadata", JObj(meta)), (InitiativesKey, JArr(records)), ("usage_metrics", JObj([]))];
    JObj(top)
  }

  /**
   * The records of `ids`, in order, one per identifier; None as soon as one detail request raises,
   * which ends the scraper.
   */
  function Records(ids: seq<string>, fetchDetail: string -> Option<DetailPage>, fetchPdf: string -> PdfDownload)
    : (r: Option<seq<Dict<Json>>>)
    ensures r.Some? <==> forall i :: 0 <= i < |ids| ==> VotePage(ids[i], fetchDetail(ids[i]), fetchPdf).Some?
    ensures r.Some? ==> |r.value| == |ids|
    ensures r.Some? ==> forall i :: 0 <= i < |ids| ==> r.value[i] == VotePage(ids[i], fetchDetail(ids[i]), fetchPdf).value
  {
    MapAll(id => VotePage(id, fetchDetail(id), fetchPdf), ids)
  }

  /** What the scraper writes; None when the listing or a detail request fails. */
  function Build(listing: Option<ListingPage>, today: Date, parseDate: string -> Option<Date>,
                 fetchDetail: string -> Option<DetailPage>, fetchPdf: string -> PdfDownload,
                 timestamp: string): Option<VoteDataset>
  {
    match Discover(listing, today, parseDate)
    case None => None
    case Some(ids) =>
      match Records(ids, fetchDetail, fetchPdf)
      case None => None
      case Some(recs) => Some(VoteDataset(Metadata(timestamp, DataVersion, Sources), recs))
  }

  /**
   * `build_dataset`: discovery, then one detail request per identifier, each record appended in
   * order. `fetchDetail` answers the request for a detail page (None when it raises), `timestamp`
   * is the formatted current UTC time.
   */
  method BuildDataset(listing: Option<ListingPage>, today: Date, parseDate: string -> Option<Date>,
                      fetchDetail: string -> Option<DetailPage>, fetchPdf: string -> PdfDownload,
                      timestamp: string)
    returns (ds: Option<VoteDataset>)
    ensures ds == Build(listing, today, parseDate, fetchDetail, fetchPdf, timestamp)
  {
    var vids := DiscoverUpcoming(listing, today, parseDate);
    if vids.None? {
      return None;
    }
    var ids := vids.value;
    var initiatives: seq<Dict<Json>> := [];
    var i := 0;
    while i < |ids|
      invariant 0 <= i <= |ids|
      invariant Records(ids[..i], fetchDetail, fetchPdf) == Some(initiatives)
    {
      assert ids[..i + 1][..i] == ids[..i];
      var base := ParseVotePage(ids[i], fetchDetail(ids[i]), fetchPdf);
      if base.None? {
        MapAllStops(id => VotePage(id, fetchDetail(id), fetchPdf), ids, i + 1);
        return None;
      }
      initiatives := initiatives + [base.value];
      i := i + 1;
    }
    assert ids[..i] == ids;
    return Some(VoteDataset(Metadata(timestamp, DataVersion, Sources), initiatives));
  }

  /**
   * A written dataset lists one record per discovered identifier, in discovery order, each the
   * record of that identifier's page, with no identifier twice.
   */
  lemma DatasetFollowsDiscovery(listing: Option<ListingPage>, today: Date, parseDate: string -> Option<Date>,
                                fetchDetail: string -> Option<DetailPage>, fetchPdf: string -> PdfDownload,
                                timestamp: string)
    requires Build(listing, today, parseDate, fetchDetail, fetchPdf, timestamp).Some?
    ensures var ids := Discover(listing, today, parseDate).value;
      var ds := Build(listing, today, parseDate, fetchDetail, fetchPdf, timestamp).value;
      && NoDuplicates(ids)
      && |ds.initiatives| == |ids|
      && (forall i :: 0 <= i < |ids| ==> ds.initiatives[i] == VotePage(ids[i], fetchDetail(ids[i]), fetchPdf).value)
      && ds.metadata == Metadata(timestamp, "1.0", ["https://swissvotes.ch", "https://www.admin.ch"])
  {
    DedupSpec(Candidates(listing.value.rows, today, parseDate));
  }

  /** The scraper lists its records under a key the validator does not read, in a file the tools do not load. */
  lemma OutputNotWhereReadersLook(ds: VoteDataset)
    ensures Get(ToJson(ds).fields, "federal_votes").None?
    ensures ExtractorOutputFile != ToolDataFile
  {
  }
}
