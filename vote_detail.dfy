/**
 * The detail-page parser of the vote scraper (`parse_vote_page`): label/value rows of the page's
 * tables are mapped onto record keys through a fixed label table, the page heading becomes
 * `title_de`, and the brochure texts are attached when the record names a brochure.
 */
module VoteDetail {
  import opened Options
  import opened Text
  import opened Dicts
  import opened Seqs
  import opened JsonValues
  import opened Parolen
  import opened Brochure

  const Base := "https://swissvotes.ch"

  datatype Tag = Th | Td

  /**
   * One direct `<th>`/`<td>` child of a row: its tag and attribute names, its text joined with
   * spaces and stripped, its raw text, the `href` of its first link that has one, the texts of its
   * `<span>`s, its recommendation lists and its text joined with newlines (the last two are what the
   * party-recommendation parser reads).
   */
  datatype Cell = Cell(
    tag: Tag,
    attrs: set<string>,
    text: string,
    rawText: string,
    link: Option<string>,
    spans: seq<string>,
    dls: seq<seq<DlItem>>,
    lineText: string)

  /** The detail page as answered: status, the rows of each `<table>`, and the text of the first `<h1>`. */
  datatype DetailPage = DetailPage(status: int, tables: seq<seq<seq<Cell>>>, heading: Option<string>)

  /**
   * How a label's value is taken from its value cell: the text; the link's `href` when there is one;
   * the span texts joined by "; " when there are spans; or the party recommendations.
   */
  datatype Kind = Plain | Link | Spans | Parolen

  /** The labels the parser knows, each with the record key it fills and how. */
  const LabelTable: seq<(string, string, Kind)> := [
    ("Offizieller Titel", "offizieller_titel", Plain),
    ("Schlagwort", "schlagwort", Plain),
    ("Abstimmungsdatum", "abstimmungsdatum", Plain),
    ("Abstimmungsnummer", "abstimmungsnummer", Plain),
    ("Rechtsform", "rechtsform", Plain),
    ("Politikbereich", "politikbereich", Spans),
    ("Beschreibung Ann\U{00E9}e Politique Suisse", "beschreibung_annee_politique_suisse_url", Link),
    ("Abstimmungstext", "abstimmungstext_pdf", Link),
    ("Offizielle Chronologie", "offizielle_chronologie_url", Link),
    ("Urheber:innen", "urheberinnen", Plain),
    ("Vorpr\U{00FC}fung", "vorpruefung_pdf", Link),
    ("Unterschriften", "unterschriften", Plain),
    ("Sammeldauer", "sammeldauer", Plain),
    ("Zustandekommen", "zustandekommen_pdf", Link),
    ("Botschaft des Bundesrats", "botschaft_des_bundesrats_pdf", Link),
    ("Gesch\U{00E4}ftsnummer", "geschaeftsnummer", Plain),
    ("Parlamentsberatung", "parlamentsberatung_url", Link),
    ("Behandlungsdauer Parlament", "behandlungsdauer_parlament", Plain),
    ("Position des Parlaments", "position_parlament", Plain),
    ("Position des Nationalrats", "position_nationalrat", Plain),
    ("Position des St\U{00E4}nderats", "position_staenderat", Plain),
    ("Offizielles Abstimmungsb\U{00FC}chlein", "abstimmungsbuechlein_pdf", Link),
    ("Position des Bundesrats", "position_bundesrat", Plain),
    ("Online-Informationen der Beh\U{00F6}rden", "online_informationen_behoerden_url", Link),
    ("Parteiparolen", "parteiparolen", Parolen),
    ("W\U{00E4}hlendenanteil des Ja-Lagers", "waehlendenanteil_ja_lager", Link),
    ("Weitere Parolen", "weitere_parolen", Parolen),
    ("Abweichende Sektionen", "abweichende_sektionen", Parolen),
    ("Kampagnenfinanzierung", "kampagnenfinanzierung_url", Link)
  ]

  /** The record keys the label table can fill. */
  function TableKeys(): (ks: seq<string>)
    ensures |ks| == |LabelTable|
    ensures forall i :: 0 <= i < |LabelTable| ==> ks[i] == LabelTable[i].1
  {
    seq(|LabelTable|, i requires 0 <= i < |LabelTable| => LabelTable[i].1)
  }

  /** The entry of the first row of `table` for `name`. */
  function Lookup(table: seq<(string, string, Kind)>, name: string): (r: Option<(string, Kind)>)
    ensures r.Some? ==> exists i :: 0 <= i < |table| && table[i] == (name, r.value.0, r.value.1)
    ensures r.None? ==> forall i :: 0 <= i < |table| ==> table[i].0 != name
  {
    if |table| == 0 then None
    else if table[0].0 == name then Some((table[0].1, table[0].2))
    else
      var r := Lookup(table[1..], name);
      assert r.Some? ==> table[1..][0..] == table[1..];
      r
  }

  /** The key and kind the `if`/`elif` chain gives a label; None for a label it does not know. */
  function FieldFor(name: string): (r: Option<(string, Kind)>)
    ensures r.Some? ==> r.value.0 in TableKeys()
    ensures r.None? <==> forall i :: 0 <= i < |LabelTable| ==> LabelTable[i].0 != name
  {
    var r := Lookup(LabelTable, name);
    assert r.Some? ==> r.value.0 in TableKeys() by {
      if r.Some? {
        var i :| 0 <= i < |LabelTable| && LabelTable[i] == (name, r.value.0, r.value.1);
        assert TableKeys()[i] == r.value.0;
      }
    }
    r
  }

  /** A row the parser reads: exactly two cells, and not a `th` with a colspan or with a blank value cell. */
  predicate Considered(row: seq<Cell>) {
    |row| == 2 && !(row[0].tag == Th && ("colspan" in row[0].attrs || Strip(row[1].rawText) == ""))
  }

  /** The value stored for a value cell `td` under a label of kind `kind`. */
  function FieldValue(kind: Kind, td: Cell): Json
  {
    match kind
    case Plain => JStr(td.text)
    case Link => JStr(if td.link.Some? then td.link.value else td.text)
    case Spans => JStr(if |td.spans| > 0 then Join("; ", td.spans) else td.text)
    case Parolen => StrArray(Parteiparolen(td.dls, td.lineText))
  }

  /** The assignment a row makes, if any. */
  function RowField(row: seq<Cell>): Option<(string, Json)>
  {
    if Considered(row) then
      match FieldFor(row[0].text)
      case Some(field) => Some((field.0, FieldValue(field.1, row[1])))
      case None => None
    else None
  }

  /** The value of the last row assigning `key`: a later row with the same label overwrites an earlier one. */
  function LastFor(rows: seq<seq<Cell>>, key: string): (v: Option<Json>)
    ensures v.Some? ==> key in TableKeys()
  {
    if |rows| == 0 then None
    else
      var f := RowField(rows[|rows| - 1]);
      if f.Some? && f.value.0 == key then Some(f.value.1) else LastFor(rows[..|rows| - 1], key)
  }

  function ApplyRow(d: Dict<Json>, row: seq<Cell>): Dict<Json>
  {
    match RowField(row)
    case None => d
    case Some(f) => Put(d, f.0, f.1)
  }

  /**
   * The record after the rows, in order, starting from `d`: every key a row assigns holds the value
   * of its last row, other keys are untouched, keys of `d` keep their places and only table keys are added.
   */
  function ApplyRows(d: Dict<Json>, rows: seq<seq<Cell>>): (r: Dict<Json>)
    ensures forall k :: Get(r, k) == if LastFor(rows, k).Some? then LastFor(rows, k) else Get(d, k)
    ensures |r| >= |d| && Keys(r)[..|d|] == Keys(d)
    ensures forall k :: k in Keys(r) ==> k in Keys(d) || k in TableKeys()
  {
    if |rows| == 0 then d
    else
      var r := ApplyRows(d, rows[..|rows| - 1]);
      var row := rows[|rows| - 1];
      assert Keys(ApplyRow(r, row))[..|r|] == Keys(r);
      assert Keys(ApplyRow(r, row))[..|d|] == Keys(r)[..|d|];
      ApplyRow(r, row)
  }

  /** The rows of all tables, in document order. */
  function AllRows(tables: seq<seq<seq<Cell>>>): seq<seq<Cell>>
  {
    FlatMap(tb => tb, tables)
  }

  /** `vote_id.split(".")[0]`. */
  function VoteIdOf(id: string): (r: string)
    ensures StartsWith(id, r) && !Contains(r, ".")
    ensures r == id <==> !Contains(id, ".")
    ensures Contains(id, ".") ==> Find(id, ".") == Some(|r|)
  {
    var parts := Split(id, ".");
    SplitHeadIsPrefix(id, ".");
    SplitFieldsClean(id, ".");
    SplitCount(id, ".");
    JoinSplit(id, ".");
    if |parts| >= 2 then JoinFirstTwo(".", parts); parts[0] else parts[0]
  }

  function VoteUrl(id: string): string {
    Base + "/vote/" + id
  }

  /** The three keys every record of a page answered with 200 starts with. */
  function BaseRecord(voteId: string): (r: Dict<Json>)
    ensures Keys(r) == ["vote_id", "official_number", "details_url"]
  {
    [("vote_id", JStr(VoteIdOf(voteId))), ("official_number", JStr(voteId)), ("details_url", JStr(VoteUrl(voteId)))]
  }

  function WithTitle(d: Dict<Json>, heading: Option<string>): Dict<Json>
  {
    if heading.Some? then Put(d, "title_de", JStr(heading.value)) else d
  }

  /** The brochure step: only when the record holds a non-empty brochure link, and only when some text was found. */
  function WithBrochure(d: Dict<Json>, fetchPdf: string -> PdfDownload): Dict<Json>
  {
    var pdf := Get(d, "abstimmungsbuechlein_pdf");
    if pdf.Some? && pdf.value.JStr? && pdf.value.s != "" then
      var texts := BrochureTexts(pdf.value.s, fetchPdf);
      if |texts| > 0 then Put(d, "brochure_texts", StrObject(texts)) else d
    else d
  }

  /**
   * The record for `voteId`, given the answer to the request for its detail page (None when the
   * request raised, which ends the scraper) and the brochure downloads.
   */
  function VotePage(voteId: string, page: Option<DetailPage>, fetchPdf: string -> PdfDownload): Option<Dict<Json>>
  {
    if page.None? then None
    else if page.value.status != 200 then Some([])
    else
      var fields := ApplyRows(BaseRecord(voteId), AllRows(page.value.tables));
      Some(WithBrochure(WithTitle(fields, page.value.heading), fetchPdf))
  }

  /** The value of one recognised row's value cell, with the recommendation parser for `Parolen` labels. */
  method CellValue(kind: Kind, td: Cell) returns (v: Json)
    ensures v == FieldValue(kind, td)
  {
    match kind {
      case Plain =>
        v := JStr(td.text);
      case Link =>
        v := JStr(if td.link.Some? then td.link.value else td.text);
      case Spans =>
        v := JStr(if |td.spans| > 0 then Join("; ", td.spans) else td.text);
      case Parolen =>
        var parts := ParseParteiparolen(td.dls, td.lineText);
        v := StrArray(parts);
    }
  }

  /** The body of the row loop: skip the row, or assign its label's key. */
  method ParseRow(record: Dict<Json>, row: seq<Cell>) returns (updated: Dict<Json>)
    ensures updated == ApplyRow(record, row)
  {
    updated := record;
    if |row| != 2 {
      return;
    }
    if row[0].tag == Th && ("colspan" in row[0].attrs || Strip(row[1].rawText) == "") {
      return;
    }
    var field := FieldFor(row[0].text);
    if field.Some? {
      var value := CellValue(field.value.1, row[1]);
      updated := Put(record, field.value.0, value);
    }
  }

  /** The row loop over every table, starting from the record's first three keys. */
  method ParseTables(voteId: string, tables: seq<seq<seq<Cell>>>) returns (record: Dict<Json>)
    ensures record == ApplyRows(BaseRecord(voteId), AllRows(tables))
  {
    record := BaseRecord(voteId);
    var t := 0;
    while t < |tables|
      invariant 0 <= t <= |tables|
      invariant record == ApplyRows(BaseRecord(voteId), AllRows(tables[..t]))
    {
      FlatMapSnoc(tb => tb, tables, t);
      record := ParseTable(BaseRecord(voteId), AllRows(tables[..t]), record, tables[t]);
      t := t + 1;
    }
    assert tables[..t] == tables;
  }

  /** The row loop of one table, continuing from the record the earlier rows `done` produced. */
  method ParseTable(ghost base: Dict<Json>, ghost done: seq<seq<Cell>>, start: Dict<Json>, rows: seq<seq<Cell>>)
    returns (record: Dict<Json>)
    requires start == ApplyRows(base, done)
    ensures record == ApplyRows(base, done + rows)
  {
    record := start;
    var r := 0;
    assert done + rows[..0] == done;
    while r < |rows|
      invariant 0 <= r <= |rows|
      invariant record == ApplyRows(base, done + rows[..r])
    {
      ApplyRowsSnoc(base, done + rows[..r], rows[r]);
      assert done + rows[..r + 1] == (done + rows[..r]) + [rows[r]];
      record := ParseRow(record, rows[r]);
      r := r + 1;
    }
    assert rows[..r] == rows;
  }

  lemma ApplyRowsSnoc(d: Dict<Json>, rows: seq<seq<Cell>>, row: seq<Cell>)
    ensures ApplyRows(d, rows + [row]) == ApplyRow(ApplyRows(d, rows), row)
  {
    assert (rows + [row])[..|rows|] == rows;
  }

  /** `parse_vote_page`: the rows of every table, then the heading, then the brochure texts. */
  method ParseVotePage(voteId: string, page: Option<DetailPage>, fetchPdf: string -> PdfDownload)
    returns (result: Option<Dict<Json>>)
    ensures result == VotePage(voteId, page, fetchPdf)
  {
    if page.None? {
      return None;
    }
    if page.value.status != 200 {
      return Some([]);
    }
    var record := ParseTables(voteId, page.value.tables);
    record := WithTitle(record, page.value.heading);
    var pdfUrl := Get(record, "abstimmungsbuechlein_pdf");
    if pdfUrl.Some? && pdfUrl.value.JStr? && pdfUrl.value.s != "" {
      var brochureTexts := ExtractPdfText(pdfUrl.value.s, fetchPdf);
      if |brochureTexts| > 0 {
        record := Put(record, "brochure_texts", StrObject(brochureTexts));
      }
    }
    return Some(record);
  }

  /** The keys the parser sets itself are never filled from a row. */
  lemma ReservedKeysOutsideTable()
    ensures forall k :: k in OwnKeys ==> k !in TableKeys()
  {
    forall i | 0 <= i < |LabelTable|
      ensures TableKeys()[i] !in OwnKeys
    {
    }
  }

  /** The keys the parser sets itself. */
  const OwnKeys: seq<string> := ["vote_id", "official_number", "details_url", "title_de", "brochure_texts"]

  /** After the rows: the first three keys kept, table keys hold their last row's value, nothing else added. */
  lemma FieldsStage(voteId: string, rows: seq<seq<Cell>>)
    ensures var f := ApplyRows(BaseRecord(voteId), rows);
      && |f| >= 3 && Keys(f)[..3] == ["vote_id", "official_number", "details_url"]
      && Get(f, "vote_id") == Some(JStr(VoteIdOf(voteId)))
      && Get(f, "official_number") == Some(JStr(voteId))
      && Get(f, "details_url") == Some(JStr(VoteUrl(voteId)))
      && (forall k :: k in TableKeys() ==> Get(f, k) == LastFor(rows, k))
      && (forall k :: k in Keys(f) ==> k in TableKeys() || k in OwnKeys)
  {
    ReservedKeysOutsideTable();
    var base := BaseRecord(voteId);
    forall k | k in TableKeys() ensures Get(base, k) == None {
      assert k !in Keys(base);
    }
    assert Get(base, "vote_id") == Some(JStr(VoteIdOf(voteId)));
    assert Get(base, "official_number") == Some(JStr(voteId));
    assert Get(base, "details_url") == Some(JStr(VoteUrl(voteId)));
  }

  /** Adding the heading touches only `title_de` and keeps the key order. */
  lemma TitleStage(d: Dict<Json>, heading: Option<string>)
    ensures var t := WithTitle(d, heading);
      && |t| >= |d| && Keys(t)[..|d|] == Keys(d)
      && (forall k :: k != "title_de" ==> Get(t, k) == Get(d, k))
      && (heading.Some? ==> Get(t, "title_de") == Some(JStr(heading.value)))
      && (forall k :: k in Keys(t) ==> k in Keys(d) || k == "title_de")
  {
    if heading.Some? {
      PutKeepsKeys(d, "title_de", JStr(heading.value));
    }
  }

  /** Adding the brochure texts touches only `brochure_texts`, and only next to a non-empty brochure link. */
  lemma BrochureStage(d: Dict<Json>, fetchPdf: string -> PdfDownload)
    ensures var b := WithBrochure(d, fetchPdf);
      && |b| >= |d| && Keys(b)[..|d|] == Keys(d)
      && (forall k :: k != "brochure_texts" ==> Get(b, k) == Get(d, k))
      && (b != d ==> exists url :: Get(d, "abstimmungsbuechlein_pdf") == Some(JStr(url)) && url != "")
      && (forall k :: k in Keys(b) ==> k in Keys(d) || k == "brochure_texts")
  {
    var pdf := Get(d, "abstimmungsbuechlein_pdf");
    if pdf.Some? && pdf.value.JStr? && pdf.value.s != "" {
      var texts := BrochureTexts(pdf.value.s, fetchPdf);
      PutKeepsKeys(d, "brochure_texts", StrObject(texts));
      assert Get(d, "abstimmungsbuechlein_pdf") == Some(JStr(pdf.value.s));
    }
  }

  /** The heading and brochure stages together keep the keys already there, in place. */
  lemma {:induction false} LaterStagesKeepOrder(d: Dict<Json>, heading: Option<string>, fetchPdf: string -> PdfDownload)
    ensures |WithBrochure(WithTitle(d, heading), fetchPdf)| >= |d|
    ensures Keys(WithBrochure(WithTitle(d, heading), fetchPdf))[..|d|] == Keys(d)
  {
    var t := WithTitle(d, heading);
    TitleStage(d, heading);
    BrochureStage(t, fetchPdf);
    var b := WithBrochure(t, fetchPdf);
    assert Keys(b)[..|d|] == Keys(b)[..|t|][..|d|];
  }

  /** The heading and brochure stages together change only `title_de` and `brochure_texts`. */
  lemma LaterStagesKeepValues(d: Dict<Json>, heading: Option<string>, fetchPdf: string -> PdfDownload, k: string)
    requires k != "title_de" && k != "brochure_texts"
    ensures Get(WithBrochure(WithTitle(d, heading), fetchPdf), k) == Get(d, k)
  {
    TitleStage(d, heading);
    BrochureStage(WithTitle(d, heading), fetchPdf);
  }

  /** The heading and brochure stages together add no key but `title_de` and `brochure_texts`. */
  lemma LaterStagesAddOwnKeys(d: Dict<Json>, heading: Option<string>, fetchPdf: string -> PdfDownload, k: string)
    requires k in Keys(WithBrochure(WithTitle(d, heading), fetchPdf))
    ensures k in Keys(d) || k == "title_de" || k == "brochure_texts"
  {
    TitleStage(d, heading);
    BrochureStage(WithTitle(d, heading), fetchPdf);
  }

  /** The heading is kept by the brochure stage. */
  lemma LaterStagesTitle(d: Dict<Json>, heading: Option<string>, fetchPdf: string -> PdfDownload)
    requires heading.Some?
    ensures Get(WithBrochure(WithTitle(d, heading), fetchPdf), "title_de") == Some(JStr(heading.value))
  {
    TitleStage(d, heading);
    BrochureStage(WithTitle(d, heading), fetchPdf);
  }

  /** The record of a page answered with 200, stage by stage. */
  function Record200(voteId: string, page: DetailPage, fetchPdf: string -> PdfDownload): Dict<Json>
  {
    WithBrochure(WithTitle(ApplyRows(BaseRecord(voteId), AllRows(page.tables)), page.heading), fetchPdf)
  }

  /**
   * A page answered with 200 gives a record that starts with `vote_id`, `official_number` and
   * `details_url`: the id up to its first ".", the id itself, and the page URL.
   */
  lemma VotePageIdentity(voteId: string, page: DetailPage, fetchPdf: string -> PdfDownload)
    ensures |Record200(voteId, page, fetchPdf)| >= 3
    ensures Keys(Record200(voteId, page, fetchPdf))[..3] == ["vote_id", "official_number", "details_url"]
    ensures Get(Record200(voteId, page, fetchPdf), "vote_id") == Some(JStr(VoteIdOf(voteId)))
    ensures Get(Record200(voteId, page, fetchPdf), "official_number") == Some(JStr(voteId))
    ensures Get(Record200(voteId, page, fetchPdf), "details_url") == Some(JStr(VoteUrl(voteId)))
  {
    var fields := ApplyRows(BaseRecord(voteId), AllRows(page.tables));
    FieldsIdentity(voteId, AllRows(page.tables));
    LaterStagesKeepIdentity(fields, page.heading, fetchPdf);
  }

  /** The identity part of the rows stage. */
  lemma FieldsIdentity(voteId: string, rows: seq<seq<Cell>>)
    ensures var f := ApplyRows(BaseRecord(voteId), rows);
      && |f| >= 3 && Keys(f)[..3] == ["vote_id", "official_number", "details_url"]
      && Get(f, "vote_id") == Some(JStr(VoteIdOf(voteId)))
      && Get(f, "official_number") == Some(JStr(voteId))
      && Get(f, "details_url") == Some(JStr(VoteUrl(voteId)))
  {
    FieldsStage(voteId, rows);
  }

  /** The heading and brochure stages keep the three identity keys first, with their values. */
  lemma LaterStagesKeepIdentity(d: Dict<Json>, heading: Option<string>, fetchPdf: string -> PdfDownload)
    requires |d| >= 3 && Keys(d)[..3] == ["vote_id", "official_number", "details_url"]
    ensures var r := WithBrochure(WithTitle(d, heading), fetchPdf);
      && |r| >= 3 && Keys(r)[..3] == ["vote_id", "official_number", "details_url"]
      && Get(r, "vote_id") == Get(d, "vote_id")
      && Get(r, "official_number") == Get(d, "official_number")
      && Get(r, "details_url") == Get(d, "details_url")
  {
    var r := WithBrochure(WithTitle(d, heading), fetchPdf);
    LaterStagesKeepOrder(d, heading, fetchPdf);
    LaterStagesKeepValues(d, heading, fetchPdf, "vote_id");
    LaterStagesKeepValues(d, heading, fetchPdf, "official_number");
    LaterStagesKeepValues(d, heading, fetchPdf, "details_url");
    assert Keys(r)[..3] == Keys(r)[..|d|][..3];
  }

  /** A page answered with 200 gives the staged record. */
  lemma VotePageOk(voteId: string, page: DetailPage, fetchPdf: string -> PdfDownload)
    requires page.status == 200
    ensures VotePage(voteId, Some(page), fetchPdf) == Some(Record200(voteId, page, fetchPdf))
  {
  }

  /**
   * In the record of a page answered with 200 every label-table key holds its last row's value or is
   * absent, `title_de` holds the heading when there is one, and no other key appears.
   */
  lemma VotePageFields(voteId: string, page: DetailPage, fetchPdf: string -> PdfDownload)
    ensures forall k :: k in TableKeys() ==> Get(Record200(voteId, page, fetchPdf), k) == LastFor(AllRows(page.tables), k)
    ensures page.heading.Some? ==> Get(Record200(voteId, page, fetchPdf), "title_de") == Some(JStr(page.heading.value))
    ensures forall k :: k in Keys(Record200(voteId, page, fetchPdf)) ==> k in TableKeys() || k in OwnKeys
  {
    var fields := ApplyRows(BaseRecord(voteId), AllRows(page.tables));
    var r := Record200(voteId, page, fetchPdf);
    FieldsStage(voteId, AllRows(page.tables));
    ReservedKeysOutsideTable();
    forall k | k in TableKeys() ensures Get(r, k) == LastFor(AllRows(page.tables), k) {
      LaterStagesKeepValues(fields, page.heading, fetchPdf, k);
    }
    if page.heading.Some? {
      LaterStagesTitle(fields, page.heading, fetchPdf);
    }
    forall k | k in Keys(r) ensures k in TableKeys() || k in OwnKeys {
      LaterStagesAddOwnKeys(fields, page.heading, fetchPdf, k);
    }
  }

  /** A page not answered with 200 gives an empty record. */
  lemma FailedPageEmpty(voteId: string, page: DetailPage, fetchPdf: string -> PdfDownload)
    requires page.status != 200
    ensures VotePage(voteId, Some(page), fetchPdf) == Some([])
  {
  }
}
