/**
 * Discovery of upcoming popular initiatives on the first page of the vote listing
 * (`discover_upcoming_volksinitiative_votes`): rows of at least seven data cells whose legal form
 * is "Volksinitiative", with no result yet, placeholder percentages and a date not in the past.
 */
module Discovery {
  import opened Options
  import opened Text
  import opened Seqs

  /**
   * One `<td>` of a listing row: its stripped text and the `href` of its first link that has one.
   * Header cells are not part of a row.
   */
  datatype ListingCell = ListingCell(text: string, link: Option<string>)

  /** The listing page as answered: its HTTP status and the data cells of each `<tr>`. */
  datatype ListingPage = ListingPage(status: int, rows: seq<seq<ListingCell>>)

  /** A calendar date as `strptime(..., "%d.%m.%Y").date()` yields it. */
  datatype Date = Date(year: int, month: int, day: int)

  /** Python's `a >= b` on dates. */
  predicate OnOrAfter(a: Date, b: Date) {
    a.year > b.year
    || (a.year == b.year && (a.month > b.month || (a.month == b.month && a.day >= b.day)))
  }

  const Marker := "/vote/"

  /** A row announces an upcoming popular initiative. `parseDate` stands for `strptime`; None when it raises. */
  predicate Upcoming(cols: seq<ListingCell>, today: Date, parseDate: string -> Option<Date>) {
    |cols| >= 7
    && cols[2].text == "Volksinitiative"
    && cols[4].text == ""
    && cols[5].text == "%"
    && cols[6].text == "%"
    && parseDate(cols[1].text).Some?
    && OnOrAfter(parseDate(cols[1].text).value, today)
  }

  /** The identifier in a details link: the text between the first and the second "/vote/". */
  function LinkVoteId(href: string): (vid: Option<string>)
    ensures vid.Some? <==> Contains(href, Marker)
    ensures vid.Some? ==> !Contains(vid.value, Marker)
  {
    if Contains(href, Marker) then
      SplitCount(href, Marker);
      SplitFieldsClean(href, Marker);
      Some(Split(href, Marker)[1])
    else None
  }

  /** The identifier is exactly what follows the first "/vote/" of the link, up to the next one. */
  lemma LinkVoteIdPlace(href: string)
    requires Contains(href, Marker)
    ensures exists rest :: href == Split(href, Marker)[0] + Marker + LinkVoteId(href).value + rest
    ensures !Contains(Split(href, Marker)[0], Marker)
  {
    var parts := Split(href, Marker);
    SplitCount(href, Marker);
    SplitFieldsClean(href, Marker);
    JoinSplit(href, Marker);
    JoinFirstTwo(Marker, parts);
    var rest :| Join(Marker, parts) == parts[0] + Marker + parts[1] + rest;
    assert href == parts[0] + Marker + LinkVoteId(href).value + rest;
  }

  /** The identifier a row contributes: none unless it is upcoming and its last cell links to a vote. */
  function RowCandidate(today: Date, parseDate: string -> Option<Date>, cols: seq<ListingCell>): seq<string>
  {
    if Upcoming(cols, today, parseDate) && cols[|cols| - 1].link.Some? then
      match LinkVoteId(cols[|cols| - 1].link.value)
      case Some(vid) => [vid]
      case None => []
    else []
  }

  function Candidates(rows: seq<seq<ListingCell>>, today: Date, parseDate: string -> Option<Date>): seq<string>
  {
    FlatMap(c => RowCandidate(today, parseDate, c), rows)
  }

  /** `if vid not in ids: ids.append(vid)`. */
  function AppendNew(ids: seq<string>, v: string): seq<string>
  {
    if v in ids then ids else ids + [v]
  }

  /** The identifiers in order of first appearance, each once. */
  function Dedup(xs: seq<string>): seq<string>
  {
    if |xs| == 0 then [] else AppendNew(Dedup(xs[..|xs| - 1]), xs[|xs| - 1])
  }

  /** The position of the first occurrence of `x` in `xs`. */
  function FirstIndex(xs: seq<string>, x: string): (i: nat)
    requires x in xs
    ensures i < |xs| && xs[i] == x
    ensures forall j :: 0 <= j < i ==> xs[j] != x
  {
    if xs[0] == x then 0 else 1 + FirstIndex(xs[1..], x)
  }

  lemma {:induction false} FirstIndexSnoc(xs: seq<string>, z: string, x: string)
    requires x in xs
    ensures FirstIndex(xs + [z], x) == FirstIndex(xs, x)
  {
    var i := FirstIndex(xs, x);
    var k := FirstIndex(xs + [z], x);
    assert (xs + [z])[i] == x;
  }

  predicate NoDuplicates(ids: seq<string>) {
    forall i, j :: 0 <= i < j < |ids| ==> ids[i] != ids[j]
  }

  /**
   * The deduplicated list holds every identifier once, exactly the identifiers of the input, in
   * the order in which each first appears there.
   */
  lemma {:induction false} DedupSpec(xs: seq<string>)
    ensures NoDuplicates(Dedup(xs))
    ensures forall x :: x in Dedup(xs) <==> x in xs
    ensures forall i, j :: 0 <= i < j < |Dedup(xs)| ==> FirstIndex(xs, Dedup(xs)[i]) < FirstIndex(xs, Dedup(xs)[j])
  {
    if |xs| > 0 {
      var init := xs[..|xs| - 1];
      var last := xs[|xs| - 1];
      DedupSpec(init);
      assert xs == init + [last];
      var d := Dedup(init);
      forall y | y in init ensures FirstIndex(xs, y) == FirstIndex(init, y) {
        FirstIndexSnoc(init, last, y);
      }
      if last !in d {
        assert last !in init;
        assert FirstIndex(xs, last) == |init|;
      }
    }
  }

  /** What the discovery returns; None when the request raises or `raise_for_status` rejects the status. */
  function Discover(listing: Option<ListingPage>, today: Date, parseDate: string -> Option<Date>): Option<seq<string>>
  {
    if listing.None? || 400 <= listing.value.status < 600 then None
    else Some(Dedup(Candidates(listing.value.rows, today, parseDate)))
  }

  /**
   * `discover_upcoming_volksinitiative_votes`: `listing` is the answer to the request for the first
   * listing page (None when the request raised), `today` the current date.
   */
  method DiscoverUpcoming(listing: Option<ListingPage>, today: Date, parseDate: string -> Option<Date>)
    returns (ids: Option<seq<string>>)
    ensures ids == Discover(listing, today, parseDate)
  {
    if listing.None? || 400 <= listing.value.status < 600 {
      return None;
    }
    var rows := listing.value.rows;
    var found: seq<string> := [];
    var i := 0;
    while i < |rows|
      invariant 0 <= i <= |rows|
      invariant found == Dedup(Candidates(rows[..i], today, parseDate))
    {
      var cols := rows[i];
      FlatMapSnoc(c => RowCandidate(today, parseDate, c), rows, i);
      ghost var before := Candidates(rows[..i], today, parseDate);
      assert before + [] == before;
      i := i + 1;
      if |cols| == 0 || |cols| < 7 {
        continue;
      }
      var voteDate := parseDate(cols[1].text);
      if cols[2].text == "Volksinitiative" && cols[4].text == "" && cols[5].text == "%"
        && cols[6].text == "%" && voteDate.Some? && OnOrAfter(voteDate.value, today)
      {
        var detailsLink := cols[|cols| - 1].link;
        if detailsLink.Some? && Contains(detailsLink.value, Marker) {
          var vid := Split(detailsLink.value, Marker)[1];
          assert RowCandidate(today, parseDate, cols) == [vid];
          assert (before + [vid])[..|before|] == before;
          if vid !in found {
            found := found + [vid];
          }
        }
      }
    }
    assert rows[..i] == rows;
    return Some(found);
  }

  /**
   * Every discovered identifier comes from an upcoming-initiative row whose last cell links to that
   * vote, and no identifier is listed twice.
   */
  lemma DiscoveredAreUpcoming(page: ListingPage, today: Date, parseDate: string -> Option<Date>, vid: string)
    requires !(400 <= page.status < 600)
    requires vid in Discover(Some(page), today, parseDate).value
    ensures NoDuplicates(Discover(Some(page), today, parseDate).value)
    ensures exists cols: seq<ListingCell> :: cols in page.rows && Upcoming(cols, today, parseDate)
                && cols[|cols| - 1].link.Some? && LinkVoteId(cols[|cols| - 1].link.value) == Some(vid)
  {
    var cands := Candidates(page.rows, today, parseDate);
    DedupSpec(cands);
    FlatMapMember(c => RowCandidate(today, parseDate, c), page.rows, vid);
  }

  /** A row that qualifies and links to a vote is never lost, even if the same vote is listed again. */
  lemma UpcomingRowDiscovered(page: ListingPage, today: Date, parseDate: string -> Option<Date>, i: nat)
    requires !(400 <= page.status < 600) && i < |page.rows|
    requires Upcoming(page.rows[i], today, parseDate)
    requires page.rows[i][|page.rows[i]| - 1].link.Some?
    requires Contains(page.rows[i][|page.rows[i]| - 1].link.value, Marker)
    ensures LinkVoteId(page.rows[i][|page.rows[i]| - 1].link.value).value in Discover(Some(page), today, parseDate).value
  {
    var f := c => RowCandidate(today, parseDate, c);
    var rows := page.rows;
    assert rows == rows[..i] + [rows[i]] + rows[i + 1..];
    FlatMapAppend(f, rows[..i] + [rows[i]], rows[i + 1..]);
    FlatMapSnoc(f, rows, i);
    assert rows[..i + 1] == rows[..i] + [rows[i]];
    DedupSpec(Candidates(rows, today, parseDate));
  }
}
