/**
 * The party-recommendation parser of the vote scraper (`parse_parteiparolen`). A recommendation
 * cell holds `<dl class="recommendation">` lists whose `<dt>` items are stances ("Ja", "Nein", ...)
 * and whose `<dd>` items are parties; without such lists the cell's text lines `Stance: A, B` are read.
 */
module Parolen {
  import opened Text
  import opened Seqs

  /** One `<dt>` or `<dd>` of a recommendation list, with its text (`get_text(" ", strip=True)`). */
  datatype DlItem = Dt(text: string) | Dd(text: string)

  /** One recommendation entry, `"<stance>: <party>"`. */
  function Entry(stance: string, party: string): string {
    stance + ": " + party
  }

  /** The text of the last `<dt>` among `items`, or "" when there is none: the stance in force after them. */
  function LatestStance(items: seq<DlItem>): string
  {
    if |items| == 0 then ""
    else if items[|items| - 1].Dt? then items[|items| - 1].text
    else LatestStance(items[..|items| - 1])
  }

  /**
   * The entries of one list: each `<dd>` gives one entry paired with the stance in force before it,
   * unless that stance is missing or empty (Python's falsy `last_type`).
   */
  function ListEntries(items: seq<DlItem>): seq<string>
  {
    if |items| == 0 then []
    else
      var before := items[..|items| - 1];
      var last := items[|items| - 1];
      ListEntries(before)
      + (if last.Dd? && LatestStance(before) != "" then [Entry(LatestStance(before), last.text)] else [])
  }

  /** The entries of several lists, in document order; each list starts with no stance. */
  function ListsEntries(dls: seq<seq<DlItem>>): seq<string>
  {
    FlatMap(ListEntries, dls)
  }

  /** The entry of one comma-separated part under a stance: none when the part is blank. */
  function PartyEntry(stance: string, part: string): seq<string>
  {
    if Strip(part) != "" then [Entry(stance, Strip(part))] else []
  }

  function PartyEntries(stance: string, parts: seq<string>): seq<string>
  {
    FlatMap(p => PartyEntry(stance, p), parts)
  }

  /** The entries of one fallback line `stance: a, b, c`, split at its first colon; none without a colon. */
  function LineEntries(line: string): seq<string>
  {
    if Contains(line, ":") then
      var halves := SplitOnce(line, ":");
      PartyEntries(Strip(halves.0), Split(halves.1, ","))
    else []
  }

  function LinesEntries(lines: seq<string>): seq<string>
  {
    FlatMap(LineEntries, lines)
  }

  /**
   * What the parser returns for a cell with recommendation lists `dls` and text `lineText`
   * (`get_text("\n", strip=True)`): the lists' entries, or the text lines' entries when there is no list.
   */
  function Parteiparolen(dls: seq<seq<DlItem>>, lineText: string): seq<string>
  {
    if |dls| > 0 then ListsEntries(dls) else LinesEntries(Split(lineText, "\n"))
  }

  /** One list's loop: the stance in force is kept in `lastType`, reset to "" for every list. */
  method ParseList(items: seq<DlItem>) returns (parts: seq<string>)
    ensures parts == ListEntries(items)
  {
    parts := [];
    var lastType := "";
    var k := 0;
    while k < |items|
      invariant 0 <= k <= |items|
      invariant lastType == LatestStance(items[..k])
      invariant parts == ListEntries(items[..k])
    {
      assert items[..k + 1][..k] == items[..k];
      match items[k] {
        case Dt(t) =>
          lastType := t;
        case Dd(party) =>
          if lastType != "" {
            parts := parts + [Entry(lastType, party)];
          }
      }
      k := k + 1;
    }
    assert items[..k] == items;
  }

  /** One fallback line's loop: split at the first colon, then each comma-separated part. */
  method ParseLine(line: string) returns (parts: seq<string>)
    ensures parts == LineEntries(line)
  {
    parts := [];
    if Contains(line, ":") {
      var halves := SplitOnce(line, ":");
      var stance := Strip(halves.0);
      var pieces := Split(halves.1, ",");
      var j := 0;
      while j < |pieces|
        invariant 0 <= j <= |pieces|
        invariant parts == PartyEntries(stance, pieces[..j])
      {
        FlatMapSnoc(p => PartyEntry(stance, p), pieces, j);
        var party := Strip(pieces[j]);
        if party != "" {
          parts := parts + [Entry(stance, party)];
        }
        j := j + 1;
      }
      assert pieces[..j] == pieces;
    }
  }

  /** `parse_parteiparolen`: every recommendation list in order, else the fallback lines. */
  method ParseParteiparolen(dls: seq<seq<DlItem>>, lineText: string) returns (parts: seq<string>)
    ensures parts == Parteiparolen(dls, lineText)
  {
    parts := [];
    var d := 0;
    while d < |dls|
      invariant 0 <= d <= |dls|
      invariant parts == ListsEntries(dls[..d])
    {
      var found := ParseList(dls[d]);
      FlatMapSnoc(ListEntries, dls, d);
      parts := parts + found;
      d := d + 1;
    }
    assert dls[..d] == dls;
    if |dls| == 0 {
      var lines := Split(lineText, "\n");
      var i := 0;
      while i < |lines|
        invariant 0 <= i <= |lines|
        invariant parts == LinesEntries(lines[..i])
      {
        var found := ParseLine(lines[i]);
        FlatMapSnoc(LineEntries, lines, i);
        parts := parts + found;
        i := i + 1;
      }
      assert lines[..i] == lines;
    }
  }

  /** A `<dd>` before the first `<dt>` of its list gives nothing. */
  lemma {:induction false} LeadingPartiesDropped(lead: seq<DlItem>, rest: seq<DlItem>)
    requires forall i :: 0 <= i < |lead| ==> lead[i].Dd?
    ensures ListEntries(lead + rest) == ListEntries(rest)
    decreases |rest|
  {
    if |rest| == 0 {
      assert lead + rest == lead;
      NoStanceNoEntries(lead);
    } else {
      var before := rest[..|rest| - 1];
      assert (lead + rest)[..|lead + rest| - 1] == lead + before;
      LeadingPartiesDropped(lead, before);
      LeadingStanceIgnored(lead, before);
    }
  }

  lemma {:induction false} NoStanceNoEntries(items: seq<DlItem>)
    requires forall i :: 0 <= i < |items| ==> items[i].Dd?
    ensures LatestStance(items) == "" && ListEntries(items) == []
  {
    if |items| > 0 {
      NoStanceNoEntries(items[..|items| - 1]);
    }
  }

  lemma {:induction false} LeadingStanceIgnored(lead: seq<DlItem>, rest: seq<DlItem>)
    requires forall i :: 0 <= i < |lead| ==> lead[i].Dd?
    ensures LatestStance(lead + rest) == LatestStance(rest)
    decreases |rest|
  {
    if |rest| == 0 {
      assert lead + rest == lead;
      NoStanceNoEntries(lead);
    } else {
      assert (lead + rest)[..|lead + rest| - 1] == lead + rest[..|rest| - 1];
      LeadingStanceIgnored(lead, rest[..|rest| - 1]);
    }
  }

  /** The stance starts afresh in every list: the entries of consecutive lists are concatenated. */
  lemma ListsEntriesAppend(a: seq<seq<DlItem>>, b: seq<seq<DlItem>>)
    ensures ListsEntries(a + b) == ListsEntries(a) + ListsEntries(b)
  {
    FlatMapAppend(ListEntries, a, b);
  }

  /** In the fallback a line without a colon contributes nothing, wherever it stands. */
  lemma ColonlessLineIgnored(a: seq<string>, line: string, b: seq<string>)
    requires !Contains(line, ":")
    ensures LinesEntries(a + [line] + b) == LinesEntries(a + b)
  {
    FlatMapSkip(LineEntries, a, line, b);
  }

  /** Every fallback entry is the stripped label, ": ", and a non-blank stripped part. */
  lemma PartyEntriesShape(stance: string, parts: seq<string>, e: string)
    requires e in PartyEntries(stance, parts)
    ensures exists p :: p in parts && Strip(p) != "" && e == Entry(stance, Strip(p))
  {
    FlatMapMember(p => PartyEntry(stance, p), parts, e);
  }

  /** One more item: a `<dt>` sets the stance, a `<dd>` adds an entry under the stance in force. */
  lemma ListEntriesSnoc(items: seq<DlItem>, x: DlItem)
    ensures LatestStance(items + [x]) == if x.Dt? then x.text else LatestStance(items)
    ensures ListEntries(items + [x])
      == ListEntries(items) + (if x.Dd? && LatestStance(items) != "" then [Entry(LatestStance(items), x.text)] else [])
  {
    assert (items + [x])[..|items|] == items;
  }

  /**
   * The structured example `<dt>Ja</dt><dd>Party A</dd><dd>Party B</dd><dt>Nein</dt><dd>Party C</dd>`,
   * for any non-empty stances and any parties: each party is paired with the stance above it.
   */
  lemma StructuredExample(yes: string, no: string, a: string, b: string, c: string, lineText: string)
    requires yes != "" && no != ""
    ensures Parteiparolen([[Dt(yes), Dd(a), Dd(b), Dt(no), Dd(c)]], lineText)
      == [Entry(yes, a), Entry(yes, b), Entry(no, c)]
  {
    var i0: seq<DlItem> := [];
    ListEntriesSnoc(i0, Dt(yes));
    var i1 := i0 + [Dt(yes)];
    ListEntriesSnoc(i1, Dd(a));
    var i2 := i1 + [Dd(a)];
    ListEntriesSnoc(i2, Dd(b));
    var i3 := i2 + [Dd(b)];
    ListEntriesSnoc(i3, Dt(no));
    var i4 := i3 + [Dt(no)];
    ListEntriesSnoc(i4, Dd(c));
    var i5 := i4 + [Dd(c)];
    assert i5 == [Dt(yes), Dd(a), Dd(b), Dt(no), Dd(c)];
    FlatMapSingle(ListEntries, i5);
  }

  /**
   * The fallback example `Ja: A, B`, for any stance without a colon and any two non-blank parties
   * without a comma, on one line: one entry per party, under the stripped stance, in order.
   */
  lemma FallbackExample(stance: string, a: string, b: string)
    requires !Contains(stance, ":") && !Contains(a, ",") && !Contains(b, ",")
    requires Strip(a) != "" && Strip(b) != ""
    requires !Contains(stance + ":" + a + "," + b, "\n")
    ensures Parteiparolen([], stance + ":" + a + "," + b) == [Entry(Strip(stance), Strip(a)), Entry(Strip(stance), Strip(b))]
  {
    var line := stance + ":" + a + "," + b;
    OneLineText(line);
    FallbackLine(stance, a, b);
    TwoParties(Strip(stance), a, b);
  }

  /** Text without a line break is a single fallback line. */
  lemma OneLineText(line: string)
    requires !Contains(line, "\n")
    ensures Parteiparolen([], line) == LineEntries(line)
  {
    assert Split(line, "\n") == [line];
    FlatMapSingle(LineEntries, line);
  }

  /** A line `stance:a,b` is split into the stance and the two parts. */
  lemma FallbackLine(stance: string, a: string, b: string)
    requires !Contains(stance, ":") && !Contains(a, ",") && !Contains(b, ",")
    ensures LineEntries(stance + ":" + a + "," + b) == PartyEntries(Strip(stance), [a, b])
  {
    var parties := a + "," + b;
    var line := stance + ":" + parties;
    assert stance + ":" + a + "," + b == line;
    FindAfterClean(stance, ":", parties);
    assert SplitOnce(line, ":") == (stance, parties);
    FindAfterClean(a, ",", b);
    SplitStep(parties, ",", |a|);
    assert parties[..|a|] == a && parties[|a| + 1..] == b;
    assert Split(b, ",") == [b];
    assert [a] + [b] == [a, b];
  }

  /** Two non-blank parts give one entry each, in order. */
  lemma TwoParties(stance: string, a: string, b: string)
    requires Strip(a) != "" && Strip(b) != ""
    ensures PartyEntries(stance, [a, b]) == [Entry(stance, Strip(a)), Entry(stance, Strip(b))]
  {
    var f := p => PartyEntry(stance, p);
    FlatMapSingle(f, a);
    FlatMapSingle(f, b);
    FlatMapAppend(f, [a], [b]);
    assert [a] + [b] == [a, b];
  }
}
