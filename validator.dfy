/**
 * The dataset validator (`validate_voting_data.py`): every vote must carry nine required fields
 * with truthy values, and each of its three PDF fields must be a `.pdf` link that answers with
 * status 200 and a PDF content type; the run reports the total number of problems.
 */
module Validator {
  import opened Options
  import opened Text
  import opened Dicts
  import opened Seqs
  import opened JsonValues

  const RequiredFields: seq<string> := [
    "vote_id", "offizieller_titel", "abstimmungsdatum", "rechtsform", "politikbereich",
    "abstimmungstext_pdf", "botschaft_des_bundesrats_pdf", "abstimmungsbuechlein_pdf", "parteiparolen"]

  const PdfFields: seq<string> := ["abstimmungstext_pdf", "botschaft_des_bundesrats_pdf", "abstimmungsbuechlein_pdf"]

  /** The key under which the validator expects the votes. */
  const VotesKey := "federal_votes"

  /** One reported problem; `Message` gives the line the validator records for it. */
  datatype ValidationError =
    | MissingOrEmpty(field: string)
    | NotPdfLink(field: string, value: Option<Json>)
    | RequestFailed(field: string, url: string, status: int)
    | NotPdfContent(field: string, url: string, contentType: Option<string>)
    | FailedRequest(field: string, reason: string)

  /** The recorded text of an error; `showContainer` prints a list or dict as Python does. */
  function Message(e: ValidationError, showContainer: Json -> string): (m: string)
    ensures StartsWith(m, if e.MissingOrEmpty? then "Missing or empty: " else e.field)
  {
    match e
    case MissingOrEmpty(f) => "Missing or empty: " + f
    case NotPdfLink(f, v) => f + " is not a valid PDF link: " + (if v.None? then "None" else PyStr(v.value, showContainer))
    case RequestFailed(f, url, status) => f + " request failed: " + url + " (status " + Decimal(status) + ")"
    case NotPdfContent(f, url, ct) => f + " not returning PDF content: " + url + " (type " + (if ct.None? then "None" else ct.value) + ")"
    case FailedRequest(f, reason) => f + " failed request: " + reason
  }

  /** A required field is missing or falsy. */
  predicate Missing(vote: Dict<Json>, f: string) {
    Get(vote, f).None? || !Truthy(Get(vote, f).value)
  }

  function FieldError(vote: Dict<Json>, f: string): seq<ValidationError>
  {
    if Missing(vote, f) then [MissingOrEmpty(f)] else []
  }

  /** The field errors of a vote: one per missing or falsy required field, in the order of the list. */
  function FieldErrors(vote: Dict<Json>): seq<ValidationError>
  {
    FlatMap(f => FieldError(vote, f), RequiredFields)
  }

  /** `validate_vote_fields`. */
  method ValidateVoteFields(vote: Dict<Json>) returns (errors: seq<ValidationError>)
    ensures errors == FieldErrors(vote)
  {
    errors := [];
    var n := 0;
    while n < |RequiredFields|
      invariant 0 <= n <= |RequiredFields|
      invariant errors == FlatMap(f => FieldError(vote, f), RequiredFields[..n])
    {
      var field := RequiredFields[n];
      FlatMapSnoc(f => FieldError(vote, f), RequiredFields, n);
      if Get(vote, field).None? || !Truthy(Get(vote, field).value) {
        errors := errors + [MissingOrEmpty(field)];
      }
      n := n + 1;
    }
    assert RequiredFields[..n] == RequiredFields;
  }

  /** An error is reported for exactly the required fields that are missing or falsy. */
  lemma FieldErrorsExact(vote: Dict<Json>, e: ValidationError)
    ensures e in FieldErrors(vote) <==> e.MissingOrEmpty? && e.field in RequiredFields && Missing(vote, e.field)
  {
    if e in FieldErrors(vote) {
      FlatMapMember(f => FieldError(vote, f), RequiredFields, e);
    }
    if e.MissingOrEmpty? && e.field in RequiredFields && Missing(vote, e.field) {
      var i :| 0 <= i < |RequiredFields| && RequiredFields[i] == e.field;
      var g := f => FieldError(vote, f);
      FlatMapSnoc(g, RequiredFields, i);
      FlatMapAppend(g, RequiredFields[..i + 1], RequiredFields[i + 1..]);
      assert RequiredFields == RequiredFields[..i + 1] + RequiredFields[i + 1..];
    }
  }

  /** A vote with all nine required fields truthy has no field error, and only such a vote. */
  lemma NoFieldErrorsIffComplete(vote: Dict<Json>)
    ensures FieldErrors(vote) == [] <==> forall f :: f in RequiredFields ==> !Missing(vote, f)
  {
    forall f | f in RequiredFields && Missing(vote, f) ensures FieldErrors(vote) != [] {
      FieldErrorsExact(vote, MissingOrEmpty(f));
    }
    if FieldErrors(vote) != [] {
      FieldErrorsExact(vote, FieldErrors(vote)[0]);
    }
  }

  /** The answer to a HEAD or GET request: it raised (with the exception text), or a status and content type. */
  datatype HttpReply = Raised(reason: string) | Reply(status: int, contentType: Option<string>)

  /** The content type names a PDF: "pdf" occurs in it, lower-cased; no content type counts as "". */
  predicate PdfContentType(ct: Option<string>) {
    Contains(LowerAscii(ct.GetOr("")), "pdf")
  }

  /** The reply the check goes by: the HEAD reply, or the GET reply when HEAD is refused with 405 or 403. */
  function FinalReply(url: string, head: string -> HttpReply, get: string -> HttpReply): HttpReply
  {
    var r := head(url);
    if r.Reply? && (r.status == 405 || r.status == 403) then get(url) else r
  }

  /**
   * The error one PDF field gives: None when the check itself fails (a truthy value that is not a
   * string has no `endswith`), otherwise the error list, empty or of one error.
   */
  function LinkCheck(vote: Dict<Json>, f: string, head: string -> HttpReply, get: string -> HttpReply)
    : (r: Option<seq<ValidationError>>)
    ensures r.Some? ==> |r.value| <= 1 && forall e :: e in r.value ==> e.field == f
  {
    var url := Get(vote, f);
    if url.None? || !Truthy(url.value) then Some([NotPdfLink(f, url)])
    else if !url.value.JStr? then None
    else if !EndsWith(url.value.s, ".pdf") then Some([NotPdfLink(f, url)])
    else
      match FinalReply(url.value.s, head, get)
      case Raised(reason) => Some([FailedRequest(f, reason)])
      case Reply(status, ct) =>
        if status != 200 then Some([RequestFailed(f, url.value.s, status)])
        else if !PdfContentType(ct) then Some([NotPdfContent(f, url.value.s, ct)])
        else Some([])
  }

  /** The link errors of the fields `fields`, in order; None when one of the checks fails. */
  function LinkErrorsOf(vote: Dict<Json>, fields: seq<string>, head: string -> HttpReply, get: string -> HttpReply)
    : (r: Option<seq<ValidationError>>)
    ensures r.Some? ==> |r.value| <= |fields|
    ensures r.Some? ==> forall e :: e in r.value ==> e.field in fields
  {
    if |fields| == 0 then Some([])
    else
      var init := fields[..|fields| - 1];
      match LinkErrorsOf(vote, init, head, get)
      case None => None
      case Some(before) =>
        match LinkCheck(vote, fields[|fields| - 1], head, get)
        case None => None
        case Some(errs) => Some(before + errs)
  }

  function LinkErrors(vote: Dict<Json>, head: string -> HttpReply, get: string -> HttpReply): Option<seq<ValidationError>>
  {
    LinkErrorsOf(vote, PdfFields, head, get)
  }

  /** `validate_pdf_links`: `head` and `get` stand for the two requests. */
  method ValidatePdfLinks(vote: Dict<Json>, head: string -> HttpReply, get: string -> HttpReply)
    returns (errors: Option<seq<ValidationError>>)
    ensures errors == LinkErrors(vote, head, get)
  {
    var found: seq<ValidationError> := [];
    var n := 0;
    while n < |PdfFields|
      invariant 0 <= n <= |PdfFields|
      invariant LinkErrorsOf(vote, PdfFields[..n], head, get) == Some(found)
    {
      var field := PdfFields[n];
      assert PdfFields[..n + 1][..n] == PdfFields[..n];
      ghost var check := LinkCheck(vote, field, head, get);
      assert found + [] == found;
      var url := Get(vote, field);
      n := n + 1;
      if url.None? || !Truthy(url.value) {
        found := found + [NotPdfLink(field, url)];
        continue;
      }
      if !url.value.JStr? {
        LinkErrorsStop(vote, PdfFields, n, head, get);
        return None;
      }
      if !EndsWith(url.value.s, ".pdf") {
        found := found + [NotPdfLink(field, url)];
        continue;
      }
      var r := head(url.value.s);
      if r.Reply? && (r.status == 405 || r.status == 403) {
        r := get(url.value.s);
      }
      assert r == FinalReply(url.value.s, head, get);
      if r.Raised? {
        found := found + [FailedRequest(field, r.reason)];
      } else if r.status != 200 {
        found := found + [RequestFailed(field, url.value.s, r.status)];
      } else if !PdfContentType(r.contentType) {
        found := found + [NotPdfContent(field, url.value.s, r.contentType)];
      }
    }
    assert PdfFields[..n] == PdfFields;
    return Some(found);
  }

  /** A check that fails ends the link checks of the remaining fields as well. */
  lemma {:induction false} LinkErrorsStop(vote: Dict<Json>, fields: seq<string>, n: nat,
                                          head: string -> HttpReply, get: string -> HttpReply)
    requires n <= |fields| && LinkErrorsOf(vote, fields[..n], head, get).None?
    ensures LinkErrorsOf(vote, fields, head, get).None?
    decreases |fields| - n
  {
    if n < |fields| {
      assert fields[..n + 1][..n] == fields[..n];
      LinkErrorsStop(vote, fields, n + 1, head, get);
    } else {
      assert fields[..n] == fields;
    }
  }

  /** At most one error per PDF field, so at most three, each naming one of the PDF fields. */
  lemma LinkErrorsBound(vote: Dict<Json>, head: string -> HttpReply, get: string -> HttpReply)
    requires LinkErrors(vote, head, get).Some?
    ensures |LinkErrors(vote, head, get).value| <= 3
    ensures forall e :: e in LinkErrors(vote, head, get).value ==> e.field in PdfFields
  {
  }

  /** A field that is missing, falsy or not a `.pdf` string is reported without any request being made. */
  lemma NoRequestForBadLink(vote: Dict<Json>, f: string, head: string -> HttpReply, get: string -> HttpReply,
                            head': string -> HttpReply, get': string -> HttpReply)
    requires Get(vote, f).None? || !Truthy(Get(vote, f).value) || (Get(vote, f).value.JStr? && !EndsWith(Get(vote, f).value.s, ".pdf"))
    ensures LinkCheck(vote, f, head, get) == LinkCheck(vote, f, head', get') == Some([NotPdfLink(f, Get(vote, f))])
  {
  }

  /** A HEAD refused with 405 or 403 is retried with GET, and the GET answer decides. */
  lemma RefusedHeadFallsBack(url: string, head: string -> HttpReply, get: string -> HttpReply)
    requires head(url).Reply? && (head(url).status == 405 || head(url).status == 403)
    ensures FinalReply(url, head, get) == get(url)
  {
  }

  /** A `.pdf` link passes exactly when the final answer is 200 with a PDF content type. */
  lemma PdfLinkPasses(vote: Dict<Json>, f: string, url: string, head: string -> HttpReply, get: string -> HttpReply)
    requires Get(vote, f) == Some(JStr(url)) && EndsWith(url, ".pdf")
    ensures LinkCheck(vote, f, head, get) == Some([]) <==>
      FinalReply(url, head, get).Reply? && FinalReply(url, head, get).status == 200
      && PdfContentType(FinalReply(url, head, get).contentType)
  {
    assert url != "" by { assert |url| >= 4; }
  }

  /** The result of a validation run: the total number of problems and the error list of each flagged vote. */
  datatype Summary = Summary(total: nat, flagged: seq<seq<ValidationError>>)
  {
    /** The run ends with the "all votes passed" message rather than the total. */
    predicate AllPassed() { total == 0 }
  }

  /** The errors of one vote; None when checking it fails (a vote that is not an object, or a bad link value). */
  function VoteErrors(vote: Json, head: string -> HttpReply, get: string -> HttpReply): Option<seq<ValidationError>>
  {
    if !vote.JObj? then None
    else
      match LinkErrors(vote.fields, head, get)
      case None => None
      case Some(le) => Some(FieldErrors(vote.fields) + le)
  }

  /** `vote.get('offizieller_titel')[:50]` can be evaluated: the title is a string or a list. */
  predicate TitleSliceable(vote: Json) {
    vote.JObj? && Get(vote.fields, "offizieller_titel").Some?
    && (Get(vote.fields, "offizieller_titel").value.JStr? || Get(vote.fields, "offizieller_titel").value.JArr?)
  }

  function SumLengths(xs: seq<seq<ValidationError>>): nat
  {
    if |xs| == 0 then 0 else SumLengths(xs[..|xs| - 1]) + |xs[|xs| - 1]|
  }

  /**
   * The loop over the votes, `check` giving each vote's errors. With `titleMustSlice` a flagged vote whose title cannot be sliced ends
   * the run, as the printing of the vote header does; without it the header is printed regardless.
   */
  function Tally(votes: seq<Json>, check: Json -> Option<seq<ValidationError>>, titleMustSlice: bool)
    : Option<Summary>
  {
    if |votes| == 0 then Some(Summary(0, []))
    else
      match Tally(votes[..|votes| - 1], check, titleMustSlice)
      case None => None
      case Some(s) => TallyNext(s, votes[|votes| - 1], check(votes[|votes| - 1]), titleMustSlice)
  }

  /** One vote's contribution to the run, given the errors found in it (None: the check crashed). */
  function TallyNext(s: Summary, vote: Json, checked: Option<seq<ValidationError>>, titleMustSlice: bool): Option<Summary>
  {
    match checked
    case None => None
    case Some(errs) =>
      if |errs| == 0 then Some(s)
      else if titleMustSlice && !TitleSliceable(vote) then None
      else Some(Summary(s.total + |errs|, s.flagged + [errs]))
  }

  /** A vote's entry in the report: its error list when the check finds errors, nothing otherwise. */
  function FlaggedOf(check: Json -> Option<seq<ValidationError>>, vote: Json): seq<seq<ValidationError>>
  {
    match check(vote)
    case Some(errs) => if |errs| > 0 then [errs] else []
    case None => []
  }

  /** The error lists of the votes with errors, in vote order. */
  function Flagged(votes: seq<Json>, check: Json -> Option<seq<ValidationError>>): seq<seq<ValidationError>>
  {
    FlatMap(v => FlaggedOf(check, v), votes)
  }

  /**
   * A finished run flags exactly the votes with errors, in order, each with its own error list, and
   * its total is the number of errors over them; no flagged vote has none.
   */
  lemma {:induction false} TallyReport(votes: seq<Json>, check: Json -> Option<seq<ValidationError>>, titleMustSlice: bool)
    requires Tally(votes, check, titleMustSlice).Some?
    ensures Tally(votes, check, titleMustSlice).value.flagged == Flagged(votes, check)
    ensures Tally(votes, check, titleMustSlice).value.total == SumLengths(Flagged(votes, check))
    ensures forall e :: e in Tally(votes, check, titleMustSlice).value.flagged ==> |e| > 0
  {
    if |votes| > 0 {
      var init := votes[..|votes| - 1];
      TallyReport(init, check, titleMustSlice);
      var s := Tally(init, check, titleMustSlice).value;
      var errs := check(votes[|votes| - 1]).value;
      assert Flagged(votes, check) == Flagged(init, check) + FlaggedOf(check, votes[|votes| - 1]);
      if |errs| > 0 {
        assert (s.flagged + [errs])[..|s.flagged|] == s.flagged;
      }
    }
  }

  /** The run passes exactly when every vote has no error at all. */
  lemma {:induction false} TallyPassesIffClean(votes: seq<Json>, check: Json -> Option<seq<ValidationError>>, titleMustSlice: bool)
    requires Tally(votes, check, titleMustSlice).Some?
    ensures Tally(votes, check, titleMustSlice).value.AllPassed() <==> forall i :: 0 <= i < |votes| ==> check(votes[i]) == Some([])
    ensures Tally(votes, check, titleMustSlice).value.AllPassed() <==> |Tally(votes, check, titleMustSlice).value.flagged| == 0
  {
    if |votes| > 0 {
      var init := votes[..|votes| - 1];
      TallyPassesIffClean(init, check, titleMustSlice);
      assert forall i :: 0 <= i < |init| ==> votes[i] == init[i];
    }
  }

  /**
   * The votes under `federal_votes`: a list's items; an empty string or object has none. Any other
   * value, a missing key or a document that is not an object ends the run.
   */
  function VotesOf(data: Json): Option<seq<Json>>
  {
    if !data.JObj? || Get(data.fields, VotesKey).None? then None
    else
      match Get(data.fields, VotesKey).value
      case JArr(items) => Some(items)
      case JStr(s) => if s == "" then Some([]) else None
      case JObj(fs) => if |fs| == 0 then Some([]) else None
      case _ => None
  }

  /** `main` as written. */
  function MainAsWritten(data: Json, head: string -> HttpReply, get: string -> HttpReply): Option<Summary>
  {
    match VotesOf(data)
    case None => None
    case Some(votes) => Tally(votes, v => VoteErrors(v, head, get), true)
  }

  /** `main` with the vote header printed for any title. */
  function Main(data: Json, head: string -> HttpReply, get: string -> HttpReply): Option<Summary>
  {
    match VotesOf(data)
    case None => None
    case Some(votes) => Tally(votes, v => VoteErrors(v, head, get), false)
  }

  /** The field errors followed by the link errors of one vote. */
  method CheckVote(vote: Json, head: string -> HttpReply, get: string -> HttpReply) returns (errors: Option<seq<ValidationError>>)
    ensures errors == VoteErrors(vote, head, get)
  {
    if !vote.JObj? {
      return None;
    }
    var fieldErrors := ValidateVoteFields(vote.fields);
    var linkErrors := ValidatePdfLinks(vote.fields, head, get);
    if linkErrors.None? {
      return None;
    }
    return Some(fieldErrors + linkErrors.value);
  }

  /** `main`'s loop as written, accumulating `total_errors`. */
  method ValidateVotes(data: Json, head: string -> HttpReply, get: string -> HttpReply) returns (outcome: Option<Summary>)
    ensures outcome == MainAsWritten(data, head, get)
  {
    var votes := VotesOf(data);
    if votes.None? {
      return None;
    }
    outcome := TallyVotes(votes.value, head, get);
  }

  method TallyVotes(votes: seq<Json>, head: string -> HttpReply, get: string -> HttpReply) returns (outcome: Option<Summary>)
    ensures outcome == Tally(votes, v => VoteErrors(v, head, get), true)
  {
    ghost var check := v => VoteErrors(v, head, get);
    var summary := Summary(0, []);
    var i := 0;
    while i < |votes|
      invariant 0 <= i <= |votes|
      invariant Tally(votes[..i], check, true) == Some(summary)
    {
      var checked := CheckVote(votes[i], head, get);
      var next := AbsorbVote(summary, votes[i], checked);
      TallySnoc(votes, i, check, summary);
      i := i + 1;
      if next.None? {
        TallyStops(votes, i, check);
        return None;
      }
      summary := next.value;
    }
    assert votes[..i] == votes;
    return Some(summary);
  }

  /**
   * The body of `main`'s loop for one checked vote: a vote with errors adds them to `total_errors`, and its header
   * is printed, which needs the title sliced.
   */
  method AbsorbVote(summary: Summary, vote: Json, checked: Option<seq<ValidationError>>) returns (next: Option<Summary>)
    ensures next == TallyNext(summary, vote, checked, true)
  {
    if checked.None? {
      return None;
    }
    var allErrors := checked.value;
    if |allErrors| == 0 {
      return Some(summary);
    }
    var totalErrors := summary.total + |allErrors|;
    if !TitleSliceable(vote) {
      return None;
    }
    return Some(Summary(totalErrors, summary.flagged + [allErrors]));
  }

  /** One more vote in the run. */
  lemma TallySnoc(votes: seq<Json>, i: nat, check: Json -> Option<seq<ValidationError>>, s: Summary)
    requires i < |votes| && Tally(votes[..i], check, true) == Some(s)
    ensures Tally(votes[..i + 1], check, true) == TallyNext(s, votes[i], check(votes[i]), true)
  {
    assert votes[..i + 1][..i] == votes[..i];
  }

  /** Once the run has stopped, it stays stopped. */
  lemma {:induction false} TallyStops(votes: seq<Json>, n: nat, check: Json -> Option<seq<ValidationError>>)
    requires n <= |votes| && Tally(votes[..n], check, true).None?
    ensures Tally(votes, check, true).None?
    decreases |votes| - n
  {
    if n < |votes| {
      assert votes[..n + 1][..n] == votes[..n];
      TallyStops(votes, n + 1, check);
    } else {
      assert votes[..n] == votes;
    }
  }

  /** Wherever the run as written finishes, the corrected run finishes with the same report. */
  lemma {:induction false} TallyAgrees(votes: seq<Json>, check: Json -> Option<seq<ValidationError>>)
    requires Tally(votes, check, true).Some?
    ensures Tally(votes, check, false) == Tally(votes, check, true)
  {
    if |votes| > 0 {
      TallyAgrees(votes[..|votes| - 1], check);
    }
  }

  /** The corrected run stops only on a vote that cannot be checked at all. */
  lemma {:induction false} TallyFinishes(votes: seq<Json>, check: Json -> Option<seq<ValidationError>>)
    requires forall i :: 0 <= i < |votes| ==> check(votes[i]).Some?
    ensures Tally(votes, check, false).Some?
  {
    if |votes| > 0 {
      TallyFinishes(votes[..|votes| - 1], check);
    }
  }

  /** When every field is absent, each gives its one "not a valid PDF link" error. */
  lemma {:induction false} AbsentLinks(vote: Dict<Json>, fields: seq<string>, head: string -> HttpReply, get: string -> HttpReply)
    requires forall i :: 0 <= i < |fields| ==> fields[i] !in Keys(vote)
    ensures LinkErrorsOf(vote, fields, head, get).Some?
    ensures |LinkErrorsOf(vote, fields, head, get).value| == |fields|
  {
    if |fields| > 0 {
      AbsentLinks(vote, fields[..|fields| - 1], head, get);
    }
  }

  /** When every field is absent, each gives its one "Missing or empty" error. */
  lemma {:induction false} AbsentFields(vote: Dict<Json>, fields: seq<string>)
    requires forall i :: 0 <= i < |fields| ==> fields[i] !in Keys(vote)
    ensures |FlatMap(f => FieldError(vote, f), fields)| == |fields|
  {
    if |fields| > 0 {
      AbsentFields(vote, fields[..|fields| - 1]);
    }
  }

  /** The vote with only its id has eleven errors and no title. */
  lemma OnlyIdErrors(head: string -> HttpReply, get: string -> HttpReply)
    ensures VoteErrors(JObj([("vote_id", JStr("1"))]), head, get).Some?
    ensures |VoteErrors(JObj([("vote_id", JStr("1"))]), head, get).value| == 11
    ensures !TitleSliceable(JObj([("vote_id", JStr("1"))]))
  {
    var vote: Dict<Json> := [("vote_id", JStr("1"))];
    assert Keys(vote) == ["vote_id"];
    var g := f => FieldError(vote, f);
    var rest := RequiredFields[1..];
    assert RequiredFields == ["vote_id"] + rest;
    AbsentFields(vote, rest);
    FlatMapAppend(g, ["vote_id"], rest);
    assert FlatMap(g, ["vote_id"]) == FlatMap(g, []) + g("vote_id");
    AbsentLinks(vote, PdfFields, head, get);
  }

  /**
   * A vote with only its id: eight required fields are missing and the three PDF fields are no
   * links, so it has eleven errors; the run as written then fails on its missing title, while the
   * corrected run reports the eleven.
   */
  lemma TitleCrash(head: string -> HttpReply, get: string -> HttpReply)
    ensures MainAsWritten(JObj([(VotesKey, JArr([JObj([("vote_id", JStr("1"))])]))]), head, get).None?
    ensures Main(JObj([(VotesKey, JArr([JObj([("vote_id", JStr("1"))])]))]), head, get).Some?
    ensures Main(JObj([(VotesKey, JArr([JObj([("vote_id", JStr("1"))])]))]), head, get).value.total == 11
  {
    OnlyIdErrors(head, get);
    var votes := [JObj([("vote_id", JStr("1"))])];
    assert votes[..0] == [];
    var top: Dict<Json> := [(VotesKey, JArr(votes))];
    assert Keys(top) == [VotesKey];
    assert VotesOf(JObj(top)) == Some(votes);
  }
}
