# publicai-mcp-server, modelled in Dafny

This project models the local logic of the publicai MCP server and of its data scripts. Each piece below is modelled from the point where its data has arrived until the value it returns or writes. The pieces are:

- **Vote scraper** (`scripts/extract_voting_data.py`). It finds upcoming popular initiatives on swissvotes.ch and parses each vote's detail page into a record. The record gets the party recommendations and, when a brochure is named, the brochure texts in German, French and Italian. The records are then assembled into the dataset.
- **Dataset validator** (`scripts/validate_voting_data.py`). It checks that every vote has nine required fields and three PDF links that answer with a PDF. It then reports the total number of problems.
- **Wiki tools** (`functions/wiki.py`). These cover:
  - tool-name normalisation and the table and template names derived from it;
  - the repair of resource JSON that lacks closing braces;
  - the template parameters and their check against the table's fields;
  - the generated wikitext;
  - the resource page and the where clause of a resource query.
- **Singapore carpark tools** (`functions/singapore.py`). The search reports its hits. The availability snapshot is filtered by carpark number and truncated to a limit, and each carpark's lots are reshaped.
- **Metrics anonymiser** (`scripts/package_dp_metrics.py`). It loads the metrics records. It drops their identifiers in place and replaces a non-empty `pattern` by 12 hex digits of its SHA-256 digest.

Several outside services and libraries are parameters of the model: HTTP, the HTML parser, the PDF text extractor, `json.loads`, `strptime`, the clock and SHA-256.

- An HTTP answer is an abstract reply: a status, parsed rows and cells, page texts, or decoded JSON. A request that raises is a separate value.
- Python dicts are insertion-ordered association lists (`Dicts`). Decoded JSON is the `Json` datatype with Python's truthiness (`JsonValues`).
- An exception that escapes an operation becomes `None` or a failure outcome. An exception that the source catches becomes the error value the source returns.
- Loops in the source are methods with loop invariants. Each one is proved equal to a specification function, and the lemmas state what the source promises about those functions.
- The metrics records are a list whose entries `anonymize` changes in place (`Metrics.RecordList`). The list is a sequence field of the class, and changing a record reassigns its position.

Where the code and its description disagree, the model follows the code:

- The listing page aborts discovery only on statuses 400 to 599, because that is what `raise_for_status` rejects. Any other status is parsed.
- The scraper writes its records under `federal_initiatives` to `current_initiatives.json`. The validator reads `federal_votes`, and the voting tools read `current_votes.json` (`servers/swiss-voting/swiss_voting_tools.py:7`). `Dataset.OutputNotWhereReadersLook` states this mismatch.
- A `<dt>` with empty text resets the stance, so the `<dd>` items after it are dropped.
- The tool name removes every `Tool:` from the tool string, not only the prefix.
- `LowerAscii` lower-cases only ASCII letters. For the test "contains `pdf`" this agrees with Python's `lower()`: only two non-ASCII characters lower-case to something holding an ASCII letter: the Kelvin sign K (U+212A) to `k`, and the dotted capital I (U+0130) to `i` followed by U+0307. Neither gives `p`, `d` or `f`.

## Model

| member | source | states |
|---|---|---|
| Parolen.ParseList | scripts/extract_voting_data.py:23-31 | the loop over one recommendation list yields exactly `ListEntries`: every `<dd>` paired with the latest non-empty `<dt>` before it |
| Parolen.ParseLine | scripts/extract_voting_data.py:35-39 | one fallback line yields `LineEntries`: it is split at its first colon, and there is one entry per non-blank comma part |
| Parolen.ParseParteiparolen | scripts/extract_voting_data.py:18-40 | the parser returns the entries of all lists in document order, or the fallback lines' entries when there is no list |
| Parolen.LeadingPartiesDropped | scripts/extract_voting_data.py:24-31 | `<dd>` items before the first `<dt>` of a list contribute nothing |
| Parolen.NoStanceNoEntries | scripts/extract_voting_data.py:24-31 | a list without any `<dt>` has no stance and gives no entry |
| Parolen.LeadingStanceIgnored | scripts/extract_voting_data.py:24-27 | leading `<dd>` items do not change the stance in force |
| Parolen.ListsEntriesAppend | scripts/extract_voting_data.py:23-24 | the stance restarts for every list, so the entries of consecutive lists concatenate |
| Parolen.ColonlessLineIgnored | scripts/extract_voting_data.py:35-36 | in the fallback a line without a colon contributes nothing, wherever it stands |
| Parolen.PartyEntriesShape | scripts/extract_voting_data.py:37-39 | every fallback entry is the stripped stance, ": ", and a non-blank stripped party |
| Parolen.ListEntriesSnoc | scripts/extract_voting_data.py:24-31 | a `<dt>` sets the stance in force and a `<dd>` adds one entry under it, when there is one |
| Parolen.StructuredExample | scripts/extract_voting_data.py:18-31 | two non-empty stances over two and one parties give one entry per party, each under the stance above it, in order |
| Parolen.FallbackExample | scripts/extract_voting_data.py:33-39 | with no list, a single line `stance:a,b` (like `Ja: A, B`) gives one entry per non-blank party, under the stripped stance, in order |
| Parolen.OneLineText | scripts/extract_voting_data.py:33-34 | text without a line break is read as one fallback line |
| Parolen.FallbackLine | scripts/extract_voting_data.py:36-38 | a line `stance:a,b` is split at its colon into the stance and at its comma into the two parts |
| Parolen.TwoParties | scripts/extract_voting_data.py:38-39 | two non-blank parts give one entry each, stripped, in order |
| Brochure.FirstBase | scripts/extract_voting_data.py:52-55 | the first language (in de, fr, it order) whose brochure file name occurs in the URL, or none |
| Brochure.ResolveLanguageUrl | scripts/extract_voting_data.py:51-55 | the language URL loop returns `LanguageUrl`: the URL with the first matching brochure name replaced |
| Brochure.NoBrochureNameKeepsUrl | scripts/extract_voting_data.py:51-55 | a URL naming no brochure file is used unchanged for every language |
| Brochure.BaseLanguageKeepsUrl | scripts/extract_voting_data.py:52-54 | the URL of the language the link already names is the link itself |
| Brochure.RewrittenUrlNamesLanguage | scripts/extract_voting_data.py:53-54 | a rewritten URL names the requested language's brochure |
| Brochure.CollectPageTexts | scripts/extract_voting_data.py:69-75 | the page loop keeps exactly the pages with truthy text, in order |
| Brochure.PageTextsNonEmpty | scripts/extract_voting_data.py:73-75 | every kept page text is non-empty and comes from a page |
| Brochure.LanguageText | scripts/extract_voting_data.py:59-78 | a language has a text if and only if its download answered 200, the PDF opened, and some page had text; that text is non-empty |
| Brochure.CollectTexts | scripts/extract_voting_data.py:48-88 | the texts dict has, for each requested language and only those, the text of that language's download |
| Brochure.ExtractPdfText | scripts/extract_voting_data.py:43-88 | `extract_pdf_text` returns `BrochureTexts`: the texts of de, fr and it fetched from their language URLs |
| Brochure.BrochureTextsShape | scripts/extract_voting_data.py:48-88 | the keys are among de, fr, it and every stored text is non-empty |
| Discovery.LinkVoteId | scripts/extract_voting_data.py:124-125 | a link yields an identifier if and only if it contains "/vote/"; the identifier contains no "/vote/" |
| Discovery.LinkVoteIdPlace | scripts/extract_voting_data.py:125 | the identifier is the text right after the first "/vote/", up to the next one |
| Discovery.FirstIndex | scripts/extract_voting_data.py:126-127 | the position of the first occurrence of an identifier |
| Discovery.FirstIndexSnoc | scripts/extract_voting_data.py:126-127 | appending does not move a first occurrence |
| Discovery.DedupSpec | scripts/extract_voting_data.py:123-127 | the identifier list has no duplicates, holds exactly the candidate identifiers, and keeps first-seen order |
| Discovery.DiscoverUpcoming | scripts/extract_voting_data.py:91-128 | the discovery loop returns `Discover`; a missing page or a status from 400 to 599 aborts |
| Discovery.DiscoveredAreUpcoming | scripts/extract_voting_data.py:99-127 | every identifier found comes from the last-column link of a row announcing an upcoming popular initiative, and none repeats |
| Discovery.UpcomingRowDiscovered | scripts/extract_voting_data.py:99-127 | every upcoming-initiative row whose last cell links to "/vote/" contributes its identifier |
| VoteDetail.TableKeys | scripts/extract_voting_data.py:158-221 | the record keys of the 29 labels, in the order of the label chain |
| VoteDetail.Lookup | scripts/extract_voting_data.py:158-221 | a label's entry is one the table holds; no entry means no table row has that label |
| VoteDetail.FieldFor | scripts/extract_voting_data.py:158-221 | a label is mapped to a record key of the table exactly when it is one of the 29 labels |
| VoteDetail.LastFor | scripts/extract_voting_data.py:145-221 | a value assigned by the rows is always under a table key |
| VoteDetail.ApplyRows | scripts/extract_voting_data.py:145-221 | after the rows, each key holds the last row's value for it, otherwise its old value; existing keys keep their places; only table keys are added |
| VoteDetail.VoteIdOf | scripts/extract_voting_data.py:139 | `vote_id` is a prefix of the identifier without '.'; when the identifier has a '.', it ends right where the first '.' is; otherwise it is the whole identifier |
| VoteDetail.BaseRecord | scripts/extract_voting_data.py:138-142 | a record starts with `vote_id`, `official_number`, `details_url` |
| VoteDetail.CellValue | scripts/extract_voting_data.py:153-221 | the value stored for a cell is `FieldValue` of its label kind: the text, the link or the text, the joined spans, or the recommendations |
| VoteDetail.ParseRow | scripts/extract_voting_data.py:147-221 | one row updates the record as `ApplyRow`: rows that are not two cells or are headers are skipped |
| VoteDetail.ParseTables | scripts/extract_voting_data.py:144-221 | the nested table and row loops give `ApplyRows` over all rows, in order, from the base record |
| VoteDetail.ParseVotePage | scripts/extract_voting_data.py:131-235 | `parse_vote_page` returns `VotePage`: none when the request raises, `{}` for a non-200 answer, else the staged record |
| VoteDetail.ReservedKeysOutsideTable | scripts/extract_voting_data.py:138-233 | the keys the page sets itself are not keys of the label table |
| VoteDetail.FieldsStage | scripts/extract_voting_data.py:138-221 | after the rows the three identity keys come first with their values; each table key holds its last row value; no other key exists |
| VoteDetail.TitleStage | scripts/extract_voting_data.py:223-225 | the heading sets `title_de` and changes nothing else |
| VoteDetail.BrochureStage | scripts/extract_voting_data.py:228-233 | the brochure step adds only `brochure_texts`, and only when the record has a truthy brochure link |
| VoteDetail.LaterStagesKeepOrder | scripts/extract_voting_data.py:223-233 | heading and brochure steps keep the existing keys in place |
| VoteDetail.LaterStagesKeepValues | scripts/extract_voting_data.py:223-233 | they change no key other than `title_de` and `brochure_texts` |
| VoteDetail.LaterStagesAddOwnKeys | scripts/extract_voting_data.py:223-233 | they add no key other than `title_de` and `brochure_texts` |
| VoteDetail.LaterStagesTitle | scripts/extract_voting_data.py:223-225 | a page with a heading has it as `title_de` in the result |
| VoteDetail.VotePageIdentity | scripts/extract_voting_data.py:132-142 | a 200 page's record starts with `vote_id`, `official_number`, `details_url` holding the short id, the id and the page URL |
| VoteDetail.VotePageFields | scripts/extract_voting_data.py:144-233 | a 200 page's record holds each table key's last row value and the heading; its keys are table keys or the page's own keys |
| VoteDetail.FailedPageEmpty | scripts/extract_voting_data.py:134-135 | a non-200 answer gives the empty record |
| Dataset.ToJson | scripts/extract_voting_data.py:240-248 | the dataset object has keys `metadata`, `federal_initiatives`, `usage_metrics` in that order |
| Dataset.Records | scripts/extract_voting_data.py:249-251 | the records exist if and only if every page parse succeeds; there is one per identifier, in order |
| Dataset.BuildDataset | scripts/extract_voting_data.py:238-252 | `build_dataset` returns `Build`: discovery, then one record per identifier |
| Dataset.DatasetFollowsDiscovery | scripts/extract_voting_data.py:238-252 | the dataset has one record per discovered identifier, with no duplicate, in discovery order, under the fixed metadata |
| Dataset.OutputNotWhereReadersLook | scripts/extract_voting_data.py:246-257 | the written dataset has no `federal_votes` key, and it is written to a file other than the one the voting tools read |
| Validator.Message | scripts/validate_voting_data.py:31-51 | each error message starts with "Missing or empty: " or with the field name |
| Validator.ValidateVoteFields | scripts/validate_voting_data.py:27-32 | the field loop returns `FieldErrors`, one per required field in order |
| Validator.FieldErrorsExact | scripts/validate_voting_data.py:27-32 | an error is reported exactly for a required field that is absent or falsy |
| Validator.NoFieldErrorsIffComplete | scripts/validate_voting_data.py:27-32 | no field error if and only if all nine fields are present and truthy |
| Validator.LinkCheck | scripts/validate_voting_data.py:36-51 | each PDF field yields at most one error, about that field |
| Validator.LinkErrorsOf | scripts/validate_voting_data.py:34-52 | at most one error per checked field, each about one of them |
| Validator.ValidatePdfLinks | scripts/validate_voting_data.py:34-52 | the link loop returns `LinkErrors`, stopping at a value whose `endswith` raises |
| Validator.LinkErrorsStop | scripts/validate_voting_data.py:36-40 | a crash on an earlier field is a crash of the whole check |
| Validator.LinkErrorsBound | scripts/validate_voting_data.py:34-52 | at most three link errors per vote, all about PDF fields |
| Validator.NoRequestForBadLink | scripts/validate_voting_data.py:37-40 | a missing, empty or non-`.pdf` link gives one error whatever the server would answer |
| Validator.RefusedHeadFallsBack | scripts/validate_voting_data.py:42-45 | a HEAD refused with 405 or 403 is replaced by the GET reply |
| Validator.PdfLinkPasses | scripts/validate_voting_data.py:41-49 | a `.pdf` link passes if and only if the final reply is 200 with a content type containing "pdf" in any case |
| Validator.TallyReport | scripts/validate_voting_data.py:60-68 | a finished run flags exactly the votes with errors, in vote order, each with its own error list (`Flagged`), and its total is the number of errors over them |
| Validator.TallyPassesIffClean | scripts/validate_voting_data.py:60-76 | "all passed" if and only if every vote has no error, if and only if no vote is flagged |
| Validator.CheckVote | scripts/validate_voting_data.py:63-65 | the errors of one vote are its field errors followed by its link errors |
| Validator.ValidateVotes | scripts/validate_voting_data.py:55-76 | `main` returns `MainAsWritten`: no summary when the votes are missing or a check or the title slice raises |
| Validator.TallyVotes | scripts/validate_voting_data.py:62-71 | the vote loop returns the tally of `VoteErrors`, with the title slice that can raise |
| Validator.TallySnoc | scripts/validate_voting_data.py:62-71 | one more vote adds its error count and flags it when it has errors |
| Validator.AbsorbVote | scripts/validate_voting_data.py:63-69 | one pass of the vote loop's body is `TallyNext`: a crashed check crashes the run, a clean vote changes nothing, and a vote with errors adds its count and is flagged unless its title slice raises |
| Validator.TallyStops | scripts/validate_voting_data.py:62-71 | a crash on an earlier vote is a crash of the run |
| Validator.TallyAgrees | scripts/validate_voting_data.py:62-76 | whenever the run as written finishes, the corrected run reports the same |
| Validator.TallyFinishes | scripts/validate_voting_data.py:62-76 | the corrected run finishes whenever every vote can be checked |
| Validator.OnlyIdErrors | scripts/validate_voting_data.py:7-52 | a vote with only `vote_id` has 11 errors and a title that cannot be sliced |
| Validator.TitleCrash | scripts/validate_voting_data.py:69 | on `{"federal_votes": [{"vote_id": "1"}]}` the run as written raises, while the corrected run reports 11 problems |
| Wiki.NormalizeTool | functions/wiki.py:236-237 | the normalised name starts with `Tool:`; a name with the prefix is kept, one without gets it |
| Wiki.NormalizeIdempotent | functions/wiki.py:68-69 | normalising twice equals normalising once |
| Wiki.ToolNameOfNormalized | functions/wiki.py:236-242 | the tool name, and with it the table and template names, is the same for `X` and `Tool:X` |
| Wiki.ToolNameOfPlainName | functions/wiki.py:240-242 | a name without `Tool:` is its own tool name after normalisation |
| Wiki.RepairBraces | functions/wiki.py:219-228 | a repair is made if and only if there are more `{` than `}`; it appends exactly the missing `}` and balances the counts |
| Wiki.ReadResourceData | functions/wiki.py:214-234 | text that parses is used; otherwise the repaired text is tried and, when it parses, used; only then is there an error, carrying the text received |
| Wiki.BaseParams | functions/wiki.py:264-271 | the parameters start with `tool` and `country` holding the given values, and `region` is present if and only if it is given and non-empty, holding the given region |
| Wiki.BuildTemplateParams | functions/wiki.py:264-274 | building the parameters in place gives `TemplateParams` |
| Wiki.TemplateParamsSpec | functions/wiki.py:264-274 | `tool` and `country` come first; the resource data wins over them; `region` holds the data's region, else the given region, and is absent when neither exists; nothing else appears |
| Wiki.CollectInvalidFields | functions/wiki.py:277-280 | the loop collects `InvalidFields`, in parameter order |
| Wiki.InvalidFieldsExact | functions/wiki.py:277-280 | a name is invalid if and only if it is a parameter the table does not have |
| Wiki.ParamLines | functions/wiki.py:291-293 | one `\|key=value` line per parameter, in order |
| Wiki.WikitextShape | functions/wiki.py:290-296 | the wikitext is `{{<template>`, a newline, each parameter line followed by a newline, then `}}` and a newline |
| Wiki.BuildWikitext | functions/wiki.py:290-296 | the line loop and the join give `Wikitext` |
| Wiki.ResourcePage | functions/wiki.py:299-301 | the page is `Resource:<tool name>/<country>`, followed by `/<region>` if and only if a region is given |
| Wiki.BuildWhereClause | functions/wiki.py:140-144 | the clause list joined with " AND " |
| Wiki.WhereClauseShape | functions/wiki.py:140-144 | the where clause is `tool='..' AND country='..'`, with ` AND region='..'` exactly when a region is given |
| Wiki.AddResource | functions/wiki.py:192-357 | the invalid-JSON error is returned exactly when the data cannot be read even after the repair, with the text received; the other outcomes are pinned by AddedWhenValid, ValidFieldsOutcome, AddedOnlyWhenValid, InvalidFieldsOutcome and InvalidFieldStopsEdit |
| Wiki.AddedWhenValid | functions/wiki.py:205-350 | `add_resource` on data that decodes to an object whose parameters are all fields of a non-empty table edits the resource page with the template wikitext; success gives the page, its URL with ':' turned into '/', the template and the stripped wikitext; a refusal gives the stripped wikitext; a failed request gives the HTTP or generic failure |
| Wiki.ValidFieldsOutcome | functions/wiki.py:276-330 | once no parameter is invalid, the outcome is that of the page edit |
| Wiki.AddedOnlyWhenValid | functions/wiki.py:214-343 | the wiki is edited only after the data decoded to an object and every parameter is a field of the table |
| Wiki.InvalidFieldsOutcome | functions/wiki.py:277-287 | once some parameter is invalid the outcome is the invalid-fields error or, when a field type cannot be read, the generic failure, whatever the edit would do |
| Wiki.InvalidFieldStopsEdit | functions/wiki.py:277-287 | an unknown parameter ends in the invalid-fields error (or the generic failure), listing it, whatever the edit would do |
| Carparks.RequestLimit | functions/singapore.py:36 | the search asks for `min(limit, 100)` results |
| Carparks.CarparkOf | functions/singapore.py:52-56 | a record gives a hit if and only if it is a dict |
| Carparks.CollectCarparks | functions/singapore.py:51-56 | the hit loop returns one hit per record, in order, or fails |
| Carparks.SearchCarparks | functions/singapore.py:18-65 | `search_singapore_carparks` returns `Search` |
| Carparks.SearchFoundSpec | functions/singapore.py:44-62 | a report comes only from an answer that says it succeeded; `showing` equals the number of records, and each hit is read from its record |
| Carparks.SearchUnsuccessful | functions/singapore.py:44-45 | an answer not reporting success gives the error with its details |
| Carparks.LotOf | functions/singapore.py:113-118 | a lot entry is reshaped if and only if it is a dict |
| Carparks.CollectLots | functions/singapore.py:113-118 | the lot loop returns one lot per entry, in order, or fails |
| Carparks.CollectStatuses | functions/singapore.py:105-120 | the carpark loop returns one status per carpark, in order, or fails |
| Carparks.CarparkAvailability | functions/singapore.py:68-129 | `get_singapore_carpark_availability` returns `Availability` |
| Carparks.NoItemsNoData | functions/singapore.py:87-89 | an empty or missing `items` gives the no-data error |
| Carparks.OnlyFirstItem | functions/singapore.py:91-93 | items after the first do not change the result |
| Carparks.SelectedCarry | functions/singapore.py:96-97 | the filter keeps exactly the carparks carrying the number |
| Carparks.SliceLength | functions/singapore.py:106 | `[:limit]` with a non-negative limit keeps the first `min(limit, n)` entries |
| Carparks.ReportSpec | functions/singapore.py:105-127 | `total_results` counts the kept carparks, `showing` is `min(limit, total_results)`, and the shown ones are the first, in order |
| Carparks.NumberFilterSpec | functions/singapore.py:96-102 | with a number, not-found happens if and only if nothing matches and carries the timestamp; every carpark shown has that number |
| Carparks.LotsMirror | functions/singapore.py:107-118 | a carpark's lots mirror its `carpark_info` entries one for one, in order, with '' for missing keys |
| Metrics.AnonymizedSpec | scripts/package_dp_metrics.py:28-32 | no `pid` or `pref_use` remains; a non-empty pattern becomes its digest prefix; other keys keep their values and the keys keep their order |
| Metrics.HashedPatternShape | scripts/package_dp_metrics.py:32 | a replaced pattern is always 12 lower-case hex digits |
| Metrics.AnonymizedFails | scripts/package_dp_metrics.py:29-32 | a record raises exactly when it is not a dict or its non-empty pattern is not a string |
| Metrics.ProcessedDropsIdentifiers | scripts/package_dp_metrics.py:29-32 | a dict loses `pid` and `pref_use` even when its pattern step raises |
| Metrics.AnonymizeAllSpec | scripts/package_dp_metrics.py:26-34 | when no record raises, the list after the loop is every record anonymised, same length, same order |
| Metrics.StoppedAtSpec | scripts/package_dp_metrics.py:28-32 | after a raise on record `k` the records up to `k` are processed and the later ones are unchanged |
| Metrics.RecordList.AnonymizeAt | scripts/package_dp_metrics.py:29-32 | the loop body changes only record `i`, to `Processed`, and succeeds exactly when the record can be anonymised |
| Metrics.RecordList.Anonymize | scripts/package_dp_metrics.py:26-34 | the loop succeeds exactly when every record can be anonymised, and then every record is anonymised in order; on a raise, the earlier records are done, the raising one has lost its identifiers, and the later ones are untouched |
| Metrics.RecordList.Load | scripts/package_dp_metrics.py:15-24 | the records are the decoded lines, in line order, skipping lines that do not decode |
| Metrics.LoadedFrom | scripts/package_dp_metrics.py:19-23 | a value is loaded exactly when some line decodes to it |
| Metrics.LoadedAtMostLines | scripts/package_dp_metrics.py:19-23 | there are never more records than lines |
| Dicts.IndexOf | scripts/package_dp_metrics.py:29-32 | a present key has exactly one position |
| Dicts.Get | scripts/package_dp_metrics.py:31 | `d.get(k)` finds a value exactly when the key is present |
| Dicts.Put | scripts/package_dp_metrics.py:32 | `d[k] = v` stores `v` under `k`, leaves the other keys' values, keeps a present key's place and appends a new key |
| Dicts.PutKeepsKeys | functions/wiki.py:269-270 | assignment keeps the existing keys in place and adds at most the assigned key |
| Dicts.Update | functions/wiki.py:273 | `d.update(e)`: the values of `e` win, the keys of `d` keep their places, and `e`'s new keys follow in `e`'s order |
| Dicts.Remove | scripts/package_dp_metrics.py:29-30 | `d.pop(k, None)` leaves the keys other than `k`, in order |
| Dicts.RemoveSpec | scripts/package_dp_metrics.py:29-30 | after the pop the key is absent, every other key keeps its value, and popping an absent key changes nothing |
| Text.Find | scripts/extract_voting_data.py:125 | the position of the first occurrence, or none when there is no occurrence |
| Text.SplitCount | scripts/extract_voting_data.py:125 | a split has more than one field exactly when the separator occurs |
| Text.SplitFieldsClean | scripts/extract_voting_data.py:125 | no field of a split contains the separator |
| Text.JoinSplit | scripts/extract_voting_data.py:34 | splitting and re-joining with the same separator gives back the string |
| Text.SplitHeadIsPrefix | scripts/extract_voting_data.py:139 | the first field of a split is a prefix of the string |
| Text.SplitOnce | scripts/extract_voting_data.py:37 | `split(sep, 1)` gives the text before the first occurrence, which has no occurrence, and the text after it |
| Text.ReplaceAbsent | scripts/extract_voting_data.py:54 | replacing a pattern that does not occur changes nothing |
| Text.ReplaceSame | scripts/extract_voting_data.py:54 | replacing a pattern by itself changes nothing |
| Text.ReplaceIntroduces | scripts/extract_voting_data.py:54 | replacing an occurring pattern leaves the replacement in the result |
| Text.Strip | functions/wiki.py:340 | `strip()` removes exactly the surrounding white space: the result is a middle part of the string with only white space before and after it, empty exactly for a blank string and otherwise starting and ending with non-space |
| Text.FindAfterClean | scripts/extract_voting_data.py:37 | a one-character separator right after a part without it is its first occurrence |
| Text.CountCharAppend | functions/wiki.py:220-221 | `count` of a concatenation is the sum of the counts |

## Left out

- HTTP requests, the CSRF token request and the wiki edit. Each is a parameter that gives an abstract reply, and timeouts and retries are not modelled.
- The HTML parser. The listing rows, the detail-page cells (text, links, spans, recommendation lists) and the `<h1>` text are given as data, and `get_text` spacing is assumed to be done.
- The PDF text extractor and the temporary files. Each page's extracted text is given, and a PDF that cannot be opened has no page list.
- `json.loads`, `json.dump`, file reads and writes, `glob` and `os.makedirs`. Decoding is a parameter, and output files are only named.
- The clock. `today`, the metadata timestamp and `strptime` are parameters.
- SHA-256 and UTF-8 encoding. The digest is a parameter that returns 64 hex digits.
- Printing and progress messages. The validator's printed report is modelled as its `Summary` (total and flagged error lists). In the validator, error message texts that embed `str(e)` of an exception are a parameter.
- Fractional JSON numbers are not modelled. Python's `str()` of a list or dict is a parameter.
- `use_tool` and `list_tools_by_community` in `functions/wiki.py` are modelled only through the where clause and the names they share with `add_resource`. The tool lookup and the page fetch are HTTP requests.
- Wiki.AddResource: the success result does not carry `revision_id` or `message`, and the refusal result does not carry `details`. These copy or format the wiki's reply and are not modelled.
- Wiki.AddResource: the invalid-JSON, HTTP-error and generic-failure outcomes carry no message text. The `str(e)` of the decoding error, the HTTP `code`, `reason` and `details` body, and the `str(e)` of other exceptions are not modelled.
- Wiki.AddResource: the `field_types` listing of the invalid-fields error is not returned. Only whether it can be built is modelled.
- Wiki.AddResource: resource data that decodes to something other than an object ends in the generic failure. Python's `dict.update` would also accept a list of pairs.
- Wiki.AddResource: the `cargofields` value is taken to be an object. Membership tests against a list or a string are not modelled.
- Carparks: the `SearchFailed` and `AvailabilityFailed` outcomes carry no message text. The `str(e)` of the exception behind them is not modelled.
- Metrics.RecordList.Anonymize: each record is a value of its own in the list, so object identity is not modelled. A list holding the same dict twice would hash its pattern twice, and `load_records` never builds such a list.
- Metrics.RecordList.Anonymize: does not return the list. The source returns the same list it was given, so the list after the call is the result.
- `functions/swiss_transport.py`, `main.py` and the server bootstrap are not part of this model. They only rename fields of API answers and register tools.

## Findings

| source | as written | input that shows it | evidently intended | confidence | as-written member | corrected member |
|---|---|---|---|---|---|---|
| scripts/validate_voting_data.py:69 | the report line slices `vote.get('offizieller_titel')[:50]`, which raises when a vote with errors has no title | `{"federal_votes": [{"vote_id": "1"}]}`: the vote has 11 errors and no `offizieller_titel`, so the slice raises `TypeError` and no total is reported | the title is only shown, so a missing title should not stop the run; the run should report the 11 problems | not executed | Validator.MainAsWritten (Validator.TitleCrash) | Validator.Main (Validator.TallyAgrees, Validator.TallyFinishes) |
