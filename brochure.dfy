/**
 * The brochure step of the vote scraper (`extract_pdf_text`): the official voting brochure is
 * fetched in German, French and Italian by rewriting the file name in its URL, and the text of
 * every page that has some is kept, pages separated by a blank line.
 */
module Brochure {
  import opened Options
  import opened Text
  import opened Dicts
  import opened Seqs

  /** The brochure languages, in the order they are tried. */
  const Languages: seq<string> := ["de", "fr", "it"]

  /** The file name of the brochure in one language, `brochure-<lang>.pdf`. */
  function BrochureFile(lang: string): string {
    "brochure-" + lang + ".pdf"
  }

  /**
   * The position in `cands` of the first language whose brochure file name occurs in `url`,
   * or None when no candidate's does.
   */
  function FirstBase(url: string, cands: seq<string>): (r: Option<nat>)
    ensures r.Some? ==> r.value < |cands| && Contains(url, BrochureFile(cands[r.value]))
    ensures r.Some? ==> forall j :: 0 <= j < r.value ==> !Contains(url, BrochureFile(cands[j]))
    ensures r.None? ==> forall j :: 0 <= j < |cands| ==> !Contains(url, BrochureFile(cands[j]))
    decreases |cands|
  {
    if |cands| == 0 then None
    else if Contains(url, BrochureFile(cands[0])) then Some(0)
    else
      match FirstBase(url, cands[1..])
      case None => None
      case Some(i) => Some(i + 1)
  }

  /**
   * The URL of the brochure in `lang`: the brochure file name of the first base language found in
   * `url` replaced everywhere by that of `lang`; `url` itself when it names no brochure file.
   */
  function LanguageUrl(url: string, lang: string): string
  {
    match FirstBase(url, Languages)
    case None => url
    case Some(i) => ReplaceAll(url, BrochureFile(Languages[i]), BrochureFile(lang))
  }

  /** The URL rewriting loop: the first base language found wins (`break`). */
  method ResolveLanguageUrl(pdfUrl: string, lang: string) returns (langUrl: string)
    ensures langUrl == LanguageUrl(pdfUrl, lang)
  {
    langUrl := pdfUrl;
    var b := 0;
    while b < |Languages|
      invariant 0 <= b <= |Languages|
      invariant langUrl == pdfUrl
      invariant forall j :: 0 <= j < b ==> !Contains(pdfUrl, BrochureFile(Languages[j]))
    {
      if Contains(pdfUrl, BrochureFile(Languages[b])) {
        langUrl := ReplaceAll(pdfUrl, BrochureFile(Languages[b]), BrochureFile(lang));
        assert FirstBase(pdfUrl, Languages) == Some(b);
        return;
      }
      b := b + 1;
    }
  }

  /** A URL that names no brochure file is used unchanged for every language. */
  lemma NoBrochureNameKeepsUrl(url: string, lang: string)
    requires forall l :: l in Languages ==> !Contains(url, BrochureFile(l))
    ensures LanguageUrl(url, lang) == url
  {
    forall j | 0 <= j < |Languages| ensures !Contains(url, BrochureFile(Languages[j])) {
      assert Languages[j] in Languages;
    }
  }

  /** Asking for the language the URL already names gives back the URL itself. */
  lemma BaseLanguageKeepsUrl(url: string, i: nat)
    requires FirstBase(url, Languages) == Some(i)
    ensures LanguageUrl(url, Languages[i]) == url
  {
    ReplaceSame(url, BrochureFile(Languages[i]));
  }

  /** When the URL names a brochure file, the rewritten URL names the brochure of the language asked for. */
  lemma RewrittenUrlNamesLanguage(url: string, lang: string)
    requires FirstBase(url, Languages).Some?
    ensures Contains(LanguageUrl(url, lang), BrochureFile(lang))
  {
    var i := FirstBase(url, Languages).value;
    ReplaceIntroduces(url, BrochureFile(Languages[i]), BrochureFile(lang));
  }

  /**
   * The outcome of downloading one brochure: the request raised (timeout, connection error), or it
   * answered with a status and, when the body could be opened as a PDF, the text of each page
   * (None for a page without a text layer).
   */
  datatype PdfDownload =
    | RequestRaised
    | Downloaded(status: int, pages: Option<seq<Option<string>>>)

  /** A page that contributes text: one whose extracted text is truthy. */
  function PageText(page: Option<string>): seq<string>
  {
    if page.Some? && page.value != "" then [page.value] else []
  }

  /** The texts of the pages that have some, in page order. */
  function PageTexts(pages: seq<Option<string>>): seq<string>
  {
    FlatMap(PageText, pages)
  }

  /** Every kept page text is non-empty, and comes from a page. */
  lemma PageTextsNonEmpty(pages: seq<Option<string>>, t: string)
    requires t in PageTexts(pages)
    ensures t != "" && Some(t) in pages
  {
    FlatMapMember(PageText, pages, t);
  }

  /** The text stored for one language, or None when nothing is stored for it. */
  function LanguageText(d: PdfDownload): (r: Option<string>)
    ensures r.Some? <==> d.Downloaded? && d.status == 200 && d.pages.Some? && |PageTexts(d.pages.value)| > 0
    ensures r.Some? ==> r.value != ""
  {
    if d.Downloaded? && d.status == 200 && d.pages.Some? && |PageTexts(d.pages.value)| > 0 then
      var texts := PageTexts(d.pages.value);
      PageTextsNonEmpty(d.pages.value, texts[0]);
      JoinKeepsFirst("\n\n", texts);
      Some(Join("\n\n", texts))
    else None
  }

  /**
   * The dictionary the brochure step returns when the languages `langs` are tried in order:
   * one entry per language whose brochure gave text.
   */
  function CollectTexts(url: string, fetch: string -> PdfDownload, langs: seq<string>): (r: Dict<string>)
    ensures forall k :: Get(r, k) == if k in langs then LanguageText(fetch(LanguageUrl(url, k))) else None
    decreases |langs|
  {
    if |langs| == 0 then []
    else
      var init := langs[..|langs| - 1];
      var lang := langs[|langs| - 1];
      var d := CollectTexts(url, fetch, init);
      assert forall k :: k in langs <==> k in init || k == lang;
      match LanguageText(fetch(LanguageUrl(url, lang)))
      case None => d
      case Some(t) => Put(d, lang, t)
  }

  function BrochureTexts(url: string, fetch: string -> PdfDownload): Dict<string>
  {
    CollectTexts(url, fetch, Languages)
  }

  /** Only brochure languages are keys, and every stored text is non-empty. */
  lemma BrochureTextsShape(url: string, fetch: string -> PdfDownload, k: string)
    ensures k in Keys(BrochureTexts(url, fetch)) ==> k in Languages
    ensures Get(BrochureTexts(url, fetch), k).Some? ==> Get(BrochureTexts(url, fetch), k).value != ""
  {
  }

  /**
   * `extract_pdf_text`: for each language, rewrite the URL, download, skip the language on a
   * raised request, a status other than 200 or an unreadable PDF, and store the joined page texts
   * when there are any. `fetch` stands for the download and the PDF text extraction.
   */
  method ExtractPdfText(pdfUrl: string, fetch: string -> PdfDownload) returns (texts: Dict<string>)
    ensures texts == BrochureTexts(pdfUrl, fetch)
  {
    texts := [];
    var n := 0;
    while n < |Languages|
      invariant 0 <= n <= |Languages|
      invariant texts == CollectTexts(pdfUrl, fetch, Languages[..n])
    {
      var lang := Languages[n];
      assert Languages[..n + 1][..n] == Languages[..n];
      var langUrl := ResolveLanguageUrl(pdfUrl, lang);
      var reply := fetch(langUrl);
      n := n + 1;
      if reply.RequestRaised? || reply.status != 200 || reply.pages.None? {
        continue;
      }
      var pages := reply.pages.value;
      var textPages := CollectPageTexts(pages);
      if |textPages| > 0 {
        texts := Put(texts, lang, Join("\n\n", textPages));
      }
    }
    assert Languages[..n] == Languages;
  }

  /** The page loop: the pages whose text is truthy, in order. */
  method CollectPageTexts(pages: seq<Option<string>>) returns (textPages: seq<string>)
    ensures textPages == PageTexts(pages)
  {
    textPages := [];
    var p := 0;
    while p < |pages|
      invariant 0 <= p <= |pages|
      invariant textPages == PageTexts(pages[..p])
    {
      FlatMapSnoc(PageText, pages, p);
      var pageText := pages[p];
      if pageText.Some? && pageText.value != "" {
        textPages := textPages + [pageText.value];
      }
      p := p + 1;
    }
    assert pages[..p] == pages;
  }
}
