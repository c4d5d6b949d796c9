/**
 * The offline knowledge-base construction: searching the encyclopedia keyword by keyword into
 * a page dictionary keyed by content hash, then cutting every page into overlapping word
 * windows plus one entry per image. Search, page fetch, the Cortex tagger and SHA-256 are
 * collaborators given as functions.
 */
module PopulateKb {
  import opened Wrappers
  import opened PyStr
  import opened PyDict
  import opened Snowflake

  // =====================================================================
  // Searching and de-duplicating pages
  // =====================================================================

  const ResultsPerSearch := 5
  const DisambiguationMarker := "(disambiguation)"

  /**
   * A fetched page. Its image list is loaded on first access by a further request, which can
   * raise; `Failure` carries the text of that exception.
   */
  datatype WikiPage = WikiPage(title: string, content: string, images: Result<seq<string>, string>, url: string)

  /** Fetching a title's page and summary: both, or the exception the encyclopedia raised. */
  datatype Fetch = Fetched(page: WikiPage, summary: string) | DisambiguationError | PageError

  /** The fetch gives a page that gets stored: fetched, and its image list loads. */
  predicate Stored(f: Fetch) {
    f.Fetched? && f.page.images.Success?
  }

  datatype PageRecord = PageRecord(
    pageContent: string, pageSummary: string, images: seq<string>, pageUrl: string, pageTags: seq<string>)

  datatype FailedPage = FailedPage(title: string, error: string)

  /**
   * The collaborators: `search(keyword, limit)` returns result titles, `fetch(title)` the page,
   * `tagPage(keywords, summary)` the tagger's comma-separated answer, `sha256(text)` a hex digest.
   */
  datatype Services = Services(
    search: (string, nat) -> seq<string>,
    fetch: string -> Fetch,
    tagPage: (seq<string>, string) -> string,
    sha256: string -> string)

  /** The page dictionary: content hash to page record, in insertion order. */
  type Pages = Dict<string, PageRecord>

  /** The two accumulators of the search: the page dictionary and the failure list. */
  datatype Progress = Progress(pages: Pages, failed: seq<FailedPage>)

  /** The results worth fetching: those whose title is not a disambiguation placeholder, in order. */
  function KeepTitles(results: seq<string>): (titles: seq<string>)
    ensures |titles| <= |results|
    ensures forall i :: 0 <= i < |titles| ==> !Contains(titles[i], DisambiguationMarker) && titles[i] in results
    ensures forall t :: t in results && !Contains(t, DisambiguationMarker) ==> t in titles
  {
    if results == [] then []
    else (if Contains(results[0], DisambiguationMarker) then [] else [results[0]]) + KeepTitles(results[1..])
  }

  /** Filtering keeps the search order: it filters each part of a result list separately. */
  lemma {:induction false} KeepTitlesAppend(a: seq<string>, b: seq<string>)
    ensures KeepTitles(a + b) == KeepTitles(a) + KeepTitles(b)
    decreases |a|
  {
    if a == [] {
      assert a + b == b;
    } else {
      assert (a + b)[0] == a[0];
      assert (a + b)[1..] == a[1..] + b;
      KeepTitlesAppend(a[1..], b);
    }
  }

  /** One result is kept, as itself, exactly when it is not a disambiguation placeholder. */
  lemma KeepTitlesOne(t: string)
    ensures KeepTitles([t]) == if Contains(t, DisambiguationMarker) then [] else [t]
  {
    assert [t][1..] == [];
  }

  /** The titles processed for one keyword. */
  function SearchResults(sv: Services, keyword: string): seq<string> {
    KeepTitles(sv.search(keyword, ResultsPerSearch))
  }

  /**
   * The tagger's answer split on ',' and stripped: one tag per comma plus one, none holding a
   * comma or surrounding whitespace.
   */
  function ParseTags(answer: string): (tags: seq<string>)
    ensures |tags| == |SplitOn(answer, ',')| == Count(answer, ',') + 1
    ensures forall i :: 0 <= i < |tags| ==> tags[i] == Strip(SplitOn(answer, ',')[i])
    ensures forall i :: 0 <= i < |tags| ==> ',' !in tags[i]
    ensures forall i :: 0 <= i < |tags| ==> Trimmed(tags[i])
  {
    var parts := SplitOn(answer, ',');
    var tags := seq(|parts|, i requires 0 <= i < |parts| => Strip(parts[i]));
    assert forall i :: 0 <= i < |tags| ==> tags[i] == Strip(parts[i]) && ',' !in tags[i] && Trimmed(tags[i]) by {
      forall i | 0 <= i < |tags| ensures tags[i] == Strip(parts[i]) && ',' !in tags[i] && Trimmed(tags[i]) {
        StripAvoids(parts[i], ',');
      }
    }
    tags
  }

  /** An answer made of clean tags joined by ',' parses back to exactly those tags. */
  lemma ParseTagsJoin(tags: seq<string>)
    requires |tags| > 0
    requires forall i :: 0 <= i < |tags| ==> ',' !in tags[i]
    requires forall i :: 0 <= i < |tags| ==> Trimmed(tags[i])
    ensures ParseTags(JoinWith(",", tags)) == tags
  {
    var none := seq(|tags|, i => "");
    assert Padded(none, tags, none) == tags by {
      forall i | 0 <= i < |tags| ensures none[i] + tags[i] + none[i] == tags[i] {
        assert none[i] == [];
      }
    }
    ParseTagsPadded(none, tags, none);
  }

  /** Each tag with whitespace on either side, as in `"Jupiter, Moon"`. */
  function Padded(pre: seq<string>, tags: seq<string>, post: seq<string>): (parts: seq<string>)
    requires |pre| == |tags| == |post|
    ensures |parts| == |tags|
    ensures forall i :: 0 <= i < |parts| ==> parts[i] == pre[i] + tags[i] + post[i]
  {
    seq(|tags|, i requires 0 <= i < |tags| => pre[i] + tags[i] + post[i])
  }

  /** Padded comma-free tags joined by ',' split back into the padded tags. */
  lemma PaddedSplits(pre: seq<string>, tags: seq<string>, post: seq<string>)
    requires |tags| > 0 && |pre| == |tags| == |post|
    requires forall i :: 0 <= i < |tags| ==> AllSpace(pre[i]) && AllSpace(post[i])
    requires forall i :: 0 <= i < |tags| ==> ',' !in tags[i]
    ensures SplitOn(JoinWith(",", Padded(pre, tags, post)), ',') == Padded(pre, tags, post)
  {
    var parts := Padded(pre, tags, post);
    forall i | 0 <= i < |parts| ensures ',' !in parts[i] {
      SpaceAvoids(pre[i], ',');
      SpaceAvoids(post[i], ',');
    }
    SplitJoinOn(parts, ',');
  }

  /** Whitespace around the commas of the tagger's answer is dropped: padded clean tags parse back to the tags. */
  lemma ParseTagsPadded(pre: seq<string>, tags: seq<string>, post: seq<string>)
    requires |tags| > 0 && |pre| == |tags| == |post|
    requires forall i :: 0 <= i < |tags| ==> AllSpace(pre[i]) && AllSpace(post[i])
    requires forall i :: 0 <= i < |tags| ==> ',' !in tags[i]
    requires forall i :: 0 <= i < |tags| ==> Trimmed(tags[i])
    ensures ParseTags(JoinWith(",", Padded(pre, tags, post))) == tags
  {
    var parts := Padded(pre, tags, post);
    var answer := JoinWith(",", parts);
    PaddedSplits(pre, tags, post);
    assert SplitOn(answer, ',') == parts;
    var got := ParseTags(answer);
    assert |got| == |tags|;
    forall i | 0 <= i < |tags| ensures got[i] == tags[i] {
      assert got[i] == Strip(parts[i]);
      assert parts[i] == pre[i] + tags[i] + post[i];
      StripPadded(pre[i], tags[i], post[i]);
    }
    assert got == tags;
  }

  /** The text that is hashed and stored: the title, a line break, the page text. */
  function PageText(page: WikiPage): (text: string)
    ensures |text| == |page.title| + 1 + |page.content|
    ensures text[..|page.title|] == page.title && text[|page.title|] == '\n' && text[|page.title| + 1..] == page.content
    ensures SplitWords(text) == SplitWords(page.title) + SplitWords(page.content)
  {
    var text := page.title + "\n" + page.content;
    SplitWordsSeparated(page.title, "\n", page.content);
    assert text[|page.title| + 1..] == page.content;
    text
  }

  /** The record stored for a fetched page, tagged against all keywords of the run. */
  function RecordOf(sv: Services, keywords: seq<string>, page: WikiPage, summary: string): (rec: PageRecord)
    requires page.images.Success?
    ensures rec.pageContent == PageText(page)
    ensures SplitWords(rec.pageContent) == SplitWords(page.title) + SplitWords(page.content)
    ensures rec.pageSummary == summary && rec.images == page.images.value && rec.pageUrl == page.url
    ensures rec.pageTags == ParseTags(sv.tagPage(keywords, summary))
    ensures |rec.pageTags| == Count(sv.tagPage(keywords, summary), ',') + 1
  {
    PageRecord(PageText(page), summary, page.images.value, page.url, ParseTags(sv.tagPage(keywords, summary)))
  }

  /** One search result: a failed fetch is recorded, a fetched page is (re)stored under its hash. */
  function ProcessResult(sv: Services, keywords: seq<string>, st: Progress, title: string): Progress {
    match sv.fetch(title)
    case DisambiguationError => Progress(st.pages, st.failed + [FailedPage(title, "DisambiguationError")])
    case PageError => Progress(st.pages, st.failed + [FailedPage(title, "PageError")])
    case Fetched(page, summary) =>
      match page.images
      case Failure(message) => Progress(st.pages, st.failed + [FailedPage(title, message)])
      case Success(_) =>
        Progress(Put(st.pages, sv.sha256(PageText(page)), RecordOf(sv, keywords, page, summary)), st.failed)
  }

  function RunTitles(sv: Services, keywords: seq<string>, st: Progress, titles: seq<string>): Progress
    decreases |titles|
  {
    if titles == [] then st
    else ProcessResult(sv, keywords, RunTitles(sv, keywords, st, titles[..|titles| - 1]), titles[|titles| - 1])
  }

  function RunKeywords(sv: Services, keywords: seq<string>, st: Progress, ks: seq<string>): Progress
    decreases |ks|
  {
    if ks == [] then st
    else RunTitles(sv, keywords, RunKeywords(sv, keywords, st, ks[..|ks| - 1]), SearchResults(sv, ks[|ks| - 1]))
  }

  /** What the search produces for a keyword list, starting from an empty dictionary. */
  function Populate(sv: Services, keywords: seq<string>): Progress {
    RunKeywords(sv, keywords, Progress(Empty(), []), keywords)
  }

  /**
   * `search_wikipedia_and_populate_dict`: for each keyword in order, for each kept result in
   * order, fetch; record failures; store fetched pages under their hash.
   */
  method SearchWikipediaAndPopulateDict(sv: Services, keywords: seq<string>)
    returns (pagesDict: Pages, failedPages: seq<FailedPage>)
    ensures Progress(pagesDict, failedPages) == Populate(sv, keywords)
  {
    pagesDict, failedPages := Empty(), [];
    for k := 0 to |keywords|
      invariant Progress(pagesDict, failedPages) == RunKeywords(sv, keywords, Progress(Empty(), []), keywords[..k])
    {
      var keyword := keywords[k];
      var searchResults := KeepTitles(sv.search(keyword, ResultsPerSearch));
      pagesDict, failedPages := ProcessSearchResults(sv, keywords, pagesDict, failedPages, searchResults);
      assert keywords[..k + 1][..k] == keywords[..k];
    }
    assert keywords[..|keywords|] == keywords;
  }

  /** The loop over one keyword's search results, each processed in turn. */
  method ProcessSearchResults(sv: Services, keywords: seq<string>, pages: Pages, failed: seq<FailedPage>, searchResults: seq<string>)
    returns (pagesDict: Pages, failedPages: seq<FailedPage>)
    ensures Progress(pagesDict, failedPages) == RunTitles(sv, keywords, Progress(pages, failed), searchResults)
  {
    pagesDict, failedPages := pages, failed;
    for t := 0 to |searchResults|
      invariant Progress(pagesDict, failedPages) == RunTitles(sv, keywords, Progress(pages, failed), searchResults[..t])
    {
      var title := searchResults[t];
      assert searchResults[..t + 1][..t] == searchResults[..t];
      pagesDict, failedPages := ProcessSearchResult(sv, keywords, pagesDict, failedPages, title);
    }
    assert searchResults[..|searchResults|] == searchResults;
  }

  /**
   * The body of the loop over search results: fetch the page and its summary, record a failed
   * fetch, otherwise tag the page and store it under its hash unless loading its images fails.
   */
  method ProcessSearchResult(sv: Services, keywords: seq<string>, pages: Pages, failed: seq<FailedPage>, title: string)
    returns (pagesDict: Pages, failedPages: seq<FailedPage>)
    ensures Progress(pagesDict, failedPages) == ProcessResult(sv, keywords, Progress(pages, failed), title)
  {
    pagesDict, failedPages := pages, failed;
    match sv.fetch(title) {
      case DisambiguationError =>
        failedPages := failedPages + [FailedPage(title, "DisambiguationError")];
      case PageError =>
        failedPages := failedPages + [FailedPage(title, "PageError")];
      case Fetched(wikiPage, wikiPageSummary) =>
        var pageContent := wikiPage.title + "\n" + wikiPage.content;
        var pageHash := sv.sha256(pageContent);
        var pageTags := ParseTags(sv.tagPage(keywords, wikiPageSummary));
        assert pageContent == PageText(wikiPage);
        match wikiPage.images {
          case Failure(message) =>
            failedPages := failedPages + [FailedPage(title, message)];
          case Success(images) =>
            var record := PageRecord(pageContent, wikiPageSummary, images, wikiPage.url, pageTags);
            assert record == RecordOf(sv, keywords, wikiPage, wikiPageSummary);
            pagesDict := Put(pagesDict, pageHash, record);
        }
    }
  }

  /** Processing two runs of titles one after the other is processing their concatenation. */
  lemma {:induction false} RunTitlesAppend(sv: Services, keywords: seq<string>, st: Progress, a: seq<string>, b: seq<string>)
    ensures RunTitles(sv, keywords, st, a + b) == RunTitles(sv, keywords, RunTitles(sv, keywords, st, a), b)
    decreases |b|
  {
    if b == [] {
      assert a + b == a;
    } else {
      assert (a + b)[..|a + b| - 1] == a + b[..|b| - 1];
      RunTitlesAppend(sv, keywords, st, a, b[..|b| - 1]);
    }
  }

  /** Every title the search fetches, keyword by keyword and result by result. */
  function FetchedTitles(sv: Services, ks: seq<string>): seq<string>
    decreases |ks|
  {
    if ks == [] then [] else FetchedTitles(sv, ks[..|ks| - 1]) + SearchResults(sv, ks[|ks| - 1])
  }

  /** The keyword loop is one pass over the fetched titles, in keyword order then result order. */
  lemma {:induction false} RunKeywordsRunsFetchedTitles(sv: Services, keywords: seq<string>, st: Progress, ks: seq<string>)
    ensures RunKeywords(sv, keywords, st, ks) == RunTitles(sv, keywords, st, FetchedTitles(sv, ks))
    decreases |ks|
  {
    if ks != [] {
      RunKeywordsRunsFetchedTitles(sv, keywords, st, ks[..|ks| - 1]);
      RunTitlesAppend(sv, keywords, st, FetchedTitles(sv, ks[..|ks| - 1]), SearchResults(sv, ks[|ks| - 1]));
    }
  }

  /**
   * A fetched title is never a disambiguation placeholder and comes from the search of one of
   * the keywords; every other result of those searches is fetched.
   */
  lemma {:induction false} FetchedTitlesAreSearchResults(sv: Services, ks: seq<string>)
    ensures forall t :: t in FetchedTitles(sv, ks) ==>
      !Contains(t, DisambiguationMarker) && exists k :: k in ks && t in sv.search(k, ResultsPerSearch)
    ensures forall k, t :: k in ks && t in sv.search(k, ResultsPerSearch) && !Contains(t, DisambiguationMarker) ==>
      t in FetchedTitles(sv, ks)
    decreases |ks|
  {
    if ks != [] {
      var init, last := ks[..|ks| - 1], ks[|ks| - 1];
      FetchedTitlesAreSearchResults(sv, init);
      assert ks == init + [last];
      forall t | t in FetchedTitles(sv, ks)
        ensures !Contains(t, DisambiguationMarker) && exists k :: k in ks && t in sv.search(k, ResultsPerSearch)
      {
        if t in FetchedTitles(sv, init) {
          var k :| k in init && t in sv.search(k, ResultsPerSearch);
          assert k in ks;
        } else {
          assert t in SearchResults(sv, last);
        }
      }
    }
  }

  /** When the search honours its limit, at most five titles are fetched per keyword. */
  lemma {:induction false} FetchedTitlesBound(sv: Services, ks: seq<string>)
    requires forall k :: |sv.search(k, ResultsPerSearch)| <= ResultsPerSearch
    ensures |FetchedTitles(sv, ks)| <= ResultsPerSearch * |ks|
    decreases |ks|
  {
    if ks != [] {
      FetchedTitlesBound(sv, ks[..|ks| - 1]);
      assert |SearchResults(sv, ks[|ks| - 1])| <= |sv.search(ks[|ks| - 1], ResultsPerSearch)|;
    }
  }

  /** The error the failure list records: the exception's name, or the text of the image-load exception. */
  function ErrorName(f: Fetch): string
    requires !Stored(f)
  {
    match f
    case DisambiguationError => "DisambiguationError"
    case PageError => "PageError"
    case Fetched(page, _) => page.images.error
  }

  /** The titles, in order, whose fetch or image load raised. */
  function FailedTitles(sv: Services, titles: seq<string>): seq<string>
    decreases |titles|
  {
    if titles == [] then []
    else
      var last := titles[|titles| - 1];
      FailedTitles(sv, titles[..|titles| - 1]) + (if Stored(sv.fetch(last)) then [] else [last])
  }

  /**
   * The failure list gains, in order, one `{title, error}` per title whose fetch or image load
   * raised, with the exception's name or text, and nothing else.
   */
  lemma {:induction false} FailuresRecorded(sv: Services, keywords: seq<string>, st: Progress, titles: seq<string>)
    ensures var failed := FailedTitles(sv, titles);
      && (forall i :: 0 <= i < |failed| ==> failed[i] in titles && !Stored(sv.fetch(failed[i])))
      && RunTitles(sv, keywords, st, titles).failed ==
         st.failed + seq(|failed|, i requires 0 <= i < |failed| => FailedPage(failed[i], ErrorName(sv.fetch(failed[i]))))
    decreases |titles|
  {
    if titles != [] {
      var init, last := titles[..|titles| - 1], titles[|titles| - 1];
      FailuresRecorded(sv, keywords, st, init);
      var f0 := FailedTitles(sv, init);
      var f1 := FailedTitles(sv, titles);
      var s0 := seq(|f0|, i requires 0 <= i < |f0| => FailedPage(f0[i], ErrorName(sv.fetch(f0[i]))));
      var s1 := seq(|f1|, i requires 0 <= i < |f1| => FailedPage(f1[i], ErrorName(sv.fetch(f1[i]))));
      if Stored(sv.fetch(last)) {
        assert f1 == f0;
      } else {
        assert f1 == f0 + [last];
        assert s1 == s0 + [FailedPage(last, ErrorName(sv.fetch(last)))];
      }
    }
  }

  /** The content hashes of the stored pages among `titles`. */
  function FetchedHashes(sv: Services, titles: seq<string>): set<string>
    decreases |titles|
  {
    if titles == [] then {}
    else
      var last := titles[|titles| - 1];
      FetchedHashes(sv, titles[..|titles| - 1]) + HashOf(sv, last)
  }

  /** The hash under which `title`'s page is stored, if it is. */
  function HashOf(sv: Services, title: string): set<string> {
    if Stored(sv.fetch(title)) then {sv.sha256(PageText(sv.fetch(title).page))} else {}
  }

  /** One result adds its page's hash to the keys, or nothing when the fetch or the image load fails. */
  lemma ProcessResultKeys(sv: Services, keywords: seq<string>, st: Progress, title: string)
    ensures ProcessResult(sv, keywords, st, title).pages.vals.Keys == st.pages.vals.Keys + HashOf(sv, title)
  {
  }

  /** A hash is among the stored hashes exactly when some title's page was stored with that hash. */
  lemma {:induction false} FetchedHashesMembers(sv: Services, titles: seq<string>, h: string)
    ensures h in FetchedHashes(sv, titles) <==>
      exists i :: 0 <= i < |titles| && StoredWithHash(sv, titles[i], h)
    decreases |titles|
  {
    if titles != [] {
      var init := titles[..|titles| - 1];
      var last := titles[|titles| - 1];
      FetchedHashesMembers(sv, init, h);
      assert FetchedHashes(sv, titles) == FetchedHashes(sv, init) + HashOf(sv, last);
      assert forall i :: 0 <= i < |init| ==> init[i] == titles[i];
      if h in HashOf(sv, last) {
        assert StoredWithHash(sv, titles[|titles| - 1], h);
      }
    }
  }

  /** The dictionary ends up with the keys it had plus the hash of every fetched page. */
  lemma {:induction false} PagesKeySet(sv: Services, keywords: seq<string>, st: Progress, titles: seq<string>)
    ensures RunTitles(sv, keywords, st, titles).pages.vals.Keys == st.pages.vals.Keys + FetchedHashes(sv, titles)
    decreases |titles|
  {
    if titles != [] {
      var init, last := titles[..|titles| - 1], titles[|titles| - 1];
      PagesKeySet(sv, keywords, st, init);
      var s0 := RunTitles(sv, keywords, st, init);
      ProcessResultKeys(sv, keywords, s0, last);
      assert RunTitles(sv, keywords, st, titles).pages == ProcessResult(sv, keywords, s0, last).pages;
      assert FetchedHashes(sv, titles) == FetchedHashes(sv, init) + HashOf(sv, last);
    }
  }

  /** The dictionary never loses or reorders a key: new keys are appended after the old ones. */
  lemma {:induction false} PagesKeyOrder(sv: Services, keywords: seq<string>, st: Progress, titles: seq<string>)
    ensures var pages := RunTitles(sv, keywords, st, titles).pages;
      |st.pages.keys| <= |pages.keys| && pages.keys[..|st.pages.keys|] == st.pages.keys
    decreases |titles|
  {
    if titles != [] {
      var init := titles[..|titles| - 1];
      PagesKeyOrder(sv, keywords, st, init);
      var s0 := RunTitles(sv, keywords, st, init);
      var keys0 := s0.pages.keys;
      var keys1 := RunTitles(sv, keywords, st, titles).pages.keys;
      assert keys1 == ProcessResult(sv, keywords, s0, titles[|titles| - 1]).pages.keys;
      assert |keys0| <= |keys1|;
      assert keys1[..|keys0|] == keys0;
      assert keys1[..|st.pages.keys|] == keys0[..|st.pages.keys|];
    }
  }

  /** Each fetched page adds at most one key, and one whose hash is already present adds none. */
  lemma {:induction false} DedupBound(sv: Services, keywords: seq<string>, st: Progress, titles: seq<string>)
    ensures |RunTitles(sv, keywords, st, titles).pages.keys| + |FailedTitles(sv, titles)| <= |st.pages.keys| + |titles|
    decreases |titles|
  {
    if titles != [] {
      DedupBound(sv, keywords, st, titles[..|titles| - 1]);
    }
  }

  /** The last title among `titles` whose stored page hashes to `h`. */
  function LastFetchedWithHash(sv: Services, titles: seq<string>, h: string): (r: Option<string>)
    ensures r.Some? ==> r.value in titles && StoredWithHash(sv, r.value, h)
    decreases |titles|
  {
    if titles == [] then None
    else
      var last := titles[|titles| - 1];
      if StoredWithHash(sv, last, h) then Some(last)
      else LastFetchedWithHash(sv, titles[..|titles| - 1], h)
  }

  /** Position `i` holds the last title among `titles` whose page was stored under `h`. */
  predicate LastWithHash(sv: Services, titles: seq<string>, i: int, h: string) {
    && 0 <= i < |titles| && StoredWithHash(sv, titles[i], h)
    && forall j :: i < j < |titles| ==> !StoredWithHash(sv, titles[j], h)
  }

  /**
   * The title chosen is the last one whose page was stored under `h`; there is none exactly
   * when no title's page was.
   */
  lemma {:induction false} LastFetchedWithHashIsLast(sv: Services, titles: seq<string>, h: string)
    ensures var r := LastFetchedWithHash(sv, titles, h);
      && (r.Some? ==> exists i :: LastWithHash(sv, titles, i, h) && titles[i] == r.value)
      && (r.None? ==> forall i :: 0 <= i < |titles| ==> !StoredWithHash(sv, titles[i], h))
    decreases |titles|
  {
    if titles != [] {
      var init, last := titles[..|titles| - 1], titles[|titles| - 1];
      assert titles == init + [last];
      if StoredWithHash(sv, last, h) {
        assert LastWithHash(sv, titles, |titles| - 1, h);
      } else {
        LastFetchedWithHashIsLast(sv, init, h);
        var r := LastFetchedWithHash(sv, init, h);
        assert LastFetchedWithHash(sv, titles, h) == r;
        if r.Some? {
          var i :| LastWithHash(sv, init, i, h) && init[i] == r.value;
          LastWithHashExtend(sv, init, last, i, h);
        } else {
          forall i | 0 <= i < |titles| ensures !StoredWithHash(sv, titles[i], h) {
            if i < |init| {
              assert titles[i] == init[i];
            }
          }
        }
      }
    }
  }

  lemma LastWithHashExtend(sv: Services, init: seq<string>, last: string, i: int, h: string)
    requires LastWithHash(sv, init, i, h) && !StoredWithHash(sv, last, h)
    ensures LastWithHash(sv, init + [last], i, h) && (init + [last])[i] == init[i]
  {
    var titles := init + [last];
    forall j | i < j < |titles| ensures !StoredWithHash(sv, titles[j], h) {
      if j < |init| {
        assert titles[j] == init[j];
      }
    }
  }

  /** `title`'s page was stored, under the hash `h`. */
  predicate StoredWithHash(sv: Services, title: string, h: string) {
    Stored(sv.fetch(title)) && sv.sha256(PageText(sv.fetch(title).page)) == h
  }

  /**
   * Last write wins: a hash stored during the run holds the record (tags included) built from
   * its last occurrence; any other key keeps the value it had.
   */
  lemma {:induction false} LastWriteWins(sv: Services, keywords: seq<string>, st: Progress, titles: seq<string>, h: string)
    ensures var pages := RunTitles(sv, keywords, st, titles).pages;
      match LastFetchedWithHash(sv, titles, h)
      case Some(t) => h in pages.vals && pages.vals[h] == RecordOf(sv, keywords, sv.fetch(t).page, sv.fetch(t).summary)
      case None => (h in pages.vals <==> h in st.pages.vals) && (h in pages.vals ==> pages.vals[h] == st.pages.vals[h])
    decreases |titles|
  {
    if titles != [] {
      var init, last := titles[..|titles| - 1], titles[|titles| - 1];
      LastWriteWins(sv, keywords, st, init, h);
      var s0 := RunTitles(sv, keywords, st, init);
      var s1 := ProcessResult(sv, keywords, s0, last);
      assert RunTitles(sv, keywords, st, titles) == s1;
      var f := sv.fetch(last);
      if StoredWithHash(sv, last, h) {
        assert s1.pages.vals == s0.pages.vals[h := RecordOf(sv, keywords, f.page, f.summary)];
      } else {
        assert LastFetchedWithHash(sv, titles, h) == LastFetchedWithHash(sv, init, h);
        assert h in s1.pages.vals <==> h in s0.pages.vals;
        assert h in s1.pages.vals ==> s1.pages.vals[h] == s0.pages.vals[h];
      }
    }
  }

  // =====================================================================
  // Chunking pages into knowledge-base entries
  // =====================================================================

  const Source := "Wikipedia"
  const ChunkSize := 200
  const Overlap := 10
  /** How far the window start advances: 190 words. */
  const Stride := ChunkSize - Overlap
  const ImagePromptPrefix :=
    "Provide the best possible description of what this image is based on the filename and provided context. Context: "

  /** The number of values `range(0, n, Stride)` yields. */
  function ChunkCount(n: nat): nat {
    (n + Stride - 1) / Stride
  }

  /** Python's `xs[lo:hi]` for `lo <= hi`: bounds past the end are clamped. */
  function Slice<T>(xs: seq<T>, lo: nat, hi: nat): (r: seq<T>)
    requires lo <= hi
    ensures |r| == Min(hi, |xs|) - Min(lo, |xs|)
    ensures forall i :: 0 <= i < |r| ==> r[i] == xs[lo + i]
  {
    xs[Min(lo, |xs|)..Min(hi, |xs|)]
  }

  /** Window `k`: the words from position `Stride * k`, at most `ChunkSize` of them. */
  function Window(words: seq<string>, k: nat): seq<string> {
    Slice(words, Stride * k, Stride * k + ChunkSize)
  }

  /** The text chunks of a page: window `k` joined by single spaces, for each window start. */
  function Chunks(words: seq<string>): seq<string> {
    seq(ChunkCount(|words|), k requires 0 <= k < ChunkCount(|words|) => JoinWith(" ", Window(words, k)))
  }

  /** The chunking loop: a window every `Stride` words while the start is inside the page. */
  method ChunkWords(words: seq<string>) returns (chunks: seq<string>)
    ensures chunks == Chunks(words)
  {
    chunks := [];
    var i := 0;
    while i < |words|
      invariant i == Stride * |chunks|
      invariant |chunks| <= ChunkCount(|words|)
      invariant forall k :: 0 <= k < |chunks| ==> chunks[k] == JoinWith(" ", Window(words, k))
    {
      ChunkCountBounds(|words|, |chunks|);
      var chunk := JoinWith(" ", Slice(words, i, i + ChunkSize));
      assert chunk == JoinWith(" ", Window(words, |chunks|));
      chunks := chunks + [chunk];
      i := i + Stride;
    }
    ChunkCountBounds(|words|, |chunks|);
    assert |chunks| == |Chunks(words)|;
  }

  /** A window starts inside the page exactly when its index is below the chunk count. */
  lemma ChunkCountBounds(n: nat, k: nat)
    ensures Stride * k < n <==> k < ChunkCount(n)
  {
  }

  /**
   * The number of chunks is the ceiling of words over 190: no chunk for an empty page, and
   * two for a page of exactly 200 words.
   */
  lemma ChunkCountIsCeiling(n: nat)
    ensures Stride * ChunkCount(n) >= n
    ensures n > 0 ==> Stride * (ChunkCount(n) - 1) < n
    ensures ChunkCount(0) == 0 && ChunkCount(ChunkSize) == 2
  {
  }

  /** Every window starts inside the page and holds between one and 200 words. */
  lemma WindowShape(words: seq<string>, k: nat)
    requires k < ChunkCount(|words|)
    ensures Stride * k < |words|
    ensures 0 < |Window(words, k)| <= ChunkSize
    ensures Window(words, k) == words[Stride * k..Min(Stride * k + ChunkSize, |words|)]
  {
  }

  /**
   * Re-splitting chunk `k` of a page gives exactly its window of the page's words, so every
   * chunk holds at most 200 words.
   */
  lemma {:induction false} ChunkWordsRoundTrip(content: string, k: nat)
    requires k < ChunkCount(|SplitWords(content)|)
    ensures SplitWords(Chunks(SplitWords(content))[k]) == Window(SplitWords(content), k)
    ensures |SplitWords(Chunks(SplitWords(content))[k])| <= ChunkSize
  {
    var words := SplitWords(content);
    WindowShape(words, k);
    var w := Window(words, k);
    assert forall i :: 0 <= i < |w| ==> w[i] == words[Stride * k + i];
    SplitJoinWords(w);
  }

  /** Consecutive windows share 10 words whenever the earlier one is full. */
  lemma ConsecutiveWindowsOverlap(words: seq<string>, k: nat)
    requires k + 1 < ChunkCount(|words|)
    requires |Window(words, k)| == ChunkSize
    ensures Window(words, k)[Stride..] == Window(words, k + 1)[..Overlap]
  {
    var start := Stride * k;
    WindowShape(words, k + 1);
    assert Window(words, k) == words[start..start + ChunkSize];
    assert Window(words, k + 1)[..Overlap] == words[start + Stride..start + ChunkSize];
  }

  /** No word is dropped: word `j` appears in window `j / 190`, at offset `j % 190`. */
  lemma WordCoverage(words: seq<string>, j: nat)
    requires j < |words|
    ensures j / Stride < ChunkCount(|words|)
    ensures j % Stride < |Window(words, j / Stride)|
    ensures Window(words, j / Stride)[j % Stride] == words[j]
  {
    var k := j / Stride;
    assert Stride * k + j % Stride == j;
  }

  /** The last window runs to the last word of the page. */
  lemma LastWindowReachesEnd(words: seq<string>)
    requires |words| > 0
    ensures Window(words, ChunkCount(|words|) - 1) == words[Stride * (ChunkCount(|words|) - 1)..]
  {
    ChunkCountIsCeiling(|words|);
  }

  /**
   * A page of 191 to 200 words gets two chunks although the first already holds every word:
   * the second repeats the first's last words.
   */
  lemma TrailingChunkRepeats(words: seq<string>)
    requires Stride < |words| <= ChunkSize
    ensures ChunkCount(|words|) == 2
    ensures Window(words, 0) == words && Window(words, 1) == words[Stride..]
  {
    var n := |words|;
    assert 2 * Stride <= n + Stride - 1 < 3 * Stride;
    assert ChunkCount(n) == 2;
    assert Min(ChunkSize, n) == n && Min(Stride, n) == Stride && Min(Stride + ChunkSize, n) == n;
    assert Window(words, 0) == words[0..n];
    assert Window(words, 1) == words[Stride..n];
  }

  /** The entries for a page's text chunks: pass-through, no prompt. */
  function TextEntries(pageHash: string, rec: PageRecord): (entries: seq<KbEntry>)
    ensures |entries| == ChunkCount(|SplitWords(rec.pageContent)|)
    ensures forall i :: 0 <= i < |entries| ==>
      && entries[i].chunkText == JoinWith(" ", Window(SplitWords(rec.pageContent), i))
      && entries[i].prompt == None
      && entries[i].source == Source && entries[i].sourceId == pageHash
      && entries[i].tags == rec.pageTags && entries[i].referenceUrl == rec.pageUrl
  {
    var chunks := Chunks(SplitWords(rec.pageContent));
    seq(|chunks|, i requires 0 <= i < |chunks| => KbEntry(Source, pageHash, chunks[i], rec.pageTags, rec.pageUrl, None))
  }

  /** The entries for a page's images: the URL as text, a prompt embedding the summary. */
  function ImageEntries(pageHash: string, rec: PageRecord): (entries: seq<KbEntry>)
    ensures |entries| == |rec.images|
    ensures forall i :: 0 <= i < |entries| ==>
      && entries[i].chunkText == rec.images[i]
      && entries[i].prompt == Some(ImagePromptPrefix + rec.pageSummary)
      && entries[i].source == Source && entries[i].sourceId == pageHash
      && entries[i].tags == rec.pageTags && entries[i].referenceUrl == rec.pageUrl
  {
    seq(|rec.images|, i requires 0 <= i < |rec.images| =>
      KbEntry(Source, pageHash, rec.images[i], rec.pageTags, rec.pageUrl, Some(ImagePromptPrefix + rec.pageSummary)))
  }

  /** All entries of one page: its chunks, then its images. */
  function PageEntries(pageHash: string, rec: PageRecord): (entries: seq<KbEntry>)
    ensures |entries| == ChunkCount(|SplitWords(rec.pageContent)|) + |rec.images|
  {
    TextEntries(pageHash, rec) + ImageEntries(pageHash, rec)
  }

  /** The entries of the pages under `keys`, page after page in that order. */
  function EntriesFor(vals: map<string, PageRecord>, keys: seq<string>): seq<KbEntry>
    requires forall i :: 0 <= i < |keys| ==> keys[i] in vals
    decreases |keys|
  {
    if keys == [] then []
    else EntriesFor(vals, keys[..|keys| - 1]) + PageEntries(keys[|keys| - 1], vals[keys[|keys| - 1]])
  }

  /** All entries, in the dictionary's iteration order. */
  function KbEntries(pagesDict: Pages): seq<KbEntry> {
    EntriesFor(pagesDict.vals, pagesDict.keys)
  }

  lemma EntriesForSnoc(vals: map<string, PageRecord>, keys: seq<string>, p: nat)
    requires forall i :: 0 <= i < |keys| ==> keys[i] in vals
    requires p < |keys|
    ensures EntriesFor(vals, keys[..p + 1]) ==
      EntriesFor(vals, keys[..p]) + TextEntries(keys[p], vals[keys[p]]) + ImageEntries(keys[p], vals[keys[p]])
  {
    assert keys[..p + 1][..p] == keys[..p];
  }

  /** `convert_pages_to_kb_format`. */
  method ConvertPagesToKbFormat(pagesDict: Pages) returns (knowledgeBaseData: seq<KbEntry>)
    ensures knowledgeBaseData == KbEntries(pagesDict)
  {
    knowledgeBaseData := [];
    for p := 0 to |pagesDict.keys|
      invariant knowledgeBaseData == EntriesFor(pagesDict.vals, pagesDict.keys[..p])
    {
      var pageHash := pagesDict.keys[p];
      knowledgeBaseData := AppendPageEntries(knowledgeBaseData, pageHash, pagesDict.vals[pageHash]);
      EntriesForSnoc(pagesDict.vals, pagesDict.keys, p);
    }
    assert pagesDict.keys[..|pagesDict.keys|] == pagesDict.keys;
  }

  /** The body of the loop over pages: append the page's chunk entries, then its image entries. */
  method AppendPageEntries(acc: seq<KbEntry>, pageHash: string, pageInfo: PageRecord) returns (r: seq<KbEntry>)
    ensures r == acc + TextEntries(pageHash, pageInfo) + ImageEntries(pageHash, pageInfo)
  {
    r := acc;
    var words := SplitWords(pageInfo.pageContent);
    var chunks := ChunkWords(words);
    ghost var texts := TextEntries(pageHash, pageInfo);
    ghost var images := ImageEntries(pageHash, pageInfo);
    assert |texts| == |chunks|;
    for c := 0 to |chunks|
      invariant r == acc + texts[..c]
    {
      var entry := KbEntry(Source, pageHash, chunks[c], pageInfo.pageTags, pageInfo.pageUrl, None);
      assert entry == texts[c];
      r := r + [entry];
      assert texts[..c + 1] == texts[..c] + [texts[c]];
    }
    ghost var middle := r;
    for m := 0 to |pageInfo.images|
      invariant r == middle + images[..m]
    {
      var entry := KbEntry(Source, pageHash, pageInfo.images[m], pageInfo.pageTags, pageInfo.pageUrl,
                           Some(ImagePromptPrefix + pageInfo.pageSummary));
      assert entry == images[m];
      r := r + [entry];
      assert images[..m + 1] == images[..m] + [images[m]];
    }
    assert texts[..|chunks|] == texts && images[..|pageInfo.images|] == images;
  }

  /**
   * The entries of one page: its text chunks first, with no prompt, then one entry per image
   * URL in list order whose prompt embeds the summary; every entry is labelled 'Wikipedia',
   * carries the page's hash, tags and URL.
   */
  lemma PageEntriesLayout(pageHash: string, rec: PageRecord)
    ensures var n := ChunkCount(|SplitWords(rec.pageContent)|);
      var entries := PageEntries(pageHash, rec);
      && |entries| == n + |rec.images|
      && (forall i :: 0 <= i < |entries| ==>
            && entries[i].source == Source && entries[i].sourceId == pageHash
            && entries[i].tags == rec.pageTags && entries[i].referenceUrl == rec.pageUrl)
      && (forall i :: 0 <= i < n ==> entries[i].prompt == None)
      && (forall j :: 0 <= j < |rec.images| ==>
            entries[n + j].chunkText == rec.images[j] && entries[n + j].prompt == Some(ImagePromptPrefix + rec.pageSummary))
      && (forall i, j :: 0 <= i < j < |entries| && entries[i].prompt.Some? ==> entries[j].prompt.Some?)
  {
  }

  /** The total number of entries: chunks plus images, summed over the pages. */
  function EntryTotal(vals: map<string, PageRecord>, keys: seq<string>): nat
    requires forall i :: 0 <= i < |keys| ==> keys[i] in vals
    decreases |keys|
  {
    if keys == [] then 0
    else
      var rec := vals[keys[|keys| - 1]];
      EntryTotal(vals, keys[..|keys| - 1]) + ChunkCount(|SplitWords(rec.pageContent)|) + |rec.images|
  }

  /** The export has one row per chunk and one per image of every page. */
  lemma {:induction false} KbEntriesCount(vals: map<string, PageRecord>, keys: seq<string>)
    requires forall i :: 0 <= i < |keys| ==> keys[i] in vals
    ensures |EntriesFor(vals, keys)| == EntryTotal(vals, keys)
    decreases |keys|
  {
    if keys != [] {
      KbEntriesCount(vals, keys[..|keys| - 1]);
    }
  }

  /**
   * Every entry comes from a page of the dictionary: it is labelled 'Wikipedia', carries that
   * page's hash, tags and URL, and its text is one of the page's chunks (no prompt) or one of
   * its image URLs (with the page's image prompt).
   */
  lemma {:induction false} EntryProvenance(vals: map<string, PageRecord>, keys: seq<string>)
    requires forall i :: 0 <= i < |keys| ==> keys[i] in vals
    ensures forall e :: e in EntriesFor(vals, keys) ==>
      && e.source == Source && e.sourceId in keys
      && e.tags == vals[e.sourceId].pageTags && e.referenceUrl == vals[e.sourceId].pageUrl
      && (e.prompt.None? ==> e.chunkText in Chunks(SplitWords(vals[e.sourceId].pageContent)))
      && (e.prompt.Some? ==>
            e.chunkText in vals[e.sourceId].images && e.prompt.value == ImagePromptPrefix + vals[e.sourceId].pageSummary)
    decreases |keys|
  {
    if keys != [] {
      var init, last := keys[..|keys| - 1], keys[|keys| - 1];
      EntryProvenance(vals, init);
      PageEntriesLayout(last, vals[last]);
      forall e | e in EntriesFor(vals, keys)
        ensures e.sourceId in keys
      {
        if e in EntriesFor(vals, init) {
          assert e.sourceId in init;
        }
      }
    }
  }
}
