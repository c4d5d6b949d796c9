# rag-n-roll knowledge-base pipeline, modelled in Dafny

The repository is a video-companion chat assistant. A viewer asks questions about a video, and a
coach answers from the transcript and from a knowledge base of encyclopedia pages stored in
Snowflake and searched through Cortex. This project models the offline construction of that
knowledge base and the helpers of the Snowflake connector that the pipeline and the coach share:

- **Search** (`populate_kb.dfy`, `search_wikipedia_and_populate_dict`). For every keyword, the
  search fetches at most 5 results, skips titles containing `(disambiguation)` and records each
  failed fetch with the name of its exception. Every fetched page is tagged and stored under the
  hash of its title and text, unless loading its image list fails.
- **Chunker** (`populate_kb.dfy`, `convert_pages_to_kb_format`). It cuts every page's words into
  windows of 200 words that start 190 words apart. It adds one entry per image URL, with a
  description prompt.
- **Connector helpers** (`snowflake.dfy`):
  - quote escaping for SQL literals;
  - chat-history serialisation;
  - the last-three-user-questions filter;
  - safe extraction of a Cortex reply;
  - the reference-URL set;
  - the tagging prompt;
  - the per-entry export transform that puts one row on the writer's queue.
- **Python built-ins** used by that code:
  - `str.split()`, `str.split(',')`, `str.strip()`, `','.join` and `in` (`pystr.dfy`);
  - insertion-ordered `dict` assignment (`pydict.dfy`);
  - JSON subscripting with its `KeyError`/`IndexError`/`TypeError` (`pyjson.dfy`).

The search and the chunker are loops in the source, so they are `method`s here. Each is proved
equal to a recursive specification function (`Populate`, `KbEntries`, `Chunks`), and the lemmas
state the pipeline's properties about those functions. `prepare_kb_entry` appends to a queue,
modelled as a class with a sequence field.

Three consequences of the code as written are stated and proved:

- **Chunk count.** The loop `range(0, len(words), 190)` gives ceil(N/190) text chunks for N
  words. An empty page gets none, and a page of 191 to 200 words gets two, the second repeating
  the tail of the first (`ChunkCountIsCeiling`, `TrailingChunkRepeats`).
- **Repeated hashes.** A page whose hash is already stored is tagged and stored again, so the
  last fetch wins. The key keeps its first position, as a Python `dict` does (`LastWriteWins`,
  `PagesKeyOrder`).
- **Image load failures.** A page's `images` list is loaded on first access, inside the `try`
  around the dictionary store. When loading it raises, the page has already been tagged; the
  failure list gets the title with the exception's message, and nothing is stored
  (`FailuresRecorded`, `ProcessResultKeys`).

## Model

| member | source | states |
|---|---|---|
| PyStr.SplitWords | scripts/populate_kb.py:97 | `split()` yields non-empty words free of whitespace |
| PyStr.SplitWordsSeparated | scripts/populate_kb.py:97 | splitting two texts joined by a non-empty run of whitespace gives the words of the first followed by the words of the second |
| PyStr.SplitWordsAllSpace | scripts/populate_kb.py:97 | an all-whitespace text has no words |
| PyStr.SplitWordsWord | scripts/populate_kb.py:97 | a non-empty text without whitespace is one word, itself |
| PyStr.JoinWith | scripts/populate_kb.py:100 | `sep.join(xs)` is empty for no parts and the part itself for one; otherwise its length is the parts' lengths plus one separator between each pair, and it starts with the first part |
| PyStr.JoinWithAppend | scripts/populate_kb.py:100 | joining two non-empty lists is the join of the first, one separator, then the join of the second, so the parts appear in order |
| PyStr.SplitJoinWords | scripts/populate_kb.py:97-100 | splitting words joined by single spaces gives back exactly those words |
| PyStr.SplitOn | scripts/populate_kb.py:62 | `split(',')` yields one part more than there are commas, none containing a comma |
| PyStr.JoinSplitOn | scripts/populate_kb.py:62 | joining the parts of `split(sep)` with `sep` restores the string |
| PyStr.SplitJoinOn | utils/snowflake.py:223 | splitting a non-empty `sep`-join of comma-free parts gives back the parts |
| PyStr.Strip | scripts/populate_kb.py:62 | `strip()` is the contiguous middle of the string, all-whitespace on both sides, not starting or ending with whitespace |
| PyStr.StripStripped | scripts/populate_kb.py:62 | a string without surrounding whitespace strips to itself |
| PyStr.StripPadded | scripts/populate_kb.py:62 | surrounding a trimmed text with whitespace on either side and stripping gives back the text |
| PyStr.ContainsIsSubstring | scripts/populate_kb.py:39 | `sub in s` holds exactly when `sub` occurs in `s` at some position |
| PyDict.Empty | scripts/populate_kb.py:30 | the empty dictionary has no keys |
| PyDict.Put | scripts/populate_kb.py:66-72 | assignment maps the key to the new value; a new key is appended to the order, an existing key keeps its place |
| PyJson.Subscript | utils/snowflake.py:124 | subscripting raises KeyError exactly on an object lacking the key (or given an index), succeeds with the field or in-range item, and fails on anything not subscriptable |
| Snowflake.CleanPrompt | utils/snowflake.py:69-71 | escaping adds one backslash per quote, leaves quote-free text unchanged, and leaves every quote preceded by a backslash |
| Snowflake.CleanPromptInjective | utils/snowflake.py:69-71 | distinct prompts give distinct escaped texts |
| Snowflake.GenerateChatHistory | utils/snowflake.py:73-81 | the loop builds the serialised history, one fragment per message in order, empty for no messages |
| Snowflake.ChatHistoryAppend | utils/snowflake.py:73-81 | serialising a concatenation is concatenating the serialisations |
| Snowflake.ChatHistoryLength | utils/snowflake.py:79 | the history's length is the roles' and contents' lengths plus 30 characters per message |
| Snowflake.UserMessages | utils/snowflake.py:146 | the role filter keeps only user messages taken from the history |
| Snowflake.UserMessagesAppend | utils/snowflake.py:146 | the role filter distributes over concatenation |
| Snowflake.LastUsersIsSuffix | utils/snowflake.py:146 | walking back and keeping `n` user messages equals the last `min(n, #users)` of the filtered list |
| Snowflake.RecentUserMessages | utils/snowflake.py:146 | the coach sees the last three user messages (fewer if there are fewer), oldest first, all from the history |
| Snowflake.ChoiceMessages | utils/snowflake.py:296 | `response['choices'][0]['messages']` succeeds exactly when that path exists, with its value, and raises KeyError exactly when a key is missing |
| Snowflake.SafeReturnCortexResponse | utils/snowflake.py:122-128 | gives the reply when present and `''` on a missing key; only IndexError or TypeError escape, never KeyError |
| Snowflake.ReferenceUrls | utils/snowflake.py:174 | the set holds exactly the hits' reference URLs and is no larger than the hit list |
| Snowflake.EnhancedQuery | utils/snowflake.py:151-152 | the query given to the search service is the query enhancer's reply to the user's question when present, `''` on a missing key, and never a KeyError |
| Snowflake.QueryCortexChat | utils/snowflake.py:177-209 | the coach's answer to a prompt is its reply when present, `''` on a missing key, and otherwise IndexError or TypeError, never KeyError |
| Snowflake.ExtractKeywords | utils/snowflake.py:214-218 | the keyword extractor's answer for a transcript is read the same way |
| Snowflake.TaggingPrompt | utils/snowflake.py:221-229 | the tagging prompt opens with the keyword header, ends with the summary footer, and holds the page summary just before that footer |
| Snowflake.TaggingPromptListsKeywords | utils/snowflake.py:220-229 | the keyword line of the tagging prompt splits back into exactly the available keywords |
| Snowflake.TagPageWithCortex | utils/snowflake.py:220-233 | the tagger sends the tagging prompt with the keyword-selector system prompt; the answer is the reply when present, `''` on a missing key, and never KeyError |
| Snowflake.EnrichmentRequest | utils/snowflake.py:287-292 | the enrichment request is the prompt, then ` <original-text>`, the chunk text and `</original-text>`, each at its stated place |
| Snowflake.TransformEntry | utils/snowflake.py:284-305 | the row copies source, id, tags and URL; a falsy prompt passes the text through; otherwise the row exists exactly when Cortex's reply has `choices[0].messages`, which becomes the text |
| Snowflake.RowQueue.constructor | utils/snowflake.py:236 | a new queue is empty |
| Snowflake.RowQueue.Put | utils/snowflake.py:312 | a put appends the row at the end of the queue |
| Snowflake.PrepareKbEntry | utils/snowflake.py:281-312 | on success exactly the transformed row is appended; on a failed lookup the error is raised and the queue is unchanged |
| PopulateKb.KeepTitles | scripts/populate_kb.py:36-40 | exactly the results without `(disambiguation)` are kept |
| PopulateKb.KeepTitlesAppend | scripts/populate_kb.py:36-40 | filtering a concatenation is concatenating the filtered parts, so the kept titles stay in search order |
| PopulateKb.KeepTitlesOne | scripts/populate_kb.py:36-40 | a single result is kept exactly when it lacks `(disambiguation)` |
| PopulateKb.ParseTags | scripts/populate_kb.py:62 | tag `i` is part `i` of `split(',')`, stripped; there is one tag per comma plus one, none holding a comma or surrounding whitespace |
| PopulateKb.ParseTagsPadded | scripts/populate_kb.py:62 | a non-empty list of clean tags, each padded with whitespace and joined by commas, parses back to exactly those tags |
| PopulateKb.ParseTagsJoin | scripts/populate_kb.py:61-62 | an answer of clean tags joined by commas parses back to exactly those tags (the unpadded case of `ParseTagsPadded`) |
| PopulateKb.PageText | scripts/populate_kb.py:57 | the page text is the title, a line break and the content; its words are the title's words followed by the content's |
| PopulateKb.RecordOf | scripts/populate_kb.py:57-72 | the stored record holds the page text (title, line break, content, with the title's words then the content's), the summary, the loaded images, the URL, and the tagger's answer parsed by `ParseTags` |
| PopulateKb.ProcessSearchResults | scripts/populate_kb.py:43-78 | the loop over one keyword's results equals `RunTitles`: each title processed in turn, in search order |
| PopulateKb.ProcessSearchResult | scripts/populate_kb.py:44-78 | one pass of the loop body equals `ProcessResult`: a failed fetch adds its exception's name to the failures, a failed image load its message, and a stored page is put under its hash with its record |
| PopulateKb.SearchWikipediaAndPopulateDict | scripts/populate_kb.py:29-80 | the nested loops compute the specified dictionary and failure list, image-load failures included |
| PopulateKb.RunTitlesAppend | scripts/populate_kb.py:43-78 | processing two runs of titles in turn is processing their concatenation |
| PopulateKb.RunKeywordsRunsFetchedTitles | scripts/populate_kb.py:34-78 | the keyword loop is one pass over all kept titles, keyword order then result order |
| PopulateKb.FetchedTitlesAreSearchResults | scripts/populate_kb.py:34-43 | a fetched title is a non-disambiguation result of some keyword's search, and every such result is fetched |
| PopulateKb.FetchedTitlesBound | scripts/populate_kb.py:32-38 | when the search honours its limit, at most 5 titles per keyword are fetched |
| PopulateKb.FailuresRecorded | scripts/populate_kb.py:45-76 | the failure list gains, in order, one entry per title whose fetch or image load failed, named after the exception or carrying its message, and nothing else |
| PopulateKb.ProcessResultKeys | scripts/populate_kb.py:45-76 | one result adds its page's hash to the keys, or nothing when the fetch or the image load fails |
| PopulateKb.FetchedHashesMembers | scripts/populate_kb.py:57-72 | a hash is among the stored hashes exactly when some title's page was stored with that hash |
| PopulateKb.PagesKeySet | scripts/populate_kb.py:57-72 | the dictionary's keys are the old keys plus the hash of every fetched page |
| PopulateKb.PagesKeyOrder | scripts/populate_kb.py:66 | keys are never lost or reordered; new keys come after old ones |
| PopulateKb.DedupBound | scripts/populate_kb.py:57-72 | new keys plus failures never exceed the number of titles processed |
| PopulateKb.LastFetchedWithHash | scripts/populate_kb.py:57-72 | the chosen title is one of the titles and its page was stored with the given hash |
| PopulateKb.LastFetchedWithHashIsLast | scripts/populate_kb.py:57-72 | the chosen title is the last one whose page was stored with the hash, and there is none exactly when no title's page was |
| PopulateKb.LastWriteWins | scripts/populate_kb.py:60-72 | a fetched hash holds the record, tags included, of its last fetch; other keys are untouched |
| PopulateKb.Slice | scripts/populate_kb.py:100 | `words[i : i + 200]` clamps both bounds to the list and holds the words from position `i` on |
| PopulateKb.ChunkWords | scripts/populate_kb.py:96-101 | the chunking loop produces window `k` joined by spaces for each window start |
| PopulateKb.ChunkCountIsCeiling | scripts/populate_kb.py:99 | the chunk count is the ceiling of words over 190: 0 for no words, 2 for 200 |
| PopulateKb.WindowShape | scripts/populate_kb.py:99-100 | every window starts inside the page and holds 1 to 200 consecutive words |
| PopulateKb.ChunkWordsRoundTrip | scripts/populate_kb.py:97-100 | re-splitting a chunk gives exactly its window of the page's words, at most 200 |
| PopulateKb.ConsecutiveWindowsOverlap | scripts/populate_kb.py:86-100 | after a full window, the next window starts with its last 10 words |
| PopulateKb.WordCoverage | scripts/populate_kb.py:99-100 | every word appears in window `j / 190` at offset `j % 190` |
| PopulateKb.LastWindowReachesEnd | scripts/populate_kb.py:99-100 | the last window runs to the page's last word |
| PopulateKb.TrailingChunkRepeats | scripts/populate_kb.py:99-101 | a page of 191 to 200 words gets a second chunk that repeats the first's tail |
| PopulateKb.EntriesForSnoc | scripts/populate_kb.py:89-126 | one more page appends its text entries, then its image entries |
| PopulateKb.AppendPageEntries | scripts/populate_kb.py:89-126 | one pass of the page loop appends the page's text entries, then its image entries |
| PopulateKb.ConvertPagesToKbFormat | scripts/populate_kb.py:83-128 | the loops produce every page's entries in dictionary order |
| PopulateKb.TextEntries | scripts/populate_kb.py:103-113 | one entry per chunk, holding window `i` joined by spaces, with no prompt and the page's source, hash, tags and URL |
| PopulateKb.ImageEntries | scripts/populate_kb.py:116-126 | one entry per image URL in list order, holding the URL, with the description prompt embedding the summary and the page's metadata |
| PopulateKb.PageEntries | scripts/populate_kb.py:103-126 | a page gives one entry per chunk plus one per image |
| PopulateKb.PageEntriesLayout | scripts/populate_kb.py:103-126 | a page gives its chunks (no prompt) then one entry per image with the summary prompt, all labelled with source, hash, tags and URL |
| PopulateKb.KbEntriesCount | scripts/populate_kb.py:89-126 | the export has one entry per chunk and per image of every page |
| PopulateKb.EntryProvenance | scripts/populate_kb.py:89-126 | every entry comes from a stored page and is one of its chunks or image URLs, with that page's metadata |

## Left out

- Connection setup, credentials, the SQL text of the Cortex queries and the search-service client are not modelled. Cortex is a function from a system prompt and a user text to parsed JSON, and the search hits are a given list.
- The escaping that `_do_simple_cortex_query` applies before sending is not repeated in the Cortex model. `CleanPromptInjective` shows that distinct prompts stay distinct.
- CleanPrompt: backslashes are not escaped, so a prompt containing one reaches Cortex altered or breaks the SQL literal; not modelled.
- The text of the system prompts is configuration and is not modelled. `SystemPrompt` names them.
- The rest of `generate_coach_prompt` is not modelled: the search-service call with the enhanced query, the prompt template, the JSON dumps of tags and transcript, and the escaping of the final prompt at line 175. Only the user-history filter, the query-enhancer step and the URL set are.
- `_log_token_usage` is not modelled: `LOG_TOKENS` is `False` (utils/snowflake.py:22), so it does nothing.
- QueryCortexChat: the SQL text with the model name, the escaped coach system prompt and the temperature is not modelled; the coach is the `Coach` system prompt given to the Cortex function.
- `write_knowledge_base_csv` is not modelled: its thread pool, writer thread, stop event and CSV file I/O are concurrency and I/O. Its queue is `RowQueue`, and the work per entry is `PrepareKbEntry`. Row order across workers is not modelled.
- `main`, `load_secrets`, `get_transcript`, the JSON checkpoint files, the video transcript service and the Streamlit UI (`app.py`, `components/`) are I/O or presentation.
- The encyclopedia search, page fetch and summary, and SHA-256 are uninterpreted parameters. A search that raises is not modelled: the source does not catch it.
- A page's title, content and URL are treated as always available. Only the image list can fail to load; an exception while loading the content is not caught by the source and is not modelled.
- SearchWikipediaAndPopulateDict: the tagger is a parameter returning a string, so a tagger reply that is not a string (which would make `split` raise) is not modelled; `TagPageWithCortex` models the tagger itself.
- SearchWikipediaAndPopulateDict: an exception from the page fetch or summary other than `DisambiguationError` and `PageError`, and any exception from the tagger (an IndexError or TypeError from its reply, or a failed query), aborts the whole search in the source with no dictionary returned; not modelled, because `Fetch` has three outcomes and the tagger is total.
- SearchHit: only the CHUNK_TEXT and REFERENCE_URL columns are modelled; the TAGS column is not read by the modelled code.
- PyJson.Subscript: JSON numbers are integers only, so floats are not modelled; no modelled path depends on them.
- Logging (`print`) is not modelled.
