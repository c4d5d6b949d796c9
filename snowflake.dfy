/**
 * The logic of the Snowflake connector that the knowledge-base pipeline and the coach rely on:
 * quote escaping, chat-history serialisation, the recent-questions filter, Cortex reply
 * extraction, the reference-URL set, the tagging prompt and the per-entry export transform.
 * Cortex itself (an LLM behind SQL) is an abstract function from a system prompt and a user
 * text to the parsed JSON reply.
 */
module Snowflake {
  import opened Wrappers
  import opened PyStr
  import opened PyJson

  /** The configured system prompts a completion can be sent with; their text is configuration. */
  datatype SystemPrompt = Coach | KeywordExtractor | KeywordSelector | KnowledgeBaseTransform | QueryEnhancer

  /** A Cortex completion: system prompt and user text in, the parsed JSON response out. */
  type Cortex = (SystemPrompt, string) -> Json

  // ----- quote escaping -----

  /** Escapes every single quote with a backslash, for embedding in a quoted SQL literal. */
  function CleanPrompt(prompt: string): (r: string)
    ensures |r| == |prompt| + Count(prompt, '\'')
    ensures Count(prompt, '\'') == 0 ==> r == prompt
    ensures forall i :: 0 <= i < |r| && r[i] == '\'' ==> 0 < i && r[i - 1] == '\\'
  {
    if prompt == [] then []
    else
      var head := if prompt[0] == '\'' then "\\'" else [prompt[0]];
      var rest := CleanPrompt(prompt[1..]);
      assert forall i :: |head| <= i < |head + rest| ==> (head + rest)[i] == rest[i - |head|];
      head + rest
  }

  /**
   * A left inverse of the escaping, used only to prove it injective: each backslash-quote pair
   * becomes a quote. It is not how the database reads the literal (that also decodes `\\`, `\n`
   * and other escapes).
   */
  function Unescape(s: string): string {
    if |s| >= 2 && s[0] == '\\' && s[1] == '\'' then "'" + Unescape(s[2..])
    else if s == [] then []
    else [s[0]] + Unescape(s[1..])
  }

  /** `Unescape` undoes the escaping. */
  lemma {:induction false} UnescapeCleanPrompt(prompt: string)
    ensures Unescape(CleanPrompt(prompt)) == prompt
  {
    if prompt != [] {
      var rest := CleanPrompt(prompt[1..]);
      UnescapeCleanPrompt(prompt[1..]);
      if prompt[0] == '\'' {
        assert CleanPrompt(prompt) == "\\'" + rest;
        assert ("\\'" + rest)[2..] == rest;
      } else {
        assert CleanPrompt(prompt) == [prompt[0]] + rest;
        assert ([prompt[0]] + rest)[1..] == rest;
        assert rest != [] ==> rest[0] != '\'';
      }
      assert prompt == [prompt[0]] + prompt[1..];
    }
  }

  /** Distinct prompts give distinct escaped texts. */
  lemma CleanPromptInjective(a: string, b: string)
    ensures CleanPrompt(a) == CleanPrompt(b) ==> a == b
  {
    UnescapeCleanPrompt(a);
    UnescapeCleanPrompt(b);
  }

  // ----- chat history -----

  datatype Message = Message(role: string, content: string)

  /** The text one message contributes to the serialised history. */
  function Fragment(m: Message): string {
    "{ 'role': '" + m.role + "', 'content': '" + m.content + "' },"
  }

  /** The serialised history: one fragment per message, in message order. */
  function ChatHistory(history: seq<Message>): string {
    if history == [] then ""
    else ChatHistory(history[..|history| - 1]) + Fragment(history[|history| - 1])
  }

  /** Builds the serialised history string one message at a time. */
  method GenerateChatHistory(chatHistory: seq<Message>) returns (chatHistoryStr: string)
    ensures chatHistoryStr == ChatHistory(chatHistory)
    ensures chatHistory == [] ==> chatHistoryStr == ""
  {
    chatHistoryStr := "";
    for i := 0 to |chatHistory|
      invariant chatHistoryStr == ChatHistory(chatHistory[..i])
    {
      var role := chatHistory[i].role;
      var content := chatHistory[i].content;
      chatHistoryStr := chatHistoryStr + "{ 'role': '" + role + "', 'content': '" + content + "' },";
      assert chatHistory[..i + 1][..i] == chatHistory[..i];
    }
    assert chatHistory[..|chatHistory|] == chatHistory;
  }

  /** Serialising two histories one after the other is serialising their concatenation. */
  lemma {:induction false} ChatHistoryAppend(a: seq<Message>, b: seq<Message>)
    ensures ChatHistory(a + b) == ChatHistory(a) + ChatHistory(b)
    decreases |b|
  {
    if b == [] {
      assert a + b == a;
    } else {
      var b', last := b[..|b| - 1], b[|b| - 1];
      assert (a + b)[..|a + b| - 1] == a + b';
      assert (a + b)[|a + b| - 1] == last;
      ChatHistoryAppend(a, b');
      var x, y, z := ChatHistory(a), ChatHistory(b'), Fragment(last);
      calc {
        ChatHistory(a + b);
        ChatHistory(a + b') + z;
        (x + y) + z;
        { assert (x + y) + z == x + (y + z); }
        x + (y + z);
        x + ChatHistory(b);
      }
    }
  }

  /** Number of characters the fixed parts of one fragment add. */
  const FragmentOverhead := 30

  function TextLength(history: seq<Message>): nat {
    if history == [] then 0
    else TextLength(history[..|history| - 1]) + |history[|history| - 1].role| + |history[|history| - 1].content|
  }

  /** The history's length: the messages' roles and contents plus a fixed overhead per message. */
  lemma {:induction false} ChatHistoryLength(history: seq<Message>)
    ensures |ChatHistory(history)| == FragmentOverhead * |history| + TextLength(history)
  {
    if history != [] {
      ChatHistoryLength(history[..|history| - 1]);
    }
  }

  // ----- recent user questions -----

  /** `[msg for msg in history if msg['role'] == 'user']`. */
  function UserMessages(history: seq<Message>): (users: seq<Message>)
    ensures |users| <= |history|
    ensures forall i :: 0 <= i < |users| ==> users[i].role == "user" && users[i] in history
  {
    if history == [] then []
    else (if history[0].role == "user" then [history[0]] else []) + UserMessages(history[1..])
  }

  /** An independent reference: walk back from the newest message, keeping up to `n` user messages. */
  function LastUsers(history: seq<Message>, n: nat): seq<Message> {
    if history == [] || n == 0 then []
    else
      var last := history[|history| - 1];
      if last.role == "user" then LastUsers(history[..|history| - 1], n - 1) + [last]
      else LastUsers(history[..|history| - 1], n)
  }

  lemma {:induction false} UserMessagesAppend(a: seq<Message>, b: seq<Message>)
    ensures UserMessages(a + b) == UserMessages(a) + UserMessages(b)
  {
    if a == [] {
      assert a + b == b;
    } else {
      var x, rest := a[0], a[1..];
      var head := if x.role == "user" then [x] else [];
      assert a == [x] + rest && a + b == [x] + (rest + b);
      calc {
        UserMessages(a + b);
        { UserMessagesCons(x, rest + b); }
        head + UserMessages(rest + b);
        { UserMessagesAppend(rest, b); }
        head + (UserMessages(rest) + UserMessages(b));
        (head + UserMessages(rest)) + UserMessages(b);
        { UserMessagesCons(x, rest); }
        UserMessages(a) + UserMessages(b);
      }
    }
  }

  lemma UserMessagesCons(x: Message, rest: seq<Message>)
    ensures UserMessages([x] + rest) == (if x.role == "user" then [x] else []) + UserMessages(rest)
  {
    assert ([x] + rest)[0] == x && ([x] + rest)[1..] == rest;
  }

  function Min(a: nat, b: nat): nat { if a <= b then a else b }

  /** Walking back and keeping `n` user messages gives the last `min(n, #users)` of the filtered list. */
  lemma {:induction false} LastUsersIsSuffix(history: seq<Message>, n: nat)
    ensures var users := UserMessages(history);
      LastUsers(history, n) == users[|users| - Min(n, |users|)..]
    decreases |history|
  {
    if history != [] && n != 0 {
      var init, last := history[..|history| - 1], history[|history| - 1];
      assert history == init + [last];
      UserMessagesSnoc(init, last);
      var ui, users := UserMessages(init), UserMessages(history);
      if last.role == "user" {
        assert users == ui + [last];
        LastUsersIsSuffix(init, n - 1);
        var k := |ui| - Min(n - 1, |ui|);
        assert LastUsers(init, n - 1) == ui[k..];
        assert LastUsers(history, n) == ui[k..] + [last];
        assert |users| - Min(n, |users|) == k;
        SuffixSnoc(ui, last, k);
        assert users[k..] == ui[k..] + [last];
      } else {
        assert users == ui;
        LastUsersIsSuffix(init, n);
        assert LastUsers(history, n) == LastUsers(init, n);
      }
    }
  }

  lemma UserMessagesSnoc(init: seq<Message>, last: Message)
    ensures UserMessages(init + [last]) == UserMessages(init) + (if last.role == "user" then [last] else [])
  {
    UserMessagesAppend(init, [last]);
    UserMessagesCons(last, []);
    assert [last] + [] == [last];
  }

  lemma SuffixSnoc<T>(u: seq<T>, x: T, k: nat)
    requires k <= |u|
    ensures (u + [x])[k..] == u[k..] + [x]
  {
  }

  /** The chat history the coach prompt embeds: the last three user messages, oldest first. */
  function RecentUserMessages(chatHistory: seq<Message>): (recent: seq<Message>)
    ensures |recent| == Min(3, |UserMessages(chatHistory)|)
    ensures recent == LastUsers(chatHistory, 3)
    ensures forall i :: 0 <= i < |recent| ==> recent[i].role == "user" && recent[i] in chatHistory
  {
    var users := UserMessages(chatHistory);
    LastUsersIsSuffix(chatHistory, 3);
    users[if |users| > 3 then |users| - 3 else 0..]
  }

  // ----- Cortex replies -----

  /** The response has the shape `{"choices": [{"messages": ...}, ...], ...}`. */
  predicate HasReply(response: Json) {
    && response.JObj? && "choices" in response.fields
    && response.fields["choices"].JArr? && |response.fields["choices"].items| > 0
    && response.fields["choices"].items[0].JObj?
    && "messages" in response.fields["choices"].items[0].fields
  }

  function Reply(response: Json): Json
    requires HasReply(response)
  {
    response.fields["choices"].items[0].fields["messages"]
  }

  /** Looking up `choices`, `0`, `messages` stops at a key the response lacks (Python's KeyError). */
  predicate MissesKey(response: Json) {
    && response.JObj?
    && (|| "choices" !in response.fields
        || response.fields["choices"].JObj?
        || (&& response.fields["choices"].JArr?
            && |response.fields["choices"].items| > 0
            && response.fields["choices"].items[0].JObj?
            && "messages" !in response.fields["choices"].items[0].fields))
  }

  /** `response['choices'][0]['messages']`, raising what Python raises. */
  function ChoiceMessages(response: Json): (r: Result<Json, PyError>)
    ensures r.Success? <==> HasReply(response)
    ensures HasReply(response) ==> r.value == Reply(response)
    ensures r == Failure(KeyError) <==> MissesKey(response)
  {
    match Subscript(response, KStr("choices"))
    case Failure(e) => Failure(e)
    case Success(choices) =>
      match Subscript(choices, KInt(0))
      case Failure(e) => Failure(e)
      case Success(first) => Subscript(first, KStr("messages"))
  }

  /**
   * `_safe_return_cortex_response`: the reply when it is there, `''` when a key is missing;
   * an IndexError or TypeError along the path is not caught.
   */
  function SafeReturnCortexResponse(response: Json): (r: Result<Json, PyError>)
    ensures ReadsSafely(response, r)
  {
    match ChoiceMessages(response)
    case Success(v) => Success(v)
    case Failure(KeyError) => Success(JStr(""))
    case Failure(e) => Failure(e)
  }

  /**
   * `r` is what `_safe_return_cortex_response` gives for `response`: the reply when it is there,
   * `''` when a key is missing, and otherwise an error that is never a KeyError.
   */
  predicate ReadsSafely(response: Json, r: Result<Json, PyError>) {
    && (HasReply(response) ==> r == Success(Reply(response)))
    && (MissesKey(response) ==> r == Success(JStr("")))
    && (r.Failure? <==> !HasReply(response) && !MissesKey(response))
    && (r.Failure? ==> r.error != KeyError)
  }

  /**
   * `query_cortex_chat`: the coach's reply to an already escaped prompt, read safely (token
   * logging is switched off, so the `usage` field is never read).
   */
  function QueryCortexChat(cortex: Cortex, prompt: string): (r: Result<Json, PyError>)
    ensures ReadsSafely(cortex(Coach, prompt), r)
  {
    SafeReturnCortexResponse(cortex(Coach, prompt))
  }

  /**
   * The query-enhancer step of `generate_coach_prompt`: the user's question rewritten by Cortex,
   * read safely; the result is the query given to the search service.
   */
  function EnhancedQuery(cortex: Cortex, userQuestion: string): (r: Result<Json, PyError>)
    ensures ReadsSafely(cortex(QueryEnhancer, userQuestion), r)
  {
    SafeReturnCortexResponse(cortex(QueryEnhancer, userQuestion))
  }

  /** `get_cortex_keywords_from_transcript`: the keyword extractor's reply for a transcript, read safely. */
  function ExtractKeywords(cortex: Cortex, transcript: string): (r: Result<Json, PyError>)
    ensures ReadsSafely(cortex(KeywordExtractor, transcript), r)
  {
    SafeReturnCortexResponse(cortex(KeywordExtractor, transcript))
  }

  // ----- knowledge-base search results -----

  /** One hit of the Cortex search service (the columns the coach reads). */
  datatype SearchHit = SearchHit(chunkText: string, referenceUrl: string)

  /** `set([chunk['REFERENCE_URL'] for chunk in results])`. */
  function ReferenceUrls(results: seq<SearchHit>): (urls: set<string>)
    ensures forall i :: 0 <= i < |results| ==> results[i].referenceUrl in urls
    ensures forall u :: u in urls ==> exists i :: 0 <= i < |results| && results[i].referenceUrl == u
    ensures |urls| <= |results|
  {
    if results == [] then {}
    else
      var rest := ReferenceUrls(results[1..]);
      assert forall i :: 1 <= i < |results| ==> results[i] == results[1..][i - 1];
      {results[0].referenceUrl} + rest
  }

  // ----- page tagging -----

  const TagPromptHead := "\n\t\t\t<available-keywords>\n\t\t\t"
  /** Starts with the line break that ends the keyword line. */
  const TagPromptMiddle := "\n" + "\t\t\t</available-keywords>\n\n\t\t\t<wikipedia-summary>\n\t\t\t"
  const TagPromptTail := "\n\t\t\t</wikipedia-summary>\n\t\t"

  /** The user text of the tagging request: the available keywords joined by ',' and the page summary. */
  function TaggingPrompt(availableTags: seq<string>, pageSummary: string): (prompt: string)
    ensures |prompt| >= |TagPromptHead| + |TagPromptTail| + |pageSummary|
    ensures prompt[..|TagPromptHead|] == TagPromptHead
    ensures prompt[|prompt| - |TagPromptTail|..] == TagPromptTail
    ensures prompt[|prompt| - |TagPromptTail| - |pageSummary|..|prompt| - |TagPromptTail|] == pageSummary
  {
    TagPromptHead + JoinWith(",", availableTags) + TagPromptMiddle + pageSummary + TagPromptTail
  }

  /**
   * The keyword line of the tagging prompt, split on ',', is exactly the list of available
   * keywords, provided there is one and no keyword holds a ',' or a line break.
   */
  lemma TaggingPromptListsKeywords(availableTags: seq<string>, pageSummary: string)
    requires |availableTags| > 0
    requires forall i :: 0 <= i < |availableTags| ==> ',' !in availableTags[i] && '\n' !in availableTags[i]
    ensures SplitOn(UpTo(TaggingPrompt(availableTags, pageSummary)[|TagPromptHead|..], '\n'), ',') == availableTags
  {
    var joined := JoinWith(",", availableTags);
    var after := TagPromptMiddle + pageSummary + TagPromptTail;
    TaggingPromptAfterHead(availableTags, pageSummary);
    JoinAvoids(",", availableTags, '\n');
    assert after[0] == '\n';
    UpToPrefix(joined, after, '\n');
    assert "," == [','];
    SplitJoinOn(availableTags, ',');
  }

  lemma TaggingPromptAfterHead(availableTags: seq<string>, pageSummary: string)
    ensures TaggingPrompt(availableTags, pageSummary)[|TagPromptHead|..] ==
      JoinWith(",", availableTags) + (TagPromptMiddle + pageSummary + TagPromptTail)
  {
    var rest := JoinWith(",", availableTags) + (TagPromptMiddle + pageSummary + TagPromptTail);
    assert TaggingPrompt(availableTags, pageSummary) == TagPromptHead + rest;
    AfterPrefix(TagPromptHead, rest);
  }

  lemma AfterPrefix(head: string, rest: string)
    ensures (head + rest)[|head|..] == rest
  {
  }

  /** `tag_page_with_cortex`: asks Cortex which keywords apply to the summary, read safely. */
  function TagPageWithCortex(cortex: Cortex, availableTags: seq<string>, pageSummary: string): (r: Result<Json, PyError>)
    ensures ReadsSafely(cortex(KeywordSelector, TaggingPrompt(availableTags, pageSummary)), r)
  {
    SafeReturnCortexResponse(cortex(KeywordSelector, TaggingPrompt(availableTags, pageSummary)))
  }

  // ----- knowledge-base export -----

  /** An entry produced by the chunker; `prompt` asks for enrichment, `None` means pass-through. */
  datatype KbEntry = KbEntry(
    source: string, sourceId: string, chunkText: string, tags: seq<string>,
    referenceUrl: string, prompt: Option<string>)

  /** A row of the export, in its column order SOURCE, SOURCE_ID, CHUNK_TEXT, TAGS, REFERENCE_URL. */
  datatype CsvRow = CsvRow(source: string, sourceId: string, chunkText: Json, tags: seq<string>, referenceUrl: string)

  /** Python truthiness of the optional prompt: absent, `None` and `''` are all false. */
  predicate Truthy(prompt: Option<string>) {
    prompt.Some? && prompt.value != ""
  }

  const OriginalOpen := " <original-text>"
  const OriginalClose := "</original-text>"

  /** The user text of an enrichment request: the prompt, then the original chunk between delimiters. */
  function EnrichmentRequest(prompt: string, chunkText: string): (request: string)
    ensures |request| == |prompt| + |OriginalOpen| + |chunkText| + |OriginalClose|
    ensures request[..|prompt|] == prompt
    ensures request[|prompt|..|prompt| + |OriginalOpen|] == OriginalOpen
    ensures request[|prompt| + |OriginalOpen|..|request| - |OriginalClose|] == chunkText
    ensures request[|request| - |OriginalClose|..] == OriginalClose
  {
    prompt + OriginalOpen + chunkText + OriginalClose
  }

  /**
   * The row `prepare_kb_entry` builds for an entry: the four identifying columns copied, the
   * prompt dropped, and CHUNK_TEXT either passed through or replaced by Cortex's reply; a reply
   * without `choices[0].messages` raises.
   */
  function TransformEntry(cortex: Cortex, entry: KbEntry): (r: Result<CsvRow, PyError>)
    ensures r.Success? ==>
      && r.value.source == entry.source && r.value.sourceId == entry.sourceId
      && r.value.tags == entry.tags && r.value.referenceUrl == entry.referenceUrl
    ensures !Truthy(entry.prompt) ==> r.Success? && r.value.chunkText == JStr(entry.chunkText)
    ensures Truthy(entry.prompt) ==>
      var response := cortex(KnowledgeBaseTransform, EnrichmentRequest(entry.prompt.value, entry.chunkText));
      && (r.Success? <==> HasReply(response))
      && (r.Success? ==> r.value.chunkText == Reply(response))
  {
    var transformed :=
      if Truthy(entry.prompt) then
        ChoiceMessages(cortex(KnowledgeBaseTransform, EnrichmentRequest(entry.prompt.value, entry.chunkText)))
      else Success(JStr(entry.chunkText));
    match transformed
    case Failure(e) => Failure(e)
    case Success(text) => Success(CsvRow(entry.source, entry.sourceId, text, entry.tags, entry.referenceUrl))
  }

  /** The FIFO queue the export's writer drains. */
  class RowQueue {
    var rows: seq<CsvRow>

    constructor ()
      ensures rows == []
    {
      rows := [];
    }

    method Put(row: CsvRow)
      modifies this
      ensures rows == old(rows) + [row]
    {
      rows := rows + [row];
    }
  }

  /**
   * `prepare_kb_entry`: transforms one entry and puts exactly one row on the queue, or raises
   * and puts nothing.
   */
  method PrepareKbEntry(cortex: Cortex, queue: RowQueue, entry: KbEntry) returns (raised: Option<PyError>)
    modifies queue
    ensures TransformEntry(cortex, entry).Success? ==>
      raised == None && queue.rows == old(queue.rows) + [TransformEntry(cortex, entry).value]
    ensures TransformEntry(cortex, entry).Failure? ==>
      raised == Some(TransformEntry(cortex, entry).error) && queue.rows == old(queue.rows)
  {
    var transformedChunkText := JStr(entry.chunkText);
    if Truthy(entry.prompt) {
      var prompt := entry.prompt.value + OriginalOpen + entry.chunkText + OriginalClose;
      var result := cortex(KnowledgeBaseTransform, prompt);
      var messages := ChoiceMessages(result);
      if messages.Failure? {
        return Some(messages.error);
      }
      transformedChunkText := messages.value;
    }
    var transformedEntry := CsvRow(entry.source, entry.sourceId, transformedChunkText, entry.tags, entry.referenceUrl);
    queue.Put(transformedEntry);
    raised := None;
  }
}
