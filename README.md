# AI brochure generator — a Dafny model of its string pipeline

The generator builds a marketing brochure for a company from its website.
It fetches the landing page, asks a language model which of the page's links
matter, fetches each selected page, and joins everything into one labelled
document. It puts a short instruction naming the company in front of that
document, cuts the result to 5,000 characters, and sends it to a second model
call whose streamed reply it accumulates, returns and optionally saves.

The repository's own logic is the string assembly around those calls. This
model covers that logic. Every collaborator is an input:

- a fetched and parsed page is a `Scraper.Page`: its `<title>` element (absent,
  or present with an absent or present string), the text of its `<body>` if
  it has one, and the `href` of every anchor, each possibly absent;
- the web is a function `web: string -> Page` from URL to parsed page;
- the link-selection call and `json.loads` are a function `select` from the
  link-selection prompt to either the parsed list of `{type, url}` entries
  (`Brochure.LinkRef`) or `MalformedSelection`;
- the streamed brochure completion is a function `complete` from the
  brochure prompt to the sequence of chunk contents, each possibly absent.

The outbound calls, the display or console output, and the file write are
returned as values (`Request`, `SinkEvent`, `FileWrite`), so their order and
content can be stated.

Modules:

- `Wrappers` — `Option` and `Result`.
- `Text` — Python's `s[:n]` (`Truncate`), `sep.join` (`Join`), and `split` on
  one character (`Split`), the inverse used to state what a joined prompt
  keeps.
- `Scraper` (`scraper.py`) — the page-content string and the link filter.
- `Brochure` (`brochure_generator.py`) — the link-selection prompt, the
  aggregation loop, the brochure prompt and the streaming loop.

Details of the code worth knowing:

- The brochure prompt interpolates only the company name. The URL is used to
  fetch pages but does not itself appear in the prompt.
- The 2,000-character cap applies to title, blank line and body text taken
  together, so a very long title is cut as well.
- The link filter drops empty `href` values as well as absent ones.
- The landing page is fetched twice, once for its content and once for its
  links, before the selection call. So even when no link is selected there
  are two page requests and one model request.
- The non-streaming entry point returns nothing; it only displays the reply.

## Model

| member | source | states |
|---|---|---|
| `Text.Truncate` | scraper.py:47 | The slice `[:n]` gives a prefix of its input of length `min(len, n)`: it never fails, equals the input when the input fits, and is exactly `n` long otherwise. |
| `Text.TruncateAfterPrefix` | brochure_generator.py:152-153 | Cutting `a + b` where `a` fits the cap keeps `a` whole and cuts `b` to the remaining budget. |
| `Text.TruncateKeepsShortPrefix` | brochure_generator.py:153 | Every prefix of the assembled text that fits the cap is a prefix of the cut text. |
| `Text.JoinSnoc` | brochure_generator.py:72 | Joining one more link adds the separator and that link at the end. |
| `Text.JoinLength` | brochure_generator.py:72 | A join is as long as its parts plus one separator between each two neighbours. |
| `Text.SplitJoin` | brochure_generator.py:72 | Splitting a newline join gives back the parts, in order, when there is at least one part and no part contains a newline. |
| `Scraper.Title` | scraper.py:40 | The title is never empty. It is the page's own title string when the title element exists and its string is present and non-empty, and "No title found" otherwise. |
| `Scraper.Contents` | scraper.py:41-47 | The content string is at most 2,000 characters long and is a prefix of title + "\n\n" + body text. It equals that string when it fits and is exactly 2,000 characters long otherwise. |
| `Scraper.ContentsStartWithTitle` | scraper.py:47 | A title that fits the cap starts the content string whole, followed by the blank line. |
| `Scraper.ContentsWithoutBody` | scraper.py:41-47 | Without a body the text is empty, so the content string is a prefix of title + "\n\n". |
| `Scraper.ContentsOfEmptyPage` | scraper.py:40-47 | A page with no usable title and no body gives exactly "No title found\n\n". |
| `Scraper.Links` | scraper.py:71-72 | Every returned link is non-empty and is the `href` of some anchor. There are never more links than anchors. |
| `Scraper.LinksAppend` | scraper.py:71-72 | The filter works anchor by anchor: filtering two runs of anchors gives the two filtered runs in the same order. |
| `Scraper.LinksOfOne` | scraper.py:72 | One anchor gives its `href` when it is present and non-empty, and nothing otherwise. |
| `Scraper.LinksKeepAllNonEmpty` | scraper.py:71-72 | Anchors whose targets are all non-empty come back exactly as given: nothing is rewritten, reordered or deduplicated. |
| `Scraper.LinksOfUnkept` | scraper.py:72 | Anchors with no usable target all disappear. |
| `Scraper.LinksCount` | scraper.py:71-72 | There is exactly one link per anchor with a present, non-empty `href`. |
| `Brochure.LinksUserPrompt` | brochure_generator.py:62-73 | The link-selection prompt starts with the fixed preamble that has the URL interpolated. With no links it is exactly that preamble. |
| `Brochure.LinksRecoverableFromPrompt` | brochure_generator.py:71-72 | The page's links, in order, can be read back from the prompt by splitting what follows the preamble at its newlines. This holds when there is at least one link and none contains a newline. |
| `Brochure.SectionOfOne` | brochure_generator.py:121-122 | One selected entry contributes exactly its own labelled section. |
| `Brochure.SectionsAppend` | brochure_generator.py:120-122 | The sections of two runs of entries are the first run's sections followed by the second's. Order is kept and repeats are repeated. |
| `Brochure.AppendSection` | brochure_generator.py:120-122 | Each loop step appends the next entry's section after the sections of the entries before it. |
| `Brochure.Document` | brochure_generator.py:118-124 | The document starts with the landing-page heading block. With no selected entries it is exactly that block. |
| `Brochure.DocumentKeepsDuplicates` | brochure_generator.py:120-122 | An entry selected twice puts its section into the document twice in a row. No deduplication takes place. |
| `Brochure.Aggregate` | brochure_generator.py:116-124 | Aggregation fails exactly when the selection fails, with the same error. Otherwise the document starts with the heading around the landing page's content, and an empty selection gives exactly that heading. |
| `Brochure.AggregateRequests` | brochure_generator.py:116-122 | The calls go in this order: the landing page's content, the landing page's links, then the non-streaming selection request with the link-selection model and prompt, asking for a JSON object. If the selection succeeds, one content fetch per entry follows in order. If it fails, nothing follows. |
| `Brochure.FetchPageAndAllRelevantLinks` | brochure_generator.py:102-124 | The loop that appends one section per entry returns the aggregated document, or the selection's failure, and issues exactly the requests above. |
| `Brochure.BrochurePrompt` | brochure_generator.py:147-154 | The brochure prompt is at most 5,000 characters and is a prefix of preamble + document. It equals that string when it fits and is exactly 5,000 characters otherwise. |
| `Brochure.BrochurePromptKeepsPreamble` | brochure_generator.py:152-153 | A preamble that fits survives whole, and the document gets the rest of the budget. |
| `Brochure.BrochurePromptKeepsLeadingSections` | brochure_generator.py:152-153 | The cut happens once, after assembly. The preamble, the heading and every leading run of sections that fits the budget come through whole. |
| `Brochure.GetBrochureUserPrompt` | brochure_generator.py:136-154 | The prompt fails exactly when the selection fails. Otherwise it is the cut of preamble + aggregated document, and the requests are those of the aggregation. |
| `Brochure.StreamedSnoc` | brochure_generator.py:215 | Reading one more chunk appends that chunk's content and nothing else. |
| `Brochure.StreamedAppend` | brochure_generator.py:214-215 | The text of two runs of chunks is the first run's text followed by the second's. |
| `Brochure.StreamedLength` | brochure_generator.py:214-215 | The accumulated text is as long as all chunk contents together. |
| `Brochure.SinksShowEverything` | brochure_generator.py:214-220 | The printed pieces, in order, make up the accumulated text. Every display redraw shows a prefix of it, and the last one shows all of it. |
| `Brochure.AccumulateStream` | brochure_generator.py:204-220 | After the loop the response is the concatenation of every chunk's content, with absent content as `''`. The sink received exactly one event per chunk. |
| `Brochure.StreamBrochure` | brochure_generator.py:180-228 | If the prompt cannot be built, nothing is streamed, shown or written. Otherwise the result is the accumulated stream for the cut prompt, the requests end with one streaming request for that prompt, and the file is written once with exactly that text, only when a non-empty file name is given. |

## Left out

- Page fetches and completion calls never fail in the model: `web`, `select` and `complete` are total. `AggregateRequests`, `FetchPageAndAllRelevantLinks`, `GetBrochureUserPrompt` and `StreamBrochure` therefore describe only runs in which every fetch succeeds and every completion call and stream iteration succeeds. A network error, or a selected URL that is relative or malformed, raises in the source in the middle of the aggregation loop after earlier pages were fetched; a failed completion call or a stream that breaks off raises after earlier requests or sink events. None of these runs is modelled.
- HTTP retrieval (`requests.get` with the browser user-agent header) is not modelled. The network is the function `web`, so a URL yields the same page every time it is fetched; the real landing page is fetched twice and could differ between the two fetches.
- HTML parsing, the removal of script, style, image and input elements, and text extraction are not modelled. They belong to the parser library, so the title element, the body text and the `href` values are inputs.
- The completion calls (`openai.chat.completions.create`, streaming and not) are not modelled. They are remote; their replies are the inputs `select` and `complete`, and each call is recorded as a `Request`.
- The parsing of the selection reply (`json.loads`, then `['links']`) is not modelled. Both of its failures, text that is not JSON and JSON without a `links` list, are one error, `MalformedSelection`. An entry without a `type` or `url` key, which would raise in the middle of the loop after some pages were fetched, is not modelled; entries always carry two strings.
- `create_brochure` is modelled only through `GetBrochureUserPrompt`. Besides that prompt it makes one non-streaming completion call and displays the reply, and it returns nothing.
- The IPython display probe is the input `displayAvailable`. The initial empty display, Markdown rendering and the "Brochure saved to" console message are UI output and are not modelled.
- Writing the file is recorded as a `FileWrite` value. Text encoding, overwriting and I/O errors are not modelled.
- Stream chunks without a first choice are not modelled; every chunk carries an optional content string.
- The module-level `.env` loading, the API-key prefix check that only prints a warning, the client construction and the `__main__` block are configuration and console output, and they do not affect the pipeline.
- Python strings are sequences of code points and Dafny strings are sequences of `char`. The two differ only for lone surrogates, which the model does not distinguish.
