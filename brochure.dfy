/** The brochure pipeline of `brochure_generator.py`: the link-selection
    prompt, the aggregation of the landing page with every page the model
    selects, the brochure prompt cut to 5,000 characters, and the loop that
    accumulates the streamed completion.

    Every collaborator is a parameter. `web` is the parsed page each URL
    yields; `select` is the model's reply to a link-selection prompt as
    parsed by `json.loads`, a list of `{type, url}` entries or a parse
    failure; `complete` is the stream of chunk contents the completion
    endpoint delivers for a brochure prompt. The network, the model and the
    file system are recorded as the requests issued, the sink events and
    the file write, all of them out-parameters of the methods. */
module Brochure {
  import opened Wrappers
  import opened Text
  import opened Scraper

  /** The model profile used to select links. */
  const LinkModel: string := "gpt-5-nano"

  /** The model profile used to write the brochure. */
  const BrochureModel: string := "gpt-4.1-mini"

  /** The text of the link-selection prompt before the URL. */
  const LinksIntro: string := "\nHere is the list of links on the website "

  /** The text of the link-selection prompt between the URL and the links. */
  const LinksInstructions: string := " -\nPlease decide which of these are relevant web links for a brochure about the company,\nrespond with the full https URL in JSON format.\nDo not include Terms of Service, Privacy, email links.\n\nLinks (some might be relative links):\n\n"

  /** The text of the brochure prompt before the company name. */
  const BrochureIntro: string := "\nYou are looking at a company called: "

  /** The text of the brochure prompt between the company name and the
      aggregated document. */
  const BrochureInstructions: string := "\nHere are the contents of its landing page and other relevant pages;\nuse this information to build a short brochure of the company in markdown without code blocks.\n\n\n"

  /** The headings of the aggregated document. */
  const LandingHeading: string := "## Landing Page:\n\n"
  const LinksHeading: string := "\n## Relevant Links:\n"
  const SectionHeading: string := "\n\n### Link: "

  /** The cap on the brochure prompt, in characters. */
  const PromptLimit: nat := 5000

  /** One entry of the model's link selection: a free-form label and the
      URL to fetch. */
  datatype LinkRef = LinkRef(kind: string, url: string)

  /** Why a selection could not be used: the reply was not JSON, or had no
      `links` list. */
  datatype SelectionError = MalformedSelection

  /** The two system prompts the pipeline sends; a request records which
      one it carries, and `SystemPrompt` gives its text. */
  datatype Persona = LinkSelector | BrochureWriter

  /** The text of each system prompt. */
  function SystemPrompt(persona: Persona): string
  {
    match persona
    case LinkSelector =>
      "\nYou are provided with a list of links found on a webpage.\nYou are able to decide which of the links would be most relevant to include in a brochure about the company,\nsuch as links to an About page, or a Company page, or Careers/Jobs pages.\nYou should respond in JSON as in this example:\n\n{\n    \"links\": [\n        {\"type\": \"about page\", \"url\": \"https://full.url/goes/here/about\"},\n        {\"type\": \"careers page\", \"url\": \"https://another.full.url/careers\"}\n    ]\n}\n"
    case BrochureWriter =>
      "\nYou are an assistant that analyzes the contents of several relevant pages from a company website\nand creates a short, humorous, entertaining, witty brochure about the company for prospective customers, investors and recruits.\nRespond in markdown without code blocks.\nInclude details of company culture, customers and careers/jobs if you have the information.\n"
  }

  /** One outbound call, in the order the pipeline makes them: a page fetch
      for its content, a page fetch for its links, or a completion request
      with its model, system prompt, user prompt, whether it asks for a JSON
      object as the response format, and whether it streams. */
  datatype Request =
    | GetContents(url: string)
    | GetLinks(url: string)
    | Complete(model: string, system: Persona, user: string, json: bool, stream: bool)

  /** Where a streamed chunk goes: the notebook display, redrawn with the
      text so far, or the console, which receives the chunk itself. */
  datatype SinkEvent = UpdateDisplay(shown: string) | PrintChunk(printed: string)

  /** The brochure written to a file: where, and what. */
  datatype FileWrite = FileWrite(path: string, text: string)

  // ---------------------------------------------------------------------
  // Link-selection prompt

  /** The fixed text before the list of links, with the URL interpolated. */
  function LinksPreamble(url: string): string
  {
    LinksIntro + url + LinksInstructions
  }

  /** `get_links_user_prompt`: the preamble, then the page's links one per
      line. */
  function LinksUserPrompt(url: string, web: string -> Page): (prompt: string)
    ensures LinksPreamble(url) <= prompt
    ensures Links(web(url).hrefs) == [] ==> prompt == LinksPreamble(url)
  {
    LinksPreamble(url) + Join("\n", Links(web(url).hrefs))
  }

  /** The links can be read back from the prompt: splitting what follows
      the preamble at its newlines gives the page's links, in order,
      whenever there is at least one and none of them holds a newline. */
  lemma LinksRecoverableFromPrompt(url: string, web: string -> Page)
    requires Links(web(url).hrefs) != []
    requires forall i :: 0 <= i < |Links(web(url).hrefs)| ==> '\n' !in Links(web(url).hrefs)[i]
    ensures Split(LinksUserPrompt(url, web)[|LinksPreamble(url)|..], '\n') == Links(web(url).hrefs)
  {
    var links := Links(web(url).hrefs);
    assert LinksUserPrompt(url, web)[|LinksPreamble(url)|..] == Join(['\n'], links);
    SplitJoin(links, '\n');
  }

  // ---------------------------------------------------------------------
  // Aggregation

  /** The heading of the aggregated document, around the landing page's
      content. */
  function Header(landing: string): string
  {
    LandingHeading + landing + LinksHeading
  }

  /** The labelled section of one selected page. */
  function Section(link: LinkRef, web: string -> Page): string
  {
    SectionHeading + link.kind + "\n" + Contents(web(link.url))
  }

  /** The sections of the selected pages, one per entry, in the model's
      order. */
  function Sections(links: seq<LinkRef>, web: string -> Page): string
    decreases |links|
  {
    if links == [] then "" else Section(links[0], web) + Sections(links[1..], web)
  }

  /** Sections are laid out entry by entry: the sections of two runs of
      entries are the sections of the first run followed by those of the
      second. So order is kept and a repeated entry gives a repeated
      section. */
  lemma {:induction false} SectionsAppend(a: seq<LinkRef>, b: seq<LinkRef>, web: string -> Page)
    ensures Sections(a + b, web) == Sections(a, web) + Sections(b, web)
    decreases |a|
  {
    if a == [] {
      assert a + b == b;
    } else {
      assert (a + b)[1..] == a[1..] + b;
      SectionsAppend(a[1..], b, web);
    }
  }

  /** A single entry gives its own section. */
  lemma SectionOfOne(link: LinkRef, web: string -> Page)
    ensures Sections([link], web) == Section(link, web)
  {
  }

  /** One step of the aggregation loop: appending the next entry's section
      extends the sections of the entries before it. */
  lemma AppendSection(header: string, links: seq<LinkRef>, i: nat, web: string -> Page)
    requires i < |links|
    ensures header + Sections(links[..i + 1], web) == header + Sections(links[..i], web) + Section(links[i], web)
  {
    SectionOfOne(links[i], web);
    SectionsAppend(links[..i], [links[i]], web);
    assert links[..i + 1] == links[..i] + [links[i]];
    var done, next := Sections(links[..i], web), Section(links[i], web);
    assert header + (done + next) == header + done + next;
  }

  /** The aggregated document: the heading, then every section. */
  function Document(landing: string, links: seq<LinkRef>, web: string -> Page): (doc: string)
    ensures Header(landing) <= doc
    ensures links == [] ==> doc == Header(landing)
  {
    Header(landing) + Sections(links, web)
  }

  /** Selecting an entry twice puts its section into the document twice,
      one right after the other. */
  lemma DocumentKeepsDuplicates(landing: string, links: seq<LinkRef>, link: LinkRef, web: string -> Page)
    ensures Document(landing, links + [link, link], web)
         == Document(landing, links, web) + Section(link, web) + Section(link, web)
  {
    var head, before, one := Header(landing), Sections(links, web), Section(link, web);
    assert Sections(links + [link, link], web) == before + (one + one) by {
      SectionOfOne(link, web);
      SectionsAppend([link], [link], web);
      assert [link] + [link] == [link, link];
      SectionsAppend(links, [link, link], web);
    }
    assert head + (before + (one + one)) == head + before + one + one by {
      AppendAssoc(head, before, one + one);
      AppendAssoc(head + before, one, one);
    }
  }

  /** What the model selects for the page at `url`. */
  function Selection(url: string, web: string -> Page, select: string -> Result<seq<LinkRef>, SelectionError>): Result<seq<LinkRef>, SelectionError>
  {
    select(LinksUserPrompt(url, web))
  }

  /** `fetch_page_and_all_relevant_links` as a value: the document, or the
      selection's failure. */
  function Aggregate(url: string, web: string -> Page, select: string -> Result<seq<LinkRef>, SelectionError>): (r: Result<string, SelectionError>)
    ensures r.Err? <==> Selection(url, web, select).Err?
    ensures r.Err? ==> r.error == Selection(url, web, select).error
    ensures r.Ok? ==> Header(Contents(web(url))) <= r.value
    ensures Selection(url, web, select) == Ok([]) ==> r == Ok(Header(Contents(web(url))))
  {
    match Selection(url, web, select)
    case Err(e) => Err(e)
    case Ok(links) => Ok(Document(Contents(web(url)), links, web))
  }

  /** The requests aggregation makes: the landing page's content, the
      landing page's links, the selection request, then one content fetch
      per selected entry in the model's order. */
  function AggregateRequests(url: string, web: string -> Page, select: string -> Result<seq<LinkRef>, SelectionError>): (reqs: seq<Request>)
    ensures |reqs| >= 3
    ensures reqs[0] == GetContents(url) && reqs[1] == GetLinks(url)
    ensures reqs[2] == Complete(LinkModel, LinkSelector, LinksUserPrompt(url, web), true, false)
    ensures Selection(url, web, select).Err? ==> |reqs| == 3
    ensures Selection(url, web, select).Ok? ==>
              var links := Selection(url, web, select).value;
              |reqs| == 3 + |links| &&
              forall i :: 0 <= i < |links| ==> reqs[3 + i] == GetContents(links[i].url)
  {
    var prefix := [GetContents(url), GetLinks(url), Complete(LinkModel, LinkSelector, LinksUserPrompt(url, web), true, false)];
    match Selection(url, web, select)
    case Err(_) => prefix
    case Ok(links) => prefix + PageRequests(links)
  }

  /** One content fetch per entry, in order. */
  function PageRequests(links: seq<LinkRef>): (reqs: seq<Request>)
    ensures |reqs| == |links|
    ensures forall i :: 0 <= i < |links| ==> reqs[i] == GetContents(links[i].url)
  {
    seq(|links|, i requires 0 <= i < |links| => GetContents(links[i].url))
  }

  /** One step of the aggregation loop: the next entry adds one fetch of
      its URL. */
  lemma PageRequestsStep(links: seq<LinkRef>, i: nat)
    requires i < |links|
    ensures PageRequests(links[..i + 1]) == PageRequests(links[..i]) + [GetContents(links[i].url)]
  {
  }

  /** `fetch_page_and_all_relevant_links`: fetch the landing page, ask the
      model which links matter, then append one labelled section per
      selected entry, fetching each in turn. */
  method FetchPageAndAllRelevantLinks(url: string, web: string -> Page, select: string -> Result<seq<LinkRef>, SelectionError>)
    returns (r: Result<string, SelectionError>, requests: seq<Request>)
    ensures r == Aggregate(url, web, select)
    ensures requests == AggregateRequests(url, web, select)
  {
    var contents := Contents(web(url));
    var prompt := LinksUserPrompt(url, web);
    requests := [GetContents(url), GetLinks(url), Complete(LinkModel, LinkSelector, prompt, true, false)];
    ghost var prefix := requests;
    var selection := select(prompt);
    if selection.Err? {
      return Err(selection.error), requests;
    }
    var links := selection.value;
    var result := Header(contents);
    var i := 0;
    while i < |links|
      invariant 0 <= i <= |links|
      invariant result == Header(contents) + Sections(links[..i], web)
      invariant requests == prefix + PageRequests(links[..i])
    {
      ghost var before := result;
      var heading := SectionHeading + links[i].kind + "\n";
      result := result + heading;
      var page := Contents(web(links[i].url));
      result := result + page;
      requests := requests + [GetContents(links[i].url)];
      AppendSection(Header(contents), links, i, web);
      AppendAssoc(before, heading, page);
      PageRequestsStep(links, i);
      i := i + 1;
    }
    assert links[..i] == links;
    r := Ok(result);
  }

  // ---------------------------------------------------------------------
  // Brochure prompt

  /** The fixed text before the document, with the company name
      interpolated. */
  function BrochurePreamble(companyName: string): string
  {
    BrochureIntro + companyName + BrochureInstructions
  }

  /** The brochure prompt: preamble and document, assembled in full, then
      cut once to the first 5,000 characters. */
  function BrochurePrompt(companyName: string, document: string): (prompt: string)
    ensures |prompt| <= PromptLimit
    ensures prompt <= BrochurePreamble(companyName) + document
    ensures |BrochurePreamble(companyName) + document| <= PromptLimit ==> prompt == BrochurePreamble(companyName) + document
    ensures |BrochurePreamble(companyName) + document| > PromptLimit ==> |prompt| == PromptLimit
  {
    Truncate(BrochurePreamble(companyName) + document, PromptLimit)
  }

  /** When the preamble fits, it survives whole and the document gets what
      is left of the budget. */
  lemma BrochurePromptKeepsPreamble(companyName: string, document: string)
    requires |BrochurePreamble(companyName)| <= PromptLimit
    ensures BrochurePrompt(companyName, document)
         == BrochurePreamble(companyName) + Truncate(document, PromptLimit - |BrochurePreamble(companyName)|)
  {
    TruncateAfterPrefix(BrochurePreamble(companyName), document, PromptLimit);
  }

  /** The cut is made once, on the whole assembly, and not per section:
      the heading and every leading run of sections that fits in the budget
      come through whole, whatever follows them. */
  lemma BrochurePromptKeepsLeadingSections(companyName: string, landing: string, links: seq<LinkRef>, k: nat, web: string -> Page)
    requires k <= |links|
    requires |BrochurePreamble(companyName) + Header(landing) + Sections(links[..k], web)| <= PromptLimit
    ensures BrochurePreamble(companyName) + Header(landing) + Sections(links[..k], web)
            <= BrochurePrompt(companyName, Document(landing, links, web))
  {
    var pre, head := BrochurePreamble(companyName), Header(landing);
    var done, rest := Sections(links[..k], web), Sections(links[k..], web);
    assert Document(landing, links, web) == head + (done + rest) by {
      assert links[..k] + links[k..] == links;
      SectionsAppend(links[..k], links[k..], web);
    }
    assert pre + head + done <= pre + Document(landing, links, web) by {
      PrefixOfNested(pre, head, done, rest);
    }
    TruncateKeepsShortPrefix(pre + head + done, pre + Document(landing, links, web), PromptLimit);
  }

  /** `get_brochure_user_prompt`: aggregate, prepend the preamble, cut. */
  method GetBrochureUserPrompt(companyName: string, url: string, web: string -> Page, select: string -> Result<seq<LinkRef>, SelectionError>)
    returns (r: Result<string, SelectionError>, requests: seq<Request>)
    ensures r.Err? <==> Selection(url, web, select).Err?
    ensures r.Err? ==> r.error == Selection(url, web, select).error
    ensures r.Ok? ==> r.value == BrochurePrompt(companyName, Aggregate(url, web, select).value)
    ensures requests == AggregateRequests(url, web, select)
  {
    var document;
    document, requests := FetchPageAndAllRelevantLinks(url, web, select);
    if document.Err? {
      return Err(document.error), requests;
    }
    var prompt := BrochurePreamble(companyName) + document.value;
    r := Ok(Truncate(prompt, PromptLimit));
  }

  // ---------------------------------------------------------------------
  // Streaming

  /** A chunk's content, `''` when the chunk carries none. */
  function ChunkText(chunk: Option<string>): string
  {
    if chunk.Some? then chunk.value else ""
  }

  /** The contents of the chunks, in stream order. */
  function ChunkTexts(chunks: seq<Option<string>>): (texts: seq<string>)
    ensures |texts| == |chunks|
    ensures forall i :: 0 <= i < |chunks| ==> texts[i] == ChunkText(chunks[i])
  {
    seq(|chunks|, i requires 0 <= i < |chunks| => ChunkText(chunks[i]))
  }

  /** The text a stream delivers: every chunk's content, concatenated. */
  function Streamed(chunks: seq<Option<string>>): string
  {
    Join("", ChunkTexts(chunks))
  }

  /** Reading one more chunk appends its content and nothing else. */
  lemma StreamedSnoc(chunks: seq<Option<string>>, chunk: Option<string>)
    ensures Streamed(chunks + [chunk]) == Streamed(chunks) + ChunkText(chunk)
  {
    assert ChunkTexts(chunks + [chunk]) == ChunkTexts(chunks) + [ChunkText(chunk)];
    JoinSnoc("", ChunkTexts(chunks), ChunkText(chunk));
  }

  /** The streamed text of two runs of chunks is the text of the first run
      followed by that of the second, so every display update shows a
      prefix of the final text. */
  lemma {:induction false} StreamedAppend(a: seq<Option<string>>, b: seq<Option<string>>)
    ensures Streamed(a + b) == Streamed(a) + Streamed(b)
    decreases |b|
  {
    if b == [] {
      assert a + b == a;
      assert ChunkTexts(b) == [];
    } else {
      var init := b[..|b| - 1];
      var last := b[|b| - 1];
      assert b == init + [last];
      assert a + b == (a + init) + [last];
      StreamedAppend(a, init);
      StreamedSnoc(a + init, last);
      StreamedSnoc(init, last);
    }
  }

  /** The length of the streamed text is the sum of the chunk lengths. */
  lemma StreamedLength(chunks: seq<Option<string>>)
    ensures |Streamed(chunks)| == TotalLength(ChunkTexts(chunks))
  {
    JoinLength("", ChunkTexts(chunks));
  }

  /** What the sink receives for each chunk: the display redrawn with the
      text so far, or the chunk's own content printed. */
  function SinkEvents(chunks: seq<Option<string>>, useDisplay: bool): (events: seq<SinkEvent>)
    ensures |events| == |chunks|
    ensures forall i :: 0 <= i < |chunks| ==> events[i] == EventFor(chunks, i, useDisplay)
  {
    seq(|chunks|, i requires 0 <= i < |chunks| => EventFor(chunks, i, useDisplay))
  }

  /** What the sink receives for chunk `i`. */
  function EventFor(chunks: seq<Option<string>>, i: nat, useDisplay: bool): SinkEvent
    requires i < |chunks|
  {
    if useDisplay then UpdateDisplay(Streamed(chunks[..i + 1])) else PrintChunk(ChunkText(chunks[i]))
  }

  /** Neither sink loses text: the printed pieces are exactly the chunk
      contents in order, so together they are the streamed text, and the
      last display update shows the streamed text. */
  lemma SinksShowEverything(chunks: seq<Option<string>>, useDisplay: bool)
    ensures !useDisplay ==>
              Join("", seq(|chunks|, i requires 0 <= i < |chunks| => SinkEvents(chunks, useDisplay)[i].printed)) == Streamed(chunks)
    ensures useDisplay && chunks != [] ==> SinkEvents(chunks, useDisplay)[|chunks| - 1].shown == Streamed(chunks)
    ensures useDisplay ==> forall i :: 0 <= i < |chunks| ==> SinkEvents(chunks, useDisplay)[i].shown <= Streamed(chunks)
  {
    if !useDisplay {
      var printed := seq(|chunks|, i requires 0 <= i < |chunks| => SinkEvents(chunks, useDisplay)[i].printed);
      forall i | 0 <= i < |chunks|
        ensures printed[i] == ChunkTexts(chunks)[i]
      {
        assert SinkEvents(chunks, useDisplay)[i] == EventFor(chunks, i, useDisplay);
      }
      assert printed == ChunkTexts(chunks);
    } else {
      if chunks != [] {
        assert chunks[..|chunks|] == chunks;
      }
      forall i | 0 <= i < |chunks|
        ensures SinkEvents(chunks, useDisplay)[i].shown <= Streamed(chunks)
      {
        StreamedAppend(chunks[..i + 1], chunks[i + 1..]);
        assert chunks[..i + 1] + chunks[i + 1..] == chunks;
      }
    }
  }

  /** The accumulation loop of `stream_brochure`: append each chunk's
      content to the response and forward the chunk to the sink chosen
      before the loop. */
  method AccumulateStream(chunks: seq<Option<string>>, useDisplay: bool)
    returns (response: string, events: seq<SinkEvent>)
    ensures response == Streamed(chunks)
    ensures events == SinkEvents(chunks, useDisplay)
  {
    response := "";
    events := [];
    var i := 0;
    while i < |chunks|
      invariant 0 <= i <= |chunks|
      invariant response == Streamed(chunks[..i])
      invariant events == SinkEvents(chunks, useDisplay)[..i]
    {
      response := response + ChunkText(chunks[i]);
      StreamedSnoc(chunks[..i], chunks[i]);
      assert chunks[..i + 1] == chunks[..i] + [chunks[i]];
      if useDisplay {
        events := events + [UpdateDisplay(response)];
      } else {
        events := events + [PrintChunk(ChunkText(chunks[i]))];
      }
      i := i + 1;
    }
    assert chunks[..i] == chunks;
  }

  /** Whether a `save_to_file` argument asks for a file: present and
      non-empty, as Python's truthiness has it. */
  predicate WantsFile(saveToFile: Option<string>)
  {
    saveToFile.Some? && saveToFile.value != ""
  }

  /** `stream_brochure`: build the brochure prompt, stream the completion,
      accumulate it, write it once to the file when one is named, and
      return it. */
  method StreamBrochure(
    companyName: string, url: string, saveToFile: Option<string>, displayAvailable: bool,
    web: string -> Page, select: string -> Result<seq<LinkRef>, SelectionError>, complete: string -> seq<Option<string>>)
    returns (r: Result<string, SelectionError>, requests: seq<Request>, events: seq<SinkEvent>, written: Option<FileWrite>)
    ensures r.Err? <==> Selection(url, web, select).Err?
    ensures r.Err? ==> && r.error == Selection(url, web, select).error
                       && requests == AggregateRequests(url, web, select) && events == [] && written == None
    ensures r.Ok? ==>
              var prompt := BrochurePrompt(companyName, Aggregate(url, web, select).value);
              && r.value == Streamed(complete(prompt))
              && requests == AggregateRequests(url, web, select) + [Complete(BrochureModel, BrochureWriter, prompt, false, true)]
              && events == SinkEvents(complete(prompt), displayAvailable)
              && written == (if WantsFile(saveToFile) then Some(FileWrite(saveToFile.value, r.value)) else None)
  {
    var prompt;
    prompt, requests := GetBrochureUserPrompt(companyName, url, web, select);
    if prompt.Err? {
      return Err(prompt.error), requests, [], None;
    }
    requests := requests + [Complete(BrochureModel, BrochureWriter, prompt.value, false, true)];
    var chunks := complete(prompt.value);
    var response;
    response, events := AccumulateStream(chunks, displayAvailable);
    written := None;
    if WantsFile(saveToFile) {
      written := Some(FileWrite(saveToFile.value, response));
    }
    r := Ok(response);
  }
}
