# sweetski — a Dafny model of its deterministic core

sweetski is a small Flask diary of Tabelog restaurants. A user submits a Tabelog
link and a note. An AI model is asked for the restaurant's coordinates. The
entry is stored as a page in a Notion database, together with what a scraper
found on the Tabelog page. The stored pages are listed again, and the ones
with coordinates are shown on a Google map.

This project models the logic that sits between those outside services:

- `notion_service.dfy` (module `NotionService`):
  - `validate_url`;
  - the Notion property bag that `create_entry` builds (the write side);
  - the entry record that `get_entries` reads back from each page (the read side);
  - the schema summary of `get_database_info`.
- `aiconfigs.dfy` (module `AiConfigs`):
  - `parse_coordinates`, as a three-way result: no braces, a pair, or the `ValueError` it raises;
  - `map_provider_to_langchain`;
  - the loop that turns configured messages into the LangChain chat history.
- `routes.dfy` (module `Routes`):
  - the `add_entry` route: form validation, what is handed to `create_entry`, and the flash it reports;
  - the `map` route and its marker loop.
- `py_builtins.dfy` (module `PyBuiltins`): the Python behaviour these rely on.
  - Truthiness: `None`, `0`, `""` and `[]` are falsy.
  - `str.strip` with Python's whitespace set, `find`, `split` on one character, `join`, `lower`.
- `wrappers.dfy` (module `Wrappers`): `Option` and `Result`.

A Notion property bag is a `map<string, PropertyValue>`, where `PropertyValue`
is tagged by the property's `type`. A text run is given by its `plain_text`.
Numbers are `real`.

Each outside call becomes a parameter carrying its outcome:
- `pages.create`, `databases.query` and `databases.retrieve`;
- the Tabelog scraper;
- the AI call;
- `float()`;
- the clock.

The write side is specified by `IsEntryBag`, a predicate that fixes the bag key by
key. `EntryBagUnique` shows that it leaves no freedom. `BuildProperties` builds
the bag one key at a time, as the source does, and is proved to meet the predicate.

The read side is `PageToEntry`. `ReadBackWrittenEntry` and `ReadBackScrapedFields`
connect the two directions. They assume that Notion hands back each written text
run with `plain_text` equal to its content. The categories are stored as a
`", "`-joined string and read back by splitting on `","` and stripping each piece.
`CategoriesRoundTrip` proves that this gives back the list whenever no category
contains a comma or starts or ends with whitespace.

## Model

| member | source | states |
|---|---|---|
| `NotionService.ValidateUrl` | notion_service.py:11-13 | accepted exactly when the url starts with `https://tabelog.com/en/` |
| `NotionService.EntryBagUnique` | notion_service.py:28-82 | two bags that both meet the key-by-key description of `create_entry`'s properties for the same inputs are equal |
| `NotionService.WriteCoordinates` | notion_service.py:41-45 | adds `Latitude` and `Longitude` together, exactly when both are truthy (a 0 or missing coordinate drops both), and keeps every other key |
| `NotionService.WriteScraped` | notion_service.py:48-74 | adds each scraped field only when data exists and that field is truthy: `Name` as a title run; `Rating` unless 0; `Category` as the `", "`-join; `Address` as a text run. No other key changes |
| `NotionService.BuildProperties` | notion_service.py:28-82 | the bag has exactly these keys: `Link` (the url), `Notes` (one run, the notes), `Date` (`now`), the coordinate pair, the truthy scraped fields, and `AI_Model` holding the provider and never the model name |
| `NotionService.CreateEntry` | notion_service.py:15-93 | unconfigured: `(False, "Database ID not configured")` and nothing sent. Otherwise the bag is sent, with scraped data used only when `validate_url` holds. Succeeds exactly when `pages.create` does; otherwise the message is `"Error saving entry: "` plus the error |
| `NotionService.PageToEntry` | notion_service.py:104-179 | `id` and `notion_url` come from the page. Each field is set exactly when its property is present, has the expected tag, and holds a run or a non-`None` number (0 kept); `content` is the first `Notes` run exactly then, and `""` otherwise. Text comes from the first run. Title and url are both the link, or both `""` |
| `NotionService.GetEntries` | notion_service.py:95-186 | `[]` when unconfigured or when the query fails. Otherwise one entry per result page, in order, each the mapping of its page |
| `NotionService.SplitJoinedAfterSpaces` | notion_service.py:152-156 | split-and-strip of leading whitespace followed by a `", "`-join of clean categories gives back the categories |
| `NotionService.CategoriesRoundTrip` | notion_service.py:152-156 | reading back the `", "`-join (line 64) of a non-empty list of clean categories gives back that list |
| `NotionService.StripEachClean` | notion_service.py:156 | stripping comma-free pieces keeps their number. Each result has no comma and no surrounding whitespace |
| `NotionService.ReadCategoriesAreClean` | notion_service.py:152-156 | any category text reads back as a non-empty list of clean categories |
| `NotionService.CategoriesReadWriteRead` | notion_service.py:152-156 | categories that were read back survive being written and read again |
| `NotionService.ReadBackWrittenEntry` | notion_service.py:117-177 | from a bag `create_entry` wrote: link, notes, date and provider read back as written. Both coordinates come back when both were truthy, otherwise neither |
| `NotionService.ReadBackScrapedFields` | notion_service.py:136-162 | name and address come back when they were written. A rating comes back unless it was 0. Clean categories come back as the written list, and none come back when the list was empty |
| `NotionService.SummarizeProperties` | notion_service.py:205-211 | same keys as the schema. Each summary keeps the `type`, and its id is the property's id or `"N/A"` |
| `NotionService.GetDatabaseInfo` | notion_service.py:196-220 | unconfigured: `"Database ID not configured"`. A retrieve error is passed on. Otherwise it holds the database id, the title and the schema's summary: same keys, each keeping its `type`, with the property's id or `"N/A"` |
| `AiConfigs.ParseCoordinates` | aiconfigs.py:20-35 | no pair is found exactly when the reply lacks a `{` or a `}` |
| `AiConfigs.ParsesBracedTextOnly` | aiconfigs.py:23-27 | only the text strictly between the first `{` and the first `}` is parsed |
| `AiConfigs.CommaCountOtherThanOneRaises` | aiconfigs.py:27-28 | braced text with any number of commas other than one raises |
| `AiConfigs.FoundHasOneComma` | aiconfigs.py:23-32 | a parsed pair always came from braced text with exactly one comma |
| `AiConfigs.ParsesStrippedHalves` | aiconfigs.py:28-32 | with one comma, the stripped left half is the latitude and the stripped right half the longitude. Either half failing `float()` raises |
| `AiConfigs.ClosingBraceFirstRaises` | aiconfigs.py:23-28 | a `}` before the first `{` gives an empty slice, and the call raises |
| `AiConfigs.MapProviderToLangchain` | aiconfigs.py:56-65 | the result is lower-case and never `"gemini"`. It is `"google_genai"` or the lowered name |
| `AiConfigs.MapProviderIdempotent` | aiconfigs.py:59-65 | mapping a mapped name changes nothing |
| `AiConfigs.MapProviderLowersFirst` | aiconfigs.py:64-65 | the name is lowered before the lookup: `Gemini` maps to `google_genai` and `OpenAI` to `openai` |
| `AiConfigs.MapProviderRenamesOnlyGemini` | aiconfigs.py:59-65 | `"google_genai"` exactly for names that lower to `"gemini"`, otherwise the lowered name |
| `AiConfigs.ToChat` | aiconfigs.py:181-187 | a known-role message keeps its role and its content |
| `AiConfigs.Converted` | aiconfigs.py:179-188 | the conversion is never longer than its input |
| `AiConfigs.ConvertedKeepsKnownMessages` | aiconfigs.py:179-188 | the conversion is exactly the system/assistant/user messages in their order, with role and content kept. Its length is their count |
| `AiConfigs.ConvertedAppend` | aiconfigs.py:179-188 | converting a concatenation converts each part |
| `AiConfigs.ToLangchainMessages` | aiconfigs.py:179-190 | the known-role messages (none for `None`), then the user input as the last human message. The length is the known count plus one |
| `Routes.CheckForm` | routes.py:48-58 | accepted exactly when the stripped link and notes are non-empty and the stripped link validates, carrying the stripped values. Otherwise the two flash messages, in the source's order |
| `Routes.ModelInfoOf` | routes.py:67-70 | model and provider of the reply, each `"Unknown"` when missing |
| `Routes.PlanAddEntry` | routes.py:46-70 | a rejected form is rejected with its message before the AI is consulted. No braces give both coordinates `None`; a pair gives both. The route crashes exactly when the reply is not a dict with `response` or the parse raises |
| `Routes.AddEntry` | routes.py:45-79 | a rejection redirects with an error flash and sends nothing. A crash sends nothing. A save sends the bag exactly when configured, with provider info, and flashes the message of `create_entry`: category `success` exactly when it succeeded |
| `Routes.MarkerOf` | routes.py:30-36 | `lat`/`lng` are the entry's coordinates. The title is the scraped name or `"Restaurant"`. The url and Notion url are the entry's |
| `Routes.Located` | routes.py:28-29 | every selected entry has both coordinates truthy, and there are at most as many as the entries |
| `Routes.LocatedMembers` | routes.py:28-29 | an entry is selected exactly when it is one of the entries and both its coordinates are truthy |
| `Routes.LocatedAppend` | routes.py:27-36 | selecting from a concatenation selects from each part, keeping the order |
| `Routes.BuildMarkers` | routes.py:27-36 | one marker per located entry, in entry order, each that entry's marker |
| `Routes.MapView` | routes.py:17-43 | without an API key: a redirect with `"Google Maps API key not configured"`. Otherwise the map with the markers and the fixed center |
| `PyBuiltins.Strip` | routes.py:48-49 | the result has no whitespace at either end and is no longer than the input |
| `PyBuiltins.StripRemovesOnlyEndSpaces` | routes.py:48-49 | the result is the slice of the input between an all-whitespace prefix and an all-whitespace suffix; with the line above this fixes `strip`'s result |
| `PyBuiltins.StripAfterSpaces` | notion_service.py:156 | stripping whitespace in front of a stripped string gives that string |
| `PyBuiltins.StripIdempotent` | routes.py:48-49 | stripping twice is stripping once |
| `PyBuiltins.StripKeepsAbsent` | aiconfigs.py:30-31 | stripping never introduces a character |
| `PyBuiltins.Find` | aiconfigs.py:23-24 | -1 exactly when the character is absent. Otherwise the index holds the character, with none before it |
| `PyBuiltins.FindAfter` | aiconfigs.py:23-24 | the first occurrence follows a prefix that lacks the character |
| `PyBuiltins.Split` | aiconfigs.py:28 | at least one piece. Exactly one piece when the separator is absent. No piece holds the separator |
| `PyBuiltins.SplitCount` | aiconfigs.py:28 | one piece more than there are separators |
| `PyBuiltins.SplitAfterPiece` | aiconfigs.py:28 | splitting cuts at the first separator |
| `PyBuiltins.SplitPair` | aiconfigs.py:28 | text with exactly one separator splits into the two sides |
| `PyBuiltins.SplitJoin` | notion_service.py:64 | `join` with a one-character separator is undone by `split`: a non-empty list of separator-free pieces comes back |
| `PyBuiltins.JoinSplit` | notion_service.py:156 | joining the pieces of a split with the separator gives back the text |
| `PyBuiltins.Lower` | aiconfigs.py:64 | lowering keeps the length, moves each ASCII capital 32 code points on, and keeps every other character |
| `PyBuiltins.LowerOfLower` | aiconfigs.py:64 | lowering a lower-case string changes nothing |

## Left out

- Notion client calls (`pages.create`, `databases.query`, `databases.retrieve`): each is foreign I/O. Its outcome is an input: an optional error, an optional list of pages, or a `Result`.
- `delete_entry`: a single foreign call. Hiding archived pages is Notion's behaviour, not this code's.
- Notion filling `plain_text` from `text.content`: an assumption, not modelled. The read-back lemmas take a page whose bag is the one written.
- `datetime.now()`: the `now` parameter, already in ISO-8601 form.
- `float()`: the partial function `toFloat`. Numbers are mathematical reals, so float rounding, NaN and infinities are not modelled.
- `tabelog_scraper.py`: an HTTP fetch and HTML parsing, so it is the `scrape` parameter. Its stripping means each category it returns meets `IsStripped`. Nothing in it rules out a comma inside a category, and such a category would not survive the round trip, which is why `CategoriesRoundTrip` asks for comma-free categories.
- `app.py`: Flask set-up only.
- LaunchDarkly and LangChain plumbing: client and model initialisation, `track_langchain_metrics`, the model invocation and `save_response_to_json` are foreign calls or file output. `get_ai_response` as a whole is the `ai` parameter; only its message-conversion loop is modelled.
- Flask `flash`, `redirect` and `render_template` become `Response` values. An exception that escapes a route becomes `InternalServerError`.
- The `index`, `delete_entry` and `/api/debug/database` routes are each a single call into the service and a render.
- `get_entries` catches every exception and returns `[]`. Only a failing query is modelled this way; a page missing `id` or `url` cannot occur in the model.
- `get_entries` builds each entry dictionary by mutation. The model builds it as one value per page; the loop over pages and the appends are kept.
- `PyBuiltins.Lower`: lower-cases ASCII letters only, whereas Python's `str.lower` also lowers other scripts. Provider names are ASCII.
- `PyBuiltins.Split`: only one-character separators, the only kind the source uses.
- A coordinate of 0 counts as missing: `create_entry` does not write the pair and `map()` shows no marker (notion_service.py:41, routes.py:29).
- Braced text without exactly one comma, or with a half that `float()` rejects, raises `ValueError` (aiconfigs.py:28-31). It is not treated as "no coordinates"; the model returns `ValueError` and `add_entry` ends in `InternalServerError`.
- Any exception in `get_entries` returns `[]` (notion_service.py:184-186). A bad page is not skipped on its own.
