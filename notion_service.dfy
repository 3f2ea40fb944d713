/**
 * The property-bag mapping of the Notion service: the `properties` dictionary
 * that `create_entry` sends for a new page, the entry record that
 * `get_entries` reads back from each page, and the schema summary of
 * `get_database_info`. Every call into the Notion client is replaced by its
 * outcome, passed in as a parameter.
 */
module NotionService {
  import opened Wrappers
  import opened PyBuiltins

  // ------------------------------------------------------------- data model

  /**
   * One Notion property value, tagged by its `"type"`. Text runs are given by
   * their `plain_text`; `Other` stands for every property type the service
   * does not read (checkbox, select, ...).
   */
  datatype PropertyValue =
    | Url(url: Option<string>)
    | RichText(runs: seq<string>)
    | Title(runs: seq<string>)
    | Number(number: Option<real>)
    | Date(start: Option<string>)
    | Other(kind: string)

  /** A page's `properties`: property name to value. */
  type Bag = map<string, PropertyValue>

  /** What the Tabelog scraper returns when it succeeds. */
  datatype Scraped = Scraped(name: Option<string>, rating: Option<real>, categories: seq<string>, address: Option<string>)

  /** The `ai_model_info` dictionary handed to `create_entry`. */
  datatype ModelInfo = ModelInfo(model: string, provider: string)

  /** Every property name `create_entry` may write. */
  const PropertyNames: set<string> :=
    {"Link", "Notes", "Date", "Latitude", "Longitude", "Name", "Rating", "Category", "Address", "AI_Model"}

  /** `self.database_id` is truthy: set in the environment and not empty. */
  predicate Configured(databaseId: Option<string>) {
    TruthyText(databaseId)
  }

  // --------------------------------------------------------- validate_url

  const TabelogPrefix: string := "https://tabelog.com/en/"

  /** Only English Tabelog pages are accepted. */
  function ValidateUrl(url: string): (r: bool)
    ensures r <==> |TabelogPrefix| <= |url| && url[..|TabelogPrefix|] == TabelogPrefix
  {
    TabelogPrefix <= url
  }

  // ------------------------------------------------------ the write side

  /**
   * The bag `create_entry` builds, key by key: the three fields that are
   * always written, the coordinates as a pair only when both are truthy, each
   * scraped field only when there is scraped data and that field is truthy,
   * and the AI provider (not the model name) when model information is given.
   * No other key appears.
   */
  predicate IsEntryBag(bag: Bag, linkUrl: string, notes: string, latitude: Option<real>, longitude: Option<real>,
                       scraped: Option<Scraped>, aiModelInfo: Option<ModelInfo>, now: string)
  {
    && bag.Keys <= PropertyNames
    && BaseWritten(bag, linkUrl, notes, now)
    && CoordinatesWritten(bag, latitude, longitude)
    && ScrapedWritten(bag, scraped)
    && ModelWritten(bag, aiModelInfo)
  }

  /** The link, the notes and the date are always written. */
  predicate BaseWritten(bag: Bag, linkUrl: string, notes: string, now: string)
  {
    && "Link" in bag && bag["Link"] == Url(Some(linkUrl))
    && "Notes" in bag && bag["Notes"] == RichText([notes])
    && "Date" in bag && bag["Date"] == Date(Some(now))
  }

  /** Both coordinates are written, or neither; only when both are truthy. */
  predicate CoordinatesWritten(bag: Bag, latitude: Option<real>, longitude: Option<real>)
  {
    && ("Latitude" in bag <==> TruthyNumber(latitude) && TruthyNumber(longitude))
    && ("Longitude" in bag <==> TruthyNumber(latitude) && TruthyNumber(longitude))
    && ("Latitude" in bag ==> bag["Latitude"] == Number(latitude) && bag["Longitude"] == Number(longitude))
  }

  /** Each scraped field is written exactly when it is truthy. */
  predicate ScrapedWritten(bag: Bag, scraped: Option<Scraped>)
  {
    && ("Name" in bag <==> scraped.Some? && TruthyText(scraped.value.name))
    && ("Name" in bag ==> bag["Name"] == Title([scraped.value.name.value]))
    && ("Rating" in bag <==> scraped.Some? && TruthyNumber(scraped.value.rating))
    && ("Rating" in bag ==> bag["Rating"] == Number(scraped.value.rating))
    && ("Category" in bag <==> scraped.Some? && scraped.value.categories != [])
    && ("Category" in bag ==> bag["Category"] == RichText([Join(scraped.value.categories, ", ")]))
    && ("Address" in bag <==> scraped.Some? && TruthyText(scraped.value.address))
    && ("Address" in bag ==> bag["Address"] == RichText([scraped.value.address.value]))
  }

  /** The provider of the AI model, when one was used. */
  predicate ModelWritten(bag: Bag, aiModelInfo: Option<ModelInfo>)
  {
    && ("AI_Model" in bag <==> aiModelInfo.Some?)
    && ("AI_Model" in bag ==> bag["AI_Model"] == RichText([aiModelInfo.value.provider]))
  }

  /** The description above leaves no freedom: it fixes the bag. */
  lemma EntryBagUnique(b1: Bag, b2: Bag, linkUrl: string, notes: string, latitude: Option<real>, longitude: Option<real>,
                       scraped: Option<Scraped>, aiModelInfo: Option<ModelInfo>, now: string)
    requires IsEntryBag(b1, linkUrl, notes, latitude, longitude, scraped, aiModelInfo, now)
    requires IsEntryBag(b2, linkUrl, notes, latitude, longitude, scraped, aiModelInfo, now)
    ensures b1 == b2
  {
    assert forall k :: k in b1 <==> k in b2 by {
      forall k ensures k in b1 <==> k in b2 {
        if k in b1 || k in b2 {
          assert k in PropertyNames;
        }
      }
    }
    assert b1.Keys == b2.Keys;
  }

  /** The property names are pairwise distinct. */
  lemma PropertyNamesDistinct()
    ensures "Link" != "Notes" && "Link" != "Date" && "Link" != "Latitude" && "Link" != "Longitude"
    ensures "Link" != "Name" && "Link" != "Rating" && "Link" != "Category" && "Link" != "Address"
    ensures "Link" != "AI_Model" && "Notes" != "Date" && "Notes" != "Latitude" && "Notes" != "Longitude"
    ensures "Notes" != "Name" && "Notes" != "Rating" && "Notes" != "Category" && "Notes" != "Address"
    ensures "Notes" != "AI_Model" && "Date" != "Latitude" && "Date" != "Longitude" && "Date" != "Name"
    ensures "Date" != "Rating" && "Date" != "Category" && "Date" != "Address" && "Date" != "AI_Model"
    ensures "Latitude" != "Longitude" && "Latitude" != "Name" && "Latitude" != "Rating" && "Latitude" != "Category"
    ensures "Latitude" != "Address" && "Latitude" != "AI_Model" && "Longitude" != "Name" && "Longitude" != "Rating"
    ensures "Longitude" != "Category" && "Longitude" != "Address" && "Longitude" != "AI_Model" && "Name" != "Rating"
    ensures "Name" != "Category" && "Name" != "Address" && "Name" != "AI_Model" && "Rating" != "Category"
    ensures "Rating" != "Address" && "Rating" != "AI_Model" && "Category" != "Address" && "Category" != "AI_Model"
    ensures "Address" != "AI_Model"
  {
  }

  /** The keys written from scraped data. */
  const ScrapedNames: set<string> := {"Name", "Rating", "Category", "Address"}

  /** The coordinate pair, added to `properties` only when both are truthy. */
  method WriteCoordinates(properties: Bag, latitude: Option<real>, longitude: Option<real>) returns (r: Bag)
    requires "Latitude" !in properties && "Longitude" !in properties
    ensures forall k :: k in properties ==> k in r && r[k] == properties[k]
    ensures r.Keys <= properties.Keys + {"Latitude", "Longitude"}
    ensures CoordinatesWritten(r, latitude, longitude)
  {
    r := properties;
    if TruthyNumber(latitude) && TruthyNumber(longitude) {
      assert "Latitude" != "Longitude";
      r := r["Latitude" := Number(latitude)]["Longitude" := Number(longitude)];
    }
  }

  /** The scraped fields, each added only when it is truthy. */
  method WriteScraped(properties: Bag, scraped: Option<Scraped>) returns (r: Bag)
    requires properties.Keys !! ScrapedNames
    ensures forall k :: k in properties ==> k in r && r[k] == properties[k]
    ensures r.Keys <= properties.Keys + ScrapedNames
    ensures ScrapedWritten(r, scraped)
  {
    r := properties;
    assert "Name" in ScrapedNames && "Rating" in ScrapedNames && "Category" in ScrapedNames && "Address" in ScrapedNames;
    if scraped.Some? {
      PropertyNamesDistinct();
      var data := scraped.value;
      if TruthyText(data.name) {
        r := r["Name" := Title([data.name.value])];
      }
      if TruthyNumber(data.rating) {
        r := r["Rating" := Number(data.rating)];
      }
      if data.categories != [] {
        r := r["Category" := RichText([Join(data.categories, ", ")])];
      }
      if TruthyText(data.address) {
        r := r["Address" := RichText([data.address.value])];
      }
    }
  }

  /**
   * The `properties` dictionary of `create_entry`, built key by key as the
   * source builds it. `scraped` is what the scraper returned, or `None` when
   * it was not called or found nothing.
   */
  method BuildProperties(linkUrl: string, notes: string, latitude: Option<real>, longitude: Option<real>,
                         scraped: Option<Scraped>, aiModelInfo: Option<ModelInfo>, now: string)
    returns (properties: Bag)
    ensures IsEntryBag(properties, linkUrl, notes, latitude, longitude, scraped, aiModelInfo, now)
  {
    PropertyNamesDistinct();
    properties := map[
      "Link" := Url(Some(linkUrl)),
      "Notes" := RichText([notes]),
      "Date" := Date(Some(now))
    ];
    properties := WriteCoordinates(properties, latitude, longitude);
    assert BaseWritten(properties, linkUrl, notes, now);
    assert properties.Keys <= {"Link", "Notes", "Date", "Latitude", "Longitude"};
    var withScraped := WriteScraped(properties, scraped);
    assert "Latitude" !in ScrapedNames && "Longitude" !in ScrapedNames;
    assert CoordinatesWritten(withScraped, latitude, longitude);
    assert withScraped.Keys <= PropertyNames - {"AI_Model"};
    properties := withScraped;
    if aiModelInfo.Some? {
      properties := properties["AI_Model" := RichText([aiModelInfo.value.provider])];
    }
  }

  /**
   * `create_entry`. `scrape` stands for the Tabelog scraper (called on the
   * link only when it validates), `now` for the clock's ISO-8601 reading, and
   * `createError` for the outcome of `pages.create` (`None` when it succeeds,
   * otherwise the text of its exception). `sent` is the bag handed to
   * `pages.create`, or `None` when the call is never made.
   */
  method CreateEntry(databaseId: Option<string>, linkUrl: string, notes: string,
                     latitude: Option<real>, longitude: Option<real>, aiModelInfo: Option<ModelInfo>,
                     now: string, scrape: string -> Option<Scraped>, createError: Option<string>)
    returns (success: bool, message: string, sent: Option<Bag>)
    ensures !Configured(databaseId) ==> !success && message == "Database ID not configured" && sent == None
    ensures Configured(databaseId) ==> sent.Some?
    ensures sent.Some? ==>
      IsEntryBag(sent.value, linkUrl, notes, latitude, longitude,
                 if ValidateUrl(linkUrl) then scrape(linkUrl) else None, aiModelInfo, now)
    ensures sent.Some? && !ValidateUrl(linkUrl) ==>
      "Name" !in sent.value && "Rating" !in sent.value && "Category" !in sent.value && "Address" !in sent.value
    ensures success <==> Configured(databaseId) && createError.None?
    ensures success ==> message == "Entry saved successfully!"
    ensures Configured(databaseId) && createError.Some? ==> message == "Error saving entry: " + createError.value
  {
    if !Configured(databaseId) {
      return false, "Database ID not configured", None;
    }
    var tabelogData: Option<Scraped> := None;
    if ValidateUrl(linkUrl) {
      tabelogData := scrape(linkUrl);
    }
    var properties := BuildProperties(linkUrl, notes, latitude, longitude, tabelogData, aiModelInfo, now);
    sent := Some(properties);
    match createError {
      case None =>
        success, message := true, "Entry saved successfully!";
      case Some(e) =>
        success, message := false, "Error saving entry: " + e;
    }
  }

  // ------------------------------------------------------- the read side

  /** A page of the database query's `results`. A missing `created_time` is `None`, missing `properties` the empty bag. */
  datatype Page = Page(id: string, url: string, createdTime: Option<string>, properties: Bag)

  /** The `tabelog_data` part of an entry; `None` is a key that was never set. */
  datatype TabelogFields = TabelogFields(name: Option<string>, rating: Option<real>,
                                         categories: Option<seq<string>>, address: Option<string>)

  /** The entry dictionary `get_entries` produces for one page; `None` is a key that was never set. */
  datatype Entry = Entry(
    id: string,
    title: string,
    url: string,
    notionUrl: string,
    content: string,
    createdTime: string,
    date: Option<string>,
    latitude: Option<real>,
    longitude: Option<real>,
    aiModelInfo: Option<string>,
    tabelog: TabelogFields)

  /** The link of a `url`-typed `Link` property with a truthy url, else `""`. */
  function LinkOf(props: Bag): string {
    if "Link" in props && props["Link"].Url? && TruthyText(props["Link"].url) then props["Link"].url.value else ""
  }

  /** The first run of a `rich_text` property that holds at least one. */
  function FirstRichText(props: Bag, key: string): Option<string> {
    if key in props && props[key].RichText? && props[key].runs != [] then Some(props[key].runs[0]) else None
  }

  /** The first run of a `title` property that holds at least one. */
  function FirstTitle(props: Bag, key: string): Option<string> {
    if key in props && props[key].Title? && props[key].runs != [] then Some(props[key].runs[0]) else None
  }

  /** The value of a `number` property that is not `None`; 0 is kept. */
  function NumberOf(props: Bag, key: string): Option<real> {
    if key in props && props[key].Number? then props[key].number else None
  }

  /** The start of a `date` property whose date is set. */
  function DateStartOf(props: Bag, key: string): Option<string> {
    if key in props && props[key].Date? then props[key].start else None
  }

  /** `[cat.strip() for cat in text.split(",")]`. Empty pieces are kept. */
  function SplitCategories(text: string): seq<string> {
    StripEach(Split(text, ','))
  }

  function StripEach(pieces: seq<string>): seq<string> {
    if pieces == [] then [] else [Strip(pieces[0])] + StripEach(pieces[1..])
  }

  /** A category the join/split round trip can carry: no comma, no surrounding whitespace. */
  predicate CleanCategory(c: string) {
    ',' !in c && IsStripped(c)
  }

  /**
   * The entry mapped from one page. Each field is set only from its own
   * property, only when that property has the expected type and holds a run
   * or a value; otherwise it stays unset (or `""`).
   */
  function PageToEntry(page: Page): (e: Entry)
    ensures e.id == page.id && e.notionUrl == page.url && e.createdTime == page.createdTime.GetOr("")
    ensures e.title == e.url
    ensures e.url == "" || ("Link" in page.properties && page.properties["Link"] == Url(Some(e.url)))
    ensures e.url == "" <==> !("Link" in page.properties && page.properties["Link"].Url? && TruthyText(page.properties["Link"].url))
    ensures e.content == "" || ("Notes" in page.properties && page.properties["Notes"].RichText?
                                && page.properties["Notes"].runs != [] && page.properties["Notes"].runs[0] == e.content)
    ensures "Notes" in page.properties && page.properties["Notes"].RichText? && page.properties["Notes"].runs != [] ==>
      e.content == page.properties["Notes"].runs[0]
    ensures e.date.Some? <==> "Date" in page.properties && page.properties["Date"].Date? && page.properties["Date"].start.Some?
    ensures e.date.Some? ==> page.properties["Date"] == Date(e.date)
    ensures e.latitude.Some? <==> "Latitude" in page.properties && page.properties["Latitude"].Number? && page.properties["Latitude"].number.Some?
    ensures e.latitude.Some? ==> page.properties["Latitude"] == Number(e.latitude)
    ensures e.longitude.Some? <==> "Longitude" in page.properties && page.properties["Longitude"].Number? && page.properties["Longitude"].number.Some?
    ensures e.longitude.Some? ==> page.properties["Longitude"] == Number(e.longitude)
    ensures e.tabelog.rating.Some? <==> "Rating" in page.properties && page.properties["Rating"].Number? && page.properties["Rating"].number.Some?
    ensures e.tabelog.rating.Some? ==> page.properties["Rating"] == Number(e.tabelog.rating)
    ensures e.tabelog.name.Some? <==> "Name" in page.properties && page.properties["Name"].Title? && page.properties["Name"].runs != []
    ensures e.tabelog.name.Some? ==> e.tabelog.name.value == page.properties["Name"].runs[0]
    ensures e.tabelog.address.Some? <==> "Address" in page.properties && page.properties["Address"].RichText? && page.properties["Address"].runs != []
    ensures e.tabelog.address.Some? ==> e.tabelog.address.value == page.properties["Address"].runs[0]
    ensures e.aiModelInfo.Some? <==> "AI_Model" in page.properties && page.properties["AI_Model"].RichText? && page.properties["AI_Model"].runs != []
    ensures e.aiModelInfo.Some? ==> e.aiModelInfo.value == page.properties["AI_Model"].runs[0]
    ensures e.tabelog.categories.Some? <==> "Category" in page.properties && page.properties["Category"].RichText? && page.properties["Category"].runs != []
    ensures e.tabelog.categories.Some? ==> e.tabelog.categories.value == SplitCategories(page.properties["Category"].runs[0])
  {
    var props := page.properties;
    var link := LinkOf(props);
    Entry(
      id := page.id,
      title := link,
      url := link,
      notionUrl := page.url,
      content := FirstRichText(props, "Notes").GetOr(""),
      createdTime := page.createdTime.GetOr(""),
      date := DateStartOf(props, "Date"),
      latitude := NumberOf(props, "Latitude"),
      longitude := NumberOf(props, "Longitude"),
      aiModelInfo := FirstRichText(props, "AI_Model"),
      tabelog := TabelogFields(
        name := FirstTitle(props, "Name"),
        rating := NumberOf(props, "Rating"),
        categories := match FirstRichText(props, "Category")
                      case None => None
                      case Some(text) => Some(SplitCategories(text)),
        address := FirstRichText(props, "Address")))
  }

  /**
   * `get_entries`. `query` is the outcome of `databases.query`: `None` when
   * it raised, otherwise its `results`.
   */
  method GetEntries(databaseId: Option<string>, query: Option<seq<Page>>) returns (entries: seq<Entry>)
    ensures !Configured(databaseId) || query.None? ==> entries == []
    ensures Configured(databaseId) && query.Some? ==>
      |entries| == |query.value| &&
      forall i :: 0 <= i < |entries| ==> entries[i] == PageToEntry(query.value[i])
  {
    if !Configured(databaseId) || query.None? {
      return [];
    }
    var results := query.value;
    entries := [];
    var i := 0;
    while i < |results|
      invariant 0 <= i <= |results|
      invariant |entries| == i
      invariant forall j :: 0 <= j < i ==> entries[j] == PageToEntry(results[j])
    {
      var entry := PageToEntry(results[i]);
      entries := entries + [entry];
      i := i + 1;
    }
  }

  // ------------------------------------------------------ round trips

  lemma NoCommaAfterSpaces(p: string, c: string)
    requires AllSpace(p) && ',' !in c
    ensures ',' !in p + c
  {
    forall i | 0 <= i < |p + c| ensures (p + c)[i] != ',' {
      if i < |p| {
        assert IsSpace(p[i]);
      } else {
        assert (p + c)[i] == c[i - |p|];
      }
    }
  }

  lemma JoinUnfold(p: string, cs: seq<string>)
    requires |cs| >= 2
    ensures p + Join(cs, ", ") == (p + cs[0]) + [','] + (" " + Join(cs[1..], ", "))
  {
  }

  predicate AllClean(cs: seq<string>) {
    forall i :: 0 <= i < |cs| ==> CleanCategory(cs[i])
  }

  lemma CleanTail(cs: seq<string>)
    requires cs != [] && AllClean(cs)
    ensures CleanCategory(cs[0]) && AllClean(cs[1..])
  {
    assert forall i :: 0 <= i < |cs[1..]| ==> cs[1..][i] == cs[i + 1];
  }

  /** Splitting a joined list cuts off its first category, with the space after the comma left on the rest. */
  lemma SplitJoinedHead(p: string, cs: seq<string>)
    requires AllSpace(p) && |cs| > 1 && ',' !in cs[0]
    ensures Split(p + Join(cs, ", "), ',') == [p + cs[0]] + Split(" " + Join(cs[1..], ", "), ',')
  {
    NoCommaAfterSpaces(p, cs[0]);
    JoinUnfold(p, cs);
    SplitAfterPiece(p + cs[0], ',', " " + Join(cs[1..], ", "));
  }

  lemma StripEachCons(x: string, xs: seq<string>)
    ensures StripEach([x] + xs) == [Strip(x)] + StripEach(xs)
  {
    assert ([x] + xs)[1..] == xs;
  }

  lemma {:induction false} SplitJoinedAfterSpaces(p: string, cs: seq<string>)
    requires AllSpace(p) && cs != [] && AllClean(cs)
    ensures StripEach(Split(p + Join(cs, ", "), ',')) == cs
    decreases |cs|
  {
    CleanTail(cs);
    StripAfterSpaces(p, cs[0]);
    if |cs| == 1 {
      NoCommaAfterSpaces(p, cs[0]);
    } else {
      assert AllSpace(" ");
      SplitJoinedAfterSpaces(" ", cs[1..]);
      SplitJoinedHead(p, cs);
      StripEachCons(p + cs[0], Split(" " + Join(cs[1..], ", "), ','));
      assert cs == [cs[0]] + cs[1..];
    }
  }

  /** Categories written by `", ".join` are read back by split-and-strip, provided each is clean. */
  lemma CategoriesRoundTrip(cs: seq<string>)
    requires cs != []
    requires forall i :: 0 <= i < |cs| ==> CleanCategory(cs[i])
    ensures SplitCategories(Join(cs, ", ")) == cs
  {
    assert AllClean(cs);
    assert "" + Join(cs, ", ") == Join(cs, ", ");
    SplitJoinedAfterSpaces("", cs);
  }

  lemma {:induction false} StripEachClean(pieces: seq<string>)
    requires forall i :: 0 <= i < |pieces| ==> ',' !in pieces[i]
    ensures |StripEach(pieces)| == |pieces|
    ensures forall i :: 0 <= i < |pieces| ==> CleanCategory(StripEach(pieces)[i])
  {
    if pieces != [] {
      StripKeepsAbsent(pieces[0], ',');
      StripEachClean(pieces[1..]);
      assert forall i :: 1 <= i < |pieces| ==> StripEach(pieces)[i] == StripEach(pieces[1..])[i - 1];
    }
  }

  /** Every category read back is clean, and there is at least one. */
  lemma ReadCategoriesAreClean(text: string)
    ensures SplitCategories(text) != []
    ensures forall i :: 0 <= i < |SplitCategories(text)| ==> CleanCategory(SplitCategories(text)[i])
  {
    StripEachClean(Split(text, ','));
  }

  /** Categories that were read back survive being written and read again. */
  lemma CategoriesReadWriteRead(text: string)
    ensures SplitCategories(Join(SplitCategories(text), ", ")) == SplitCategories(text)
  {
    ReadCategoriesAreClean(text);
    CategoriesRoundTrip(SplitCategories(text));
  }

  /**
   * Reading back a page whose bag `create_entry` wrote, assuming Notion
   * returns each written text run with `plain_text` equal to its content:
   * link, notes, date and provider come back as written, and the coordinates
   * come back exactly when both were truthy.
   */
  lemma ReadBackWrittenEntry(page: Page, linkUrl: string, notes: string, latitude: Option<real>, longitude: Option<real>,
                             aiModelInfo: Option<ModelInfo>, now: string)
    requires BaseWritten(page.properties, linkUrl, notes, now)
    requires CoordinatesWritten(page.properties, latitude, longitude)
    requires ModelWritten(page.properties, aiModelInfo)
    ensures var e := PageToEntry(page);
      && e.url == linkUrl && e.title == linkUrl && e.content == notes && e.date == Some(now)
      && (if TruthyNumber(latitude) && TruthyNumber(longitude)
          then e.latitude == latitude && e.longitude == longitude
          else e.latitude == None && e.longitude == None)
      && e.aiModelInfo == (if aiModelInfo.Some? then Some(aiModelInfo.value.provider) else None)
  {
  }

  /**
   * Reading back the scraped fields of a written page: each comes back when it
   * was written (a 0 rating is lost), and the categories come back when clean.
   */
  lemma ReadBackScrapedFields(page: Page, scraped: Option<Scraped>)
    requires ScrapedWritten(page.properties, scraped)
    ensures var t := PageToEntry(page).tabelog;
      && t.name == (if scraped.Some? && TruthyText(scraped.value.name) then scraped.value.name else None)
      && t.rating == (if scraped.Some? && TruthyNumber(scraped.value.rating) then scraped.value.rating else None)
      && t.address == (if scraped.Some? && TruthyText(scraped.value.address) then scraped.value.address else None)
      && (scraped.None? || scraped.value.categories == [] ==> t.categories == None)
      && (scraped.Some? && scraped.value.categories != [] && AllClean(scraped.value.categories)
          ==> t.categories == Some(scraped.value.categories))
  {
    if scraped.Some? && scraped.value.categories != [] && AllClean(scraped.value.categories) {
      CategoriesRoundTrip(scraped.value.categories);
    }
  }

  // ------------------------------------------------- get_database_info

  /** A property of the database schema: its `type` and, when present, its `id`. */
  datatype SchemaProperty = SchemaProperty(kind: string, id: Option<string>)

  /** The outcome of `databases.retrieve`; a missing `title` is `[]`. */
  datatype Database = Database(title: seq<string>, properties: map<string, SchemaProperty>)

  datatype PropertySummary = PropertySummary(kind: string, id: string)

  datatype DatabaseInfo = DatabaseInfo(databaseId: string, title: seq<string>, properties: map<string, PropertySummary>)

  /** The `property_info` comprehension: same keys, each keeping its type, `"N/A"` for a missing id. */
  function SummarizeProperties(props: map<string, SchemaProperty>): (r: map<string, PropertySummary>)
    ensures r.Keys == props.Keys
    ensures forall k :: k in r ==> r[k].kind == props[k].kind
    ensures forall k :: k in r ==> r[k].id == if props[k].id.Some? then props[k].id.value else "N/A"
  {
    map k | k in props :: PropertySummary(props[k].kind, props[k].id.GetOr("N/A"))
  }

  /** `get_database_info`; `retrieved` is the outcome of `databases.retrieve` (its exception text on failure). */
  function GetDatabaseInfo(databaseId: Option<string>, retrieved: Result<Database, string>): (r: Result<DatabaseInfo, string>)
    ensures !Configured(databaseId) ==> r == Failure("Database ID not configured")
    ensures Configured(databaseId) && retrieved.Failure? ==> r == Failure(retrieved.error)
    ensures r.Success? <==> Configured(databaseId) && retrieved.Success?
    ensures r.Success? ==>
      r.value.databaseId == databaseId.value && r.value.title == retrieved.value.title &&
      r.value.properties.Keys == retrieved.value.properties.Keys
    ensures r.Success? ==> r.value.properties == SummarizeProperties(retrieved.value.properties)
    ensures r.Success? ==> forall k :: k in r.value.properties ==>
      && r.value.properties[k].kind == retrieved.value.properties[k].kind
      && r.value.properties[k].id == retrieved.value.properties[k].id.GetOr("N/A")
  {
    if !Configured(databaseId) then Failure("Database ID not configured")
    else match retrieved
      case Failure(e) => Failure(e)
      case Success(db) => Success(DatabaseInfo(databaseId.value, db.title, SummarizeProperties(db.properties)))
  }
}
