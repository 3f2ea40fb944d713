/**
 * The request-level rules of the Flask routes: validation of the add-entry
 * form, what is handed on to `create_entry`, and the markers of the map page.
 * Flask's `flash` + `redirect` become a `RedirectToIndex` response carrying
 * the flashed message, `render_template` becomes `RenderMap`, and an
 * exception that escapes a route becomes `InternalServerError`.
 */
module Routes {
  import opened Wrappers
  import opened PyBuiltins
  import opened NotionService
  import opened AiConfigs

  datatype Flash = Flash(message: string, category: string)

  /** A map marker, as `map()` builds it for the template. */
  datatype Marker = Marker(lat: real, lng: real, title: string, url: string, notionUrl: string)

  datatype Response =
    | RedirectToIndex(flash: Flash)
    | RenderMap(markers: seq<Marker>, centerLat: real, centerLng: real)
    | InternalServerError

  // ------------------------------------------------------------ add_entry

  /** `request.form.get(key, '')`. */
  function FormField(form: map<string, string>, key: string): string {
    if key in form then form[key] else ""
  }

  datatype FormCheck = Rejected(message: string) | Accepted(linkUrl: string, notes: string)

  /** The checks `add_entry` makes on the stripped form before anything else. */
  function CheckForm(form: map<string, string>): (r: FormCheck)
    ensures r.Accepted? <==>
      && Strip(FormField(form, "link_url")) != ""
      && Strip(FormField(form, "notes")) != ""
      && ValidateUrl(Strip(FormField(form, "link_url")))
    ensures r.Accepted? ==>
      r.linkUrl == Strip(FormField(form, "link_url")) && r.notes == Strip(FormField(form, "notes"))
    ensures r.Accepted? ==> IsStripped(r.linkUrl) && IsStripped(r.notes) && ValidateUrl(r.linkUrl)
    ensures r.Rejected? && (Strip(FormField(form, "link_url")) == "" || Strip(FormField(form, "notes")) == "") ==>
      r.message == "Please fill in both link and notes!"
    ensures r.Rejected? && Strip(FormField(form, "link_url")) != "" && Strip(FormField(form, "notes")) != "" ==>
      r.message == "Please enter a valid Tabelog URL!"
  {
    var linkUrl := Strip(FormField(form, "link_url"));
    var notes := Strip(FormField(form, "notes"));
    if linkUrl == "" || notes == "" then Rejected("Please fill in both link and notes!")
    else if !ValidateUrl(linkUrl) then Rejected("Please enter a valid Tabelog URL!")
    else Accepted(linkUrl, notes)
  }

  /**
   * What `get_ai_response` gives back: it raised, it returned `None` (the AI
   * configuration is disabled), or it returned a dictionary.
   */
  datatype AiReply = AiRaised | AiDisabled | AiReplied(fields: map<string, string>)

  /** `dict.get(key, "Unknown")`. */
  function OrUnknown(fields: map<string, string>, key: string): string {
    if key in fields then fields[key] else "Unknown"
  }

  /** `model_info`: model and provider of the reply, `"Unknown"` where missing. */
  function ModelInfoOf(fields: map<string, string>): (info: ModelInfo)
    ensures "model" !in fields ==> info.model == "Unknown"
    ensures "provider" !in fields ==> info.provider == "Unknown"
    ensures "model" in fields ==> info.model == fields["model"]
    ensures "provider" in fields ==> info.provider == fields["provider"]
  {
    ModelInfo(OrUnknown(fields, "model"), OrUnknown(fields, "provider"))
  }

  /** Where `add_entry` is heading once the form and the AI reply are known. */
  datatype Plan =
    | Reject(message: string)
    | Crash
    | Save(linkUrl: string, notes: string, latitude: Option<real>, longitude: Option<real>, modelInfo: ModelInfo)

  /**
   * `add_entry` up to the `create_entry` call. `ai` stands for
   * `get_ai_response`, `toFloat` for Python's `float()`. A rejected form is
   * decided by the form alone, before the AI is consulted.
   */
  function PlanAddEntry(form: map<string, string>, ai: string -> AiReply, toFloat: string -> Option<real>): (p: Plan)
    ensures p.Reject? <==> CheckForm(form).Rejected?
    ensures p.Reject? ==> p.message == CheckForm(form).message
    ensures p.Save? ==>
      && CheckForm(form) == Accepted(p.linkUrl, p.notes)
      && ai(p.linkUrl).AiReplied? && "response" in ai(p.linkUrl).fields
      && p.modelInfo == ModelInfoOf(ai(p.linkUrl).fields)
    ensures p.Save? ==>
      match ParseCoordinates(ai(p.linkUrl).fields["response"], toFloat)
      case NotFound => p.latitude == None && p.longitude == None
      case Found(lat, lon) => p.latitude == Some(lat) && p.longitude == Some(lon)
      case ValueError => false
    ensures p.Crash? <==>
      && CheckForm(form).Accepted?
      && var reply := ai(CheckForm(form).linkUrl);
         (|| !reply.AiReplied?
          || "response" !in reply.fields
          || ParseCoordinates(reply.fields["response"], toFloat).ValueError?)
  {
    match CheckForm(form)
    case Rejected(message) => Reject(message)
    case Accepted(linkUrl, notes) =>
      match ai(linkUrl)
      case AiRaised => Crash
      case AiDisabled => Crash
      case AiReplied(fields) =>
        if "response" !in fields then Crash
        else
          match ParseCoordinates(fields["response"], toFloat)
          case ValueError => Crash
          case NotFound => Save(linkUrl, notes, None, None, ModelInfoOf(fields))
          case Found(lat, lon) => Save(linkUrl, notes, Some(lat), Some(lon), ModelInfoOf(fields))
  }

  /**
   * The `add_entry` route: the plan above, then `create_entry` and the flash
   * message it reports. `sent` is the bag handed to `pages.create`, if any.
   */
  method AddEntry(form: map<string, string>, ai: string -> AiReply, toFloat: string -> Option<real>,
                  databaseId: Option<string>, now: string, scrape: string -> Option<Scraped>, createError: Option<string>)
    returns (response: Response, sent: Option<Bag>)
    ensures PlanAddEntry(form, ai, toFloat).Reject? ==>
      response == RedirectToIndex(Flash(PlanAddEntry(form, ai, toFloat).message, "error")) && sent == None
    ensures PlanAddEntry(form, ai, toFloat).Crash? ==> response == InternalServerError && sent == None
    ensures PlanAddEntry(form, ai, toFloat).Save? ==>
      var p := PlanAddEntry(form, ai, toFloat);
      && response.RedirectToIndex?
      && (sent.Some? <==> Configured(databaseId))
      && (sent.Some? ==> IsEntryBag(sent.value, p.linkUrl, p.notes, p.latitude, p.longitude,
                                    scrape(p.linkUrl), Some(p.modelInfo), now))
      && response.flash.category == (if Configured(databaseId) && createError.None? then "success" else "error")
      && response.flash.message ==
           if !Configured(databaseId) then "Database ID not configured"
           else if createError.None? then "Entry saved successfully!"
           else "Error saving entry: " + createError.value
  {
    var plan := PlanAddEntry(form, ai, toFloat);
    match plan {
      case Reject(message) =>
        return RedirectToIndex(Flash(message, "error")), None;
      case Crash =>
        return InternalServerError, None;
      case Save(linkUrl, notes, latitude, longitude, modelInfo) =>
        var success, message;
        success, message, sent := CreateEntry(databaseId, linkUrl, notes, latitude, longitude, Some(modelInfo),
                                              now, scrape, createError);
        response := RedirectToIndex(Flash(message, if success then "success" else "error"));
    }
  }

  // ----------------------------------------------------------------- map

  const CenterLat: real := 34.92534863829663
  const CenterLng: real := 135.79543051024322

  /** `entry.get('latitude') and entry.get('longitude')`: both set and non-zero. */
  predicate HasCoordinates(e: Entry) {
    TruthyNumber(e.latitude) && TruthyNumber(e.longitude)
  }

  /** The marker of one located entry. */
  function MarkerOf(e: Entry): (m: Marker)
    requires HasCoordinates(e)
    ensures m.lat == e.latitude.value && m.lng == e.longitude.value
    ensures m.title == (if e.tabelog.name.Some? then e.tabelog.name.value else "Restaurant")
    ensures m.url == e.url && m.notionUrl == e.notionUrl
  {
    Marker(e.latitude.value, e.longitude.value, e.tabelog.name.GetOr("Restaurant"), e.url, e.notionUrl)
  }

  /** The entries that get a marker, in entry order. */
  function Located(entries: seq<Entry>): (r: seq<Entry>)
    ensures |r| <= |entries|
    ensures forall i :: 0 <= i < |r| ==> HasCoordinates(r[i])
  {
    if entries == [] then []
    else
      var init := Located(entries[..|entries| - 1]);
      var last := entries[|entries| - 1];
      if HasCoordinates(last) then init + [last] else init
  }

  /** An entry gets a marker exactly when it is one of the entries and has both coordinates. */
  lemma {:induction false} LocatedMembers(entries: seq<Entry>, e: Entry)
    ensures e in Located(entries) <==> e in entries && HasCoordinates(e)
    decreases |entries|
  {
    if entries != [] {
      var init := entries[..|entries| - 1];
      assert entries == init + [entries[|entries| - 1]];
      LocatedMembers(init, e);
    }
  }

  /** Selecting from a concatenation selects from each part, keeping the order. */
  lemma {:induction false} LocatedAppend(a: seq<Entry>, b: seq<Entry>)
    ensures Located(a + b) == Located(a) + Located(b)
    decreases |b|
  {
    if b == [] {
      assert a + b == a;
    } else {
      var b' := b[..|b| - 1];
      assert (a + b)[..|a + b| - 1] == a + b';
      assert (a + b)[|a + b| - 1] == b[|b| - 1];
      LocatedAppend(a, b');
    }
  }

  /** The marker loop of `map()`: one marker per located entry, in entry order. */
  method BuildMarkers(entries: seq<Entry>) returns (markers: seq<Marker>)
    ensures |markers| == |Located(entries)|
    ensures forall i :: 0 <= i < |markers| ==> markers[i] == MarkerOf(Located(entries)[i])
  {
    markers := [];
    var i := 0;
    while i < |entries|
      invariant 0 <= i <= |entries|
      invariant |markers| == |Located(entries[..i])|
      invariant forall j :: 0 <= j < |markers| ==> markers[j] == MarkerOf(Located(entries[..i])[j])
    {
      var entry := entries[i];
      assert entries[..i + 1][..i] == entries[..i];
      if TruthyNumber(entry.latitude) && TruthyNumber(entry.longitude) {
        markers := markers + [Marker(entry.latitude.value, entry.longitude.value,
                                     entry.tabelog.name.GetOr("Restaurant"), entry.url, entry.notionUrl)];
      }
      i := i + 1;
    }
    assert entries[..i] == entries;
  }

  /**
   * The `map` route; `entries` is what `get_entries` returns. Without a
   * Google Maps key the request is redirected with an error.
   */
  method MapView(apiKey: Option<string>, entries: seq<Entry>) returns (response: Response)
    ensures !TruthyText(apiKey) ==> response == RedirectToIndex(Flash("Google Maps API key not configured", "error"))
    ensures TruthyText(apiKey) ==>
      && response.RenderMap? && response.centerLat == CenterLat && response.centerLng == CenterLng
      && |response.markers| == |Located(entries)|
      && forall i :: 0 <= i < |response.markers| ==> response.markers[i] == MarkerOf(Located(entries)[i])
  {
    if !TruthyText(apiKey) {
      return RedirectToIndex(Flash("Google Maps API key not configured", "error"));
    }
    var markers := BuildMarkers(entries);
    response := RenderMap(markers, CenterLat, CenterLng);
  }
}
