/**
 * The deterministic parts of the AI configuration module: parsing a
 * `{latitude, longitude}` pair out of the model's reply, mapping a
 * LaunchDarkly provider name onto a LangChain one, and turning the configured
 * messages into the chat history sent to the model. Python's `float()` is the
 * parameter `toFloat`: `None` where it raises.
 */
module AiConfigs {
  import opened Wrappers
  import opened PyBuiltins

  // -------------------------------------------------- parse_coordinates

  /**
   * The three outcomes of `parse_coordinates`: `None` (no `{` or no `}`), a
   * pair, or the `ValueError` it raises on a malformed pair.
   */
  datatype ParsedCoordinates = NotFound | Found(latitude: real, longitude: real) | ValueError

  /** `s[lo:hi]` for indices already inside the string: empty when `lo > hi`. */
  function Slice(s: string, lo: nat, hi: nat): (r: string)
    requires lo <= |s| && hi <= |s|
  {
    if lo <= hi then s[lo..hi] else ""
  }

  /** The text between the first `{` and the first `}`, when both occur. */
  function BracedText(s: string): Option<string> {
    var start := Find(s, '{');
    var end := Find(s, '}');
    if start != -1 && end != -1 then Some(Slice(s, start + 1, end)) else None
  }

  /** `lat_str, lon_str = coords_str.split(",")` and the two `float(... .strip())` conversions. */
  function ParsePair(coords: string, toFloat: string -> Option<real>): ParsedCoordinates {
    var parts := Split(coords, ',');
    if |parts| != 2 then ValueError
    else
      match (toFloat(Strip(parts[0])), toFloat(Strip(parts[1])))
      case (Some(latitude), Some(longitude)) => Found(latitude, longitude)
      case _ => ValueError
  }

  /** `parse_coordinates(ai_response)`. */
  function ParseCoordinates(aiResponse: string, toFloat: string -> Option<real>): (r: ParsedCoordinates)
    ensures r.NotFound? <==> '{' !in aiResponse || '}' !in aiResponse
  {
    match BracedText(aiResponse)
    case None => NotFound
    case Some(coords) => ParsePair(coords, toFloat)
  }

  /** Only the text strictly between the first `{` and the first `}` is parsed. */
  lemma ParsesBracedTextOnly(before: string, coords: string, after: string, toFloat: string -> Option<real>)
    requires '{' !in before && '}' !in before && '}' !in coords
    ensures BracedText(before + "{" + coords + "}" + after) == Some(coords)
    ensures ParseCoordinates(before + "{" + coords + "}" + after, toFloat) == ParsePair(coords, toFloat)
  {
    var s := before + "{" + coords + "}" + after;
    assert s == before + ['{'] + (coords + "}" + after);
    FindAfter(before, '{', coords + "}" + after);
    assert '}' !in before + "{" + coords;
    assert s == (before + "{" + coords) + ['}'] + after;
    FindAfter(before + "{" + coords, '}', after);
    assert s[|before| + 1..|before| + 1 + |coords|] == coords;
  }

  /** Any number of commas other than one makes the unpacking raise. */
  lemma CommaCountOtherThanOneRaises(coords: string, toFloat: string -> Option<real>)
    requires Count(coords, ',') != 1
    ensures ParsePair(coords, toFloat) == ValueError
  {
    SplitCount(coords, ',');
  }

  /** A parsed pair always came from text with exactly one comma. */
  lemma FoundHasOneComma(s: string, toFloat: string -> Option<real>)
    requires ParseCoordinates(s, toFloat).Found?
    ensures BracedText(s).Some? && Count(BracedText(s).value, ',') == 1
  {
    SplitCount(BracedText(s).value, ',');
  }

  /**
   * With exactly one comma, the stripped left half becomes the latitude and
   * the stripped right half the longitude; a half `float()` rejects raises.
   */
  lemma ParsesStrippedHalves(lat: string, lon: string, toFloat: string -> Option<real>)
    requires ',' !in lat && ',' !in lon
    ensures ParsePair(lat + "," + lon, toFloat) ==
      if toFloat(Strip(lat)).Some? && toFloat(Strip(lon)).Some?
      then Found(toFloat(Strip(lat)).value, toFloat(Strip(lon)).value)
      else ValueError
  {
    assert lat + "," + lon == lat + [','] + lon;
    SplitPair(lat, ',', lon);
  }

  /** A `}` before the first `{` leaves an empty slice, which has no comma, so the call raises. */
  lemma ClosingBraceFirstRaises(s: string, toFloat: string -> Option<real>)
    requires '{' in s && '}' in s && Find(s, '}') < Find(s, '{')
    ensures BracedText(s) == Some("")
    ensures ParseCoordinates(s, toFloat) == ValueError
  {
  }

  // -------------------------------------------- map_provider_to_langchain

  /** Provider names that LangChain spells differently from LaunchDarkly. */
  const ProviderMapping: map<string, string> := map["gemini" := "google_genai"]

  /** `map_provider_to_langchain`: lower-case the name, then apply the mapping. */
  function MapProviderToLangchain(providerName: string): (r: string)
    ensures r != "gemini"
    ensures IsLower(r)
    ensures r == "google_genai" || r == Lower(providerName)
  {
    var lowerProvider := Lower(providerName);
    LowerIsLower(providerName);
    if lowerProvider in ProviderMapping then ProviderMapping[lowerProvider] else lowerProvider
  }

  /** Mapping an already mapped name changes nothing. */
  lemma MapProviderIdempotent(providerName: string)
    ensures MapProviderToLangchain(MapProviderToLangchain(providerName)) == MapProviderToLangchain(providerName)
  {
    var r := MapProviderToLangchain(providerName);
    LowerOfLower(r);
  }

  /** A capitalised name is lowered before the lookup, so `Gemini` is renamed too. */
  lemma MapProviderLowersFirst()
    ensures MapProviderToLangchain("Gemini") == "google_genai"
    ensures MapProviderToLangchain("OpenAI") == "openai"
  {
    assert Lower("Gemini") == "gemini";
    assert Lower("OpenAI") == "openai";
  }

  /** Only `gemini`, in any letter case, is renamed; every other name is just lower-cased. */
  lemma MapProviderRenamesOnlyGemini(providerName: string)
    ensures MapProviderToLangchain(providerName) ==
      if Lower(providerName) == "gemini" then "google_genai" else Lower(providerName)
  {
  }

  // ------------------------------------------------ message conversion

  /** A configured message: `message.to_dict()`'s `role` and `content`. */
  datatype LdMessage = LdMessage(role: string, content: string)

  /** The LangChain message kinds the conversion produces. */
  datatype ChatMessage = SystemMessage(content: string) | AiMessage(content: string) | HumanMessage(content: string)

  predicate KnownRole(role: string) {
    role == "system" || role == "assistant" || role == "user"
  }

  /** The role a chat message stands for. */
  function RoleOf(m: ChatMessage): string {
    match m
    case SystemMessage(_) => "system"
    case AiMessage(_) => "assistant"
    case HumanMessage(_) => "user"
  }

  /** One configured message as LangChain sees it: same role, same content. */
  function ToChat(m: LdMessage): (c: ChatMessage)
    requires KnownRole(m.role)
    ensures RoleOf(c) == m.role && c.content == m.content
  {
    if m.role == "system" then SystemMessage(m.content)
    else if m.role == "assistant" then AiMessage(m.content)
    else HumanMessage(m.content)
  }

  /** The conversion of a whole list: known roles converted in order, the rest dropped. */
  function Converted(messages: seq<LdMessage>): (r: seq<ChatMessage>)
    ensures |r| <= |messages|
  {
    if messages == [] then []
    else
      var init := Converted(messages[..|messages| - 1]);
      var last := messages[|messages| - 1];
      if KnownRole(last.role) then init + [ToChat(last)] else init
  }

  /** How many messages have a known role. */
  function KnownCount(messages: seq<LdMessage>): nat {
    if messages == [] then 0
    else KnownCount(messages[..|messages| - 1]) + (if KnownRole(messages[|messages| - 1].role) then 1 else 0)
  }

  /** The messages with a known role, in order. */
  function KnownMessages(messages: seq<LdMessage>): seq<LdMessage> {
    if messages == [] then []
    else
      var init := KnownMessages(messages[..|messages| - 1]);
      var last := messages[|messages| - 1];
      if KnownRole(last.role) then init + [last] else init
  }

  /**
   * The conversion keeps exactly the known-role messages, in their order:
   * reading each converted message back as a role and a content gives the
   * known messages of the input.
   */
  lemma {:induction false} ConvertedKeepsKnownMessages(messages: seq<LdMessage>)
    ensures |Converted(messages)| == |KnownMessages(messages)| == KnownCount(messages)
    ensures forall i :: 0 <= i < |Converted(messages)| ==>
      LdMessage(RoleOf(Converted(messages)[i]), Converted(messages)[i].content) == KnownMessages(messages)[i]
  {
    if messages != [] {
      ConvertedKeepsKnownMessages(messages[..|messages| - 1]);
    }
  }

  /** Converting a concatenation converts each part. */
  lemma {:induction false} ConvertedAppend(a: seq<LdMessage>, b: seq<LdMessage>)
    ensures Converted(a + b) == Converted(a) + Converted(b)
    decreases |b|
  {
    if b == [] {
      assert a + b == a;
    } else {
      var b' := b[..|b| - 1];
      assert (a + b)[..|a + b| - 1] == a + b';
      assert (a + b)[|a + b| - 1] == b[|b| - 1];
      ConvertedAppend(a, b');
    }
  }

  /**
   * The message-conversion loop of `get_ai_response`: the configured messages
   * (`None` counts as no messages) converted, then the user's input as the
   * final human message.
   */
  method ToLangchainMessages(messages: Option<seq<LdMessage>>, userInput: string) returns (out: seq<ChatMessage>)
    ensures out == Converted(messages.GetOr([])) + [HumanMessage(userInput)]
    ensures |out| == KnownCount(messages.GetOr([])) + 1
  {
    var configured := messages.GetOr([]);
    out := [];
    var i := 0;
    while i < |configured|
      invariant 0 <= i <= |configured|
      invariant out == Converted(configured[..i])
    {
      var message := configured[i];
      assert configured[..i + 1][..i] == configured[..i];
      if message.role == "system" {
        out := out + [SystemMessage(message.content)];
      } else if message.role == "assistant" {
        out := out + [AiMessage(message.content)];
      } else if message.role == "user" {
        out := out + [HumanMessage(message.content)];
      }
      i := i + 1;
    }
    assert configured[..i] == configured;
    out := out + [HumanMessage(userInput)];
    ConvertedKeepsKnownMessages(configured);
  }
}
