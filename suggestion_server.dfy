/** The `ai-menu-suggestions` edge function: it asks a text-generation gateway for
    upsell picks, extracts a JSON array from the reply, resolves each pick's name against
    the catalogue sent with the request, and maps gateway failures to HTTP statuses. */
module SuggestionServer {
  import opened Wrappers
  import opened Text

  const NoOrderItems := "No items in current order"
  const OrderPrefix := "Current order contains: "
  const MenuPrefix := "Available menu items: "
  const ChefReason := "Highly recommended by our chef"
  const ChefConfidence: real := 85.0
  const PopularItem := "Popular Item"

  const MissingKeyMessage := "LOVABLE_API_KEY not configured"
  const RateLimitMessage := "Rate limit exceeded. Please try again later."
  const CreditsMessage := "AI credits exhausted. Please add credits to your workspace."
  const RequestFailedMessage := "AI API request failed"
  const NoContentMessage := "No content in AI response"
  /** Stands for the runtime's TypeError text when the parsed reply has the wrong shape. */
  const ShapeErrorMessage := "TypeError"

  /** A line of the current order, as the client sends it. */
  datatype OrderEntry = OrderEntry(name: string, category: string)

  /** A catalogue item, as the client sends it. */
  datatype CatalogEntry = CatalogEntry(id: string, name: string, price: real, category: string)

  datatype SuggestionRequest = SuggestionRequest(
    currentOrderItems: Option<seq<OrderEntry>>,
    menuItems: seq<CatalogEntry>)

  /** An element of the parsed array: JSON `null`, or a value whose `item_name`, `reason` and
      `confidence` properties may be missing (`itemName` is absent also when it is not a string). */
  datatype RawSuggestion =
    | NullEntry
    | Entry(itemName: Option<string>, reason: Option<string>, confidence: Option<real>)

  /** What `JSON.parse` makes of the extracted text. */
  datatype Parsed = Malformed | NotAnArray | Array(entries: seq<RawSuggestion>)

  /** A pick resolved to a catalogue item. */
  datatype Enriched = Enriched(item: CatalogEntry, reason: Option<string>, confidence: Option<real>)

  /** The gateway's answer: no response at all (with the thrown message) or an HTTP status
      with the first choice's message content. */
  datatype ProviderReply = Unreachable(message: string) | Http(status: int, content: Option<string>)

  datatype ResponseBody = SuggestionsBody(suggestions: seq<Enriched>) | ErrorBody(error: string)

  datatype Response = Response(status: int, body: ResponseBody)

  // ---- prompt context ----

  function OrderNames(items: seq<OrderEntry>): seq<string> {
    seq(|items|, i requires 0 <= i < |items| => items[i].name)
  }

  /** `orderContext`: the order's names joined by ", ", or a fixed text when there are none. */
  function OrderContext(items: Option<seq<OrderEntry>>): (r: string)
    ensures (items.None? || |items.value| == 0) <==> r == NoOrderItems
    ensures items.Some? && |items.value| > 0 ==> r == OrderPrefix + Join(OrderNames(items.value), ", ")
  {
    if items.None? || |items.value| == 0 then NoOrderItems
    else
      var r := OrderPrefix + Join(OrderNames(items.value), ", ");
      assert r[0] != NoOrderItems[0];
      r
  }

  /** The order context names every item of a non-empty order. */
  lemma OrderContextListsItems(items: seq<OrderEntry>, k: int)
    requires 0 <= k < |items|
    ensures Contains(OrderContext(Some(items)), items[k].name)
  {
    var joined := Join(OrderNames(items), ", ");
    JoinContainsEach(OrderNames(items), ", ", k);
    var i :| 0 <= i <= |joined| - |items[k].name| && OccursAt(joined, items[k].name, i);
    OccursInside(OrderPrefix, joined, "", items[k].name, i);
    assert OrderPrefix + joined + "" == OrderContext(Some(items));
  }

  lemma OrderContextWhenEmpty(items: Option<seq<OrderEntry>>)
    requires items.None? || items.value == []
    ensures OrderContext(items) == NoOrderItems
  {
  }

  /** `menuContext`: each item as "name (₹price, category)"; `formatPrice` is the runtime's
      number-to-text conversion. */
  function MenuContext(items: seq<CatalogEntry>, formatPrice: real -> string): (r: string)
    ensures r == MenuPrefix + Join(MenuEntries(items, formatPrice), ", ")
    ensures |r| >= |MenuPrefix| && r[..|MenuPrefix|] == MenuPrefix
  {
    MenuPrefix + Join(MenuEntries(items, formatPrice), ", ")
  }

  /** One "name (₹price, category)" entry per catalogue item. */
  function MenuEntries(items: seq<CatalogEntry>, formatPrice: real -> string): (r: seq<string>)
    ensures |r| == |items|
    ensures forall i :: 0 <= i < |items| ==>
      r[i] == items[i].name + " (\U{20B9}" + formatPrice(items[i].price) + ", " + items[i].category + ")"
  {
    seq(|items|, i requires 0 <= i < |items| =>
      items[i].name + " (\U{20B9}" + formatPrice(items[i].price) + ", " + items[i].category + ")")
  }

  /** The menu context names every catalogue item with its category. */
  lemma MenuContextListsItems(items: seq<CatalogEntry>, formatPrice: real -> string, k: int)
    requires 0 <= k < |items|
    ensures Contains(MenuContext(items, formatPrice), items[k].name)
    ensures Contains(MenuContext(items, formatPrice), items[k].category)
  {
    var entries := MenuEntries(items, formatPrice);
    var mid := " (\U{20B9}" + formatPrice(items[k].price) + ", ";
    assert entries[k] == items[k].name + mid + items[k].category + ")";
    var at := OccurrenceInContext(entries, k);
    EntryParts(MenuContext(items, formatPrice), items[k].name, mid, items[k].category, at);
  }

  /** The name and the category of an occurring entry occur too. */
  lemma EntryParts(ctx: string, name: string, mid: string, category: string, at: int)
    requires OccursAt(ctx, name + mid + category + ")", at)
    ensures Contains(ctx, name) && Contains(ctx, category)
  {
    assert name + mid + category + ")" == "" + name + (mid + category + ")");
    OccursPart(ctx, "", name, mid + category + ")", at);
    assert name + mid + category + ")" == (name + mid) + category + ")";
    OccursPart(ctx, name + mid, category, ")", at);
  }

  /** Where the `k`-th entry occurs in the menu context. */
  lemma OccurrenceInContext(entries: seq<string>, k: int) returns (at: int)
    requires 0 <= k < |entries|
    ensures OccursAt(MenuPrefix + Join(entries, ", "), entries[k], at)
  {
    var joined := Join(entries, ", ");
    JoinContainsEach(entries, ", ", k);
    var i :| 0 <= i <= |joined| - |entries[k]| && OccursAt(joined, entries[k], i);
    OccursInside(MenuPrefix, joined, "", entries[k], i);
    assert MenuPrefix + joined + "" == MenuPrefix + joined;
    at := |MenuPrefix| + i;
  }

  // ---- extracting the JSON array ----

  /** The first index of `c` in `s`. */
  function IndexOf(s: string, c: char): (r: Option<nat>)
    ensures r.Some? ==> r.value < |s| && s[r.value] == c && forall k :: 0 <= k < r.value ==> s[k] != c
    ensures r.None? ==> forall k :: 0 <= k < |s| ==> s[k] != c
  {
    if s == [] then None
    else if s[0] == c then Some(0)
    else match IndexOf(s[1..], c)
      case None => None
      case Some(k) => Some(k + 1)
  }

  /** The last index of `c` in `s`. */
  function LastIndexOf(s: string, c: char): (r: Option<nat>)
    ensures r.Some? ==> r.value < |s| && s[r.value] == c && forall k :: r.value < k < |s| ==> s[k] != c
    ensures r.None? ==> forall k :: 0 <= k < |s| ==> s[k] != c
  {
    if s == [] then None
    else if s[|s| - 1] == c then Some(|s| - 1)
    else LastIndexOf(s[..|s| - 1], c)
  }

  /** Some `[` comes before some `]`: the regular expression `/\[[\s\S]*\]/` matches. */
  predicate HasBracketSpan(s: string) {
    exists i, j | 0 <= i < j < |s| :: s[i] == '[' && s[j] == ']'
  }

  /** `content.match(/\[[\s\S]*\]/)`, or the whole content when it does not match:
      the greedy match runs from the first `[` to the last `]`. */
  function JsonSpan(s: string): (r: string)
    ensures !HasBracketSpan(s) ==> r == s
    ensures HasBracketSpan(s) ==> exists i, j ::
      && 0 <= i < j < |s| && r == s[i..j + 1] && s[i] == '[' && s[j] == ']'
      && (forall k :: 0 <= k < i ==> s[k] != '[')
      && (forall k :: j < k < |s| ==> s[k] != ']')
  {
    var first := IndexOf(s, '[');
    var last := LastIndexOf(s, ']');
    if first.Some? && last.Some? && first.value < last.value then s[first.value..last.value + 1]
    else s
  }

  // ---- resolving names ----

  /** Case-insensitive equality of names, as the edge function compares them. */
  predicate SameName(a: string, b: string) {
    ToLower(a) == ToLower(b)
  }

  /** `menuItems.find(...)`: the index of the first item named like `name`. */
  function Resolve(catalog: seq<CatalogEntry>, name: string): (r: Option<nat>)
    ensures r.Some? ==> (r.value < |catalog| && SameName(catalog[r.value].name, name)
      && forall k :: 0 <= k < r.value ==> !SameName(catalog[k].name, name))
    ensures r.None? ==> forall k :: 0 <= k < |catalog| ==> !SameName(catalog[k].name, name)
  {
    if catalog == [] then None
    else if SameName(catalog[0].name, name) then Some(0)
    else match Resolve(catalog[1..], name)
      case None => None
      case Some(k) => Some(k + 1)
  }

  /** Some catalogue item is named like `name`. */
  predicate HasNamed(catalog: seq<CatalogEntry>, name: string) {
    exists k :: 0 <= k < |catalog| && SameName(catalog[k].name, name)
  }

  /** `j` is the first position of an item named like `name`. */
  predicate FirstNamed(catalog: seq<CatalogEntry>, name: string, j: int) {
    && 0 <= j < |catalog| && SameName(catalog[j].name, name)
    && forall m :: 0 <= m < j ==> !SameName(catalog[m].name, name)
  }

  /** The item a name resolves to, `menuItems[0]` when nothing matches. */
  function ResolvedItem(catalog: seq<CatalogEntry>, name: string): (item: CatalogEntry)
    requires |catalog| > 0
    ensures item in catalog
    ensures !HasNamed(catalog, name) ==> item == catalog[0]
    ensures HasNamed(catalog, name) ==> exists j :: FirstNamed(catalog, name, j) && item == catalog[j]
  {
    match Resolve(catalog, name)
    case Some(k) => catalog[k]
    case None => catalog[0]
  }

  /** One pick of the map-then-filter: `None` when the catalogue is empty (and the pick is
      filtered out), a failure when reading the pick throws. */
  function EnrichOne(catalog: seq<CatalogEntry>, raw: RawSuggestion): (r: Result<Option<Enriched>, string>)
    ensures r.Failure? <==> Unreadable(catalog, raw)
    ensures r.Success? ==> (r.value.None? <==> |catalog| == 0)
    ensures r.Success? && r.value.Some? ==>
      && r.value.value.item == ResolvedItem(catalog, raw.itemName.value)
      && r.value.value.reason == raw.reason && r.value.value.confidence == raw.confidence
  {
    match raw
    case NullEntry => Failure(ShapeErrorMessage)
    case Entry(name, reason, confidence) =>
      if |catalog| == 0 then Success(None)
      else if name.None? then Failure(ShapeErrorMessage)
      else Success(Some(Enriched(ResolvedItem(catalog, name.value), reason, confidence)))
  }

  /** Reading a pick throws: it is `null`, or its name is needed and is not a string. */
  predicate Unreadable(catalog: seq<CatalogEntry>, raw: RawSuggestion) {
    raw.NullEntry? || (|catalog| > 0 && raw.itemName.None?)
  }

  /** `suggestions.map(...).filter(s => s.item)`. */
  function Enrich(catalog: seq<CatalogEntry>, raws: seq<RawSuggestion>): (r: Result<seq<Enriched>, string>)
    ensures r.Failure? <==> exists i :: 0 <= i < |raws| && Unreadable(catalog, raws[i])
    ensures r.Success? && |catalog| == 0 ==> r.value == []
    ensures r.Success? && |catalog| > 0 ==>
      && |r.value| == |raws|
      && forall i :: 0 <= i < |raws| ==>
        && r.value[i].item == ResolvedItem(catalog, raws[i].itemName.value)
        && r.value[i].reason == raws[i].reason
        && r.value[i].confidence == raws[i].confidence
  {
    if raws == [] then Success([])
    else
      var head :- EnrichOne(catalog, raws[0]);
      var tail :- Enrich(catalog, raws[1..]);
      Success((if head.Some? then [head.value] else []) + tail)
  }

  /** Every enriched pick refers to an item of the catalogue. */
  lemma EnrichedItemsAreFromCatalog(catalog: seq<CatalogEntry>, raws: seq<RawSuggestion>, i: int)
    requires Enrich(catalog, raws).Success? && 0 <= i < |Enrich(catalog, raws).value|
    ensures Enrich(catalog, raws).value[i].item in catalog
  {
  }

  /** The single pick used when the reply cannot be parsed. */
  function ChefPick(catalog: seq<CatalogEntry>): (r: RawSuggestion)
    ensures r.Entry? && r.itemName.Some? && r.reason == Some(ChefReason) && r.confidence == Some(ChefConfidence)
    ensures |catalog| > 0 && catalog[0].name != "" ==> r.itemName.value == catalog[0].name
    ensures |catalog| == 0 || catalog[0].name == "" ==> r.itemName.value == PopularItem
  {
    var name := if |catalog| > 0 && catalog[0].name != "" then catalog[0].name else PopularItem;
    Entry(Some(name), Some(ChefReason), Some(ChefConfidence))
  }

  /** From the message content to the enriched suggestions; `parse` stands for `JSON.parse`. */
  function Suggest(catalog: seq<CatalogEntry>, content: string, parse: string -> Parsed): (r: Result<seq<Enriched>, string>)
    ensures parse(JsonSpan(content)).NotAnArray? ==> r.Failure?
    ensures parse(JsonSpan(content)).Array? ==> r == Enrich(catalog, parse(JsonSpan(content)).entries)
    ensures r.Success? ==> forall i :: 0 <= i < |r.value| ==> r.value[i].item in catalog
  {
    match parse(JsonSpan(content))
    case Malformed => Enrich(catalog, [ChefPick(catalog)])
    case NotAnArray => Failure(ShapeErrorMessage)
    case Array(entries) => Enrich(catalog, entries)
  }

  /** When parsing fails the answer is one chef's pick — the first catalogue item when it
      has a name — or nothing for an empty catalogue. */
  lemma ParseFailureFallback(catalog: seq<CatalogEntry>, content: string, parse: string -> Parsed)
    requires parse(JsonSpan(content)) == Malformed
    ensures |catalog| == 0 ==> Suggest(catalog, content, parse) == Success([])
    ensures |catalog| > 0 ==> (Suggest(catalog, content, parse).Success?
      && |Suggest(catalog, content, parse).value| == 1
      && Suggest(catalog, content, parse).value[0].item in catalog
      && Suggest(catalog, content, parse).value[0].reason == Some(ChefReason)
      && Suggest(catalog, content, parse).value[0].confidence == Some(ChefConfidence))
    ensures |catalog| > 0 && catalog[0].name != "" ==>
      Suggest(catalog, content, parse) == Success([Enriched(catalog[0], Some(ChefReason), Some(ChefConfidence))])
  {
    var pick := [ChefPick(catalog)];
    assert Suggest(catalog, content, parse) == Enrich(catalog, pick);
    if |catalog| > 0 {
      var r := Enrich(catalog, pick).value;
      assert r == [r[0]];
      if catalog[0].name != "" {
        assert SameName(catalog[0].name, catalog[0].name);
        assert ResolvedItem(catalog, catalog[0].name) == catalog[0];
      }
    }
  }

  /** Picks are matched without regard to ASCII case, the first equal name winning. */
  lemma MatchingIgnoresCase(catalog: seq<CatalogEntry>, reason: Option<string>, confidence: Option<real>)
    requires |catalog| == 2 && catalog[0].name == "Naan" && catalog[1].name == "Lassi"
    ensures Enrich(catalog, [Entry(Some("naan"), reason, confidence)])
      == Success([Enriched(catalog[0], reason, confidence)])
    ensures Enrich(catalog, [Entry(Some("LASSI"), reason, confidence)])
      == Success([Enriched(catalog[1], reason, confidence)])
    ensures Enrich(catalog, [Entry(Some("Biryani"), reason, confidence)])
      == Success([Enriched(catalog[0], reason, confidence)])
  {
    assert ToLower("Naan") == ToLower("naan") == "naan";
    assert ToLower("Lassi") == ToLower("LASSI") == "lassi";
    assert ToLower("Biryani")[0] == 'b';
    assert ToLower("Naan") != ToLower("LASSI") && ToLower("Naan") != ToLower("Biryani");
    assert ToLower("Lassi") != ToLower("Biryani");
    ResolvesAmongTwo(catalog, "naan");
    ResolvesAmongTwo(catalog, "LASSI");
    ResolvesAmongTwo(catalog, "Biryani");
    SingleEnrich(catalog, Entry(Some("naan"), reason, confidence));
    SingleEnrich(catalog, Entry(Some("LASSI"), reason, confidence));
    SingleEnrich(catalog, Entry(Some("Biryani"), reason, confidence));
  }

  /** Resolution in a two-item catalogue. */
  lemma ResolvesAmongTwo(catalog: seq<CatalogEntry>, name: string)
    requires |catalog| == 2
    ensures SameName(catalog[0].name, name) ==> ResolvedItem(catalog, name) == catalog[0]
    ensures !SameName(catalog[0].name, name) && SameName(catalog[1].name, name) ==>
      ResolvedItem(catalog, name) == catalog[1]
    ensures !SameName(catalog[0].name, name) && !SameName(catalog[1].name, name) ==>
      ResolvedItem(catalog, name) == catalog[0]
  {
  }

  lemma SingleEnrich(catalog: seq<CatalogEntry>, raw: RawSuggestion)
    requires |catalog| > 0 && raw.Entry? && raw.itemName.Some?
    ensures Enrich(catalog, [raw]) == Success([Enriched(ResolvedItem(catalog, raw.itemName.value), raw.reason, raw.confidence)])
  {
    var r := Enrich(catalog, [raw]).value;
    assert r == [r[0]];
  }

  // ---- the request handler ----

  predicate IsOk(status: int) {
    200 <= status <= 299
  }

  /** The handler for a POST: `apiKey` is the configured key, `provider` the gateway's reply
      to a prompt built from the two context strings. */
  function HandleRequest(
    apiKey: Option<string>,
    req: SuggestionRequest,
    provider: (string, string) -> ProviderReply,
    parse: string -> Parsed,
    formatPrice: real -> string): (r: Response)
    ensures var reply := provider(OrderContext(req.currentOrderItems), MenuContext(req.menuItems, formatPrice));
      (r.status == 200 <==>
        && apiKey.Some? && apiKey.value != ""
        && reply.Http? && IsOk(reply.status) && reply.content.Some? && reply.content.value != ""
        && Suggest(req.menuItems, reply.content.value, parse).Success?)
      && (r.status == 200 ==>
        r.body == SuggestionsBody(Suggest(req.menuItems, reply.content.value, parse).value))
  {
    if apiKey.None? || apiKey.value == "" then Response(500, ErrorBody(MissingKeyMessage))
    else
      match provider(OrderContext(req.currentOrderItems), MenuContext(req.menuItems, formatPrice))
      case Unreachable(message) => Response(500, ErrorBody(message))
      case Http(status, content) =>
        if !IsOk(status) then
          if status == 429 then Response(429, ErrorBody(RateLimitMessage))
          else if status == 402 then Response(402, ErrorBody(CreditsMessage))
          else Response(500, ErrorBody(RequestFailedMessage))
        else if content.None? || content.value == "" then Response(500, ErrorBody(NoContentMessage))
        else match Suggest(req.menuItems, content.value, parse)
          case Success(suggestions) => Response(200, SuggestionsBody(suggestions))
          case Failure(message) => Response(500, ErrorBody(message))
  }

  /** How the handler's status follows from the key and the gateway's reply. */
  lemma StatusClassification(
    apiKey: Option<string>,
    req: SuggestionRequest,
    provider: (string, string) -> ProviderReply,
    parse: string -> Parsed,
    formatPrice: real -> string)
    ensures var r := HandleRequest(apiKey, req, provider, parse, formatPrice);
      var keyed := apiKey.Some? && apiKey.value != "";
      var reply := provider(OrderContext(req.currentOrderItems), MenuContext(req.menuItems, formatPrice));
      && r.status in {200, 402, 429, 500}
      && (r.status == 429 <==> keyed && reply.Http? && reply.status == 429)
      && (r.status == 402 <==> keyed && reply.Http? && reply.status == 402)
      && (r.status == 429 ==> r.body == ErrorBody(RateLimitMessage))
      && (r.status == 402 ==> r.body == ErrorBody(CreditsMessage))
      && (!keyed ==> r == Response(500, ErrorBody(MissingKeyMessage)))
      && (keyed && reply.Http? && !IsOk(reply.status) && reply.status != 429 && reply.status != 402
          ==> r == Response(500, ErrorBody(RequestFailedMessage)))
      && (keyed && reply.Http? && IsOk(reply.status) && (reply.content.None? || reply.content.value == "")
          ==> r == Response(500, ErrorBody(NoContentMessage)))
      && (r.status == 200 <==> r.body.SuggestionsBody?)
  {
  }

  /** Every suggestion the handler returns refers to an item of the request's catalogue. */
  lemma ResponseItemsAreFromCatalog(
    apiKey: Option<string>,
    req: SuggestionRequest,
    provider: (string, string) -> ProviderReply,
    parse: string -> Parsed,
    formatPrice: real -> string,
    i: int)
    requires HandleRequest(apiKey, req, provider, parse, formatPrice).body.SuggestionsBody?
    requires 0 <= i < |HandleRequest(apiKey, req, provider, parse, formatPrice).body.suggestions|
    ensures HandleRequest(apiKey, req, provider, parse, formatPrice).body.suggestions[i].item in req.menuItems
  {
    var reply := provider(OrderContext(req.currentOrderItems), MenuContext(req.menuItems, formatPrice));
    var content := reply.content.value;
    match parse(JsonSpan(content))
    case Malformed => EnrichedItemsAreFromCatalog(req.menuItems, [ChefPick(req.menuItems)], i);
    case NotAnArray =>
    case Array(entries) => EnrichedItemsAreFromCatalog(req.menuItems, entries, i);
  }
}
