/** The `useAISuggestions` hook: it sends the catalogue and the current order to the
    suggestion function and keeps what comes back, or a fixed two-item fallback. */
module SuggestionClient {
  import opened Wrappers
  import opened Text
  import opened MenuStore
  import SuggestionServer

  const FallbackReason := "Popular choice among customers"
  const FallbackConfidence := 80
  const FallbackCount := 2

  /** A suggestion the panel shows: one passed through from the function, or one of the
      fallback picks built from a full menu item. */
  datatype Upsell =
    | Served(suggestion: SuggestionServer.Enriched)
    | Fallback(item: MenuItem, reason: string, confidence: int)

  /** The `data` of a successful invocation: its `suggestions` property may be missing. */
  datatype Payload = Payload(suggestions: Option<seq<SuggestionServer.Enriched>>)

  /** `supabase.functions.invoke`: an error with its message, or the (possibly `null`) data. */
  datatype InvokeResult = InvokeError(message: string) | Returned(data: Option<Payload>)

  /** The notice shown for an error before the fallback is installed. */
  datatype Notice = NoNotice | RateLimitNotice | CreditsNotice

  function Summary(m: MenuItem): SuggestionServer.CatalogEntry {
    SuggestionServer.CatalogEntry(m.id, m.name, m.price, m.category)
  }

  /** The request body: each order item as {name, category}, each menu item as
      {id, name, price, category}, both in their original order. */
  function RequestBody(order: seq<MenuItem>, menu: seq<MenuItem>): (r: SuggestionServer.SuggestionRequest)
    ensures r.currentOrderItems.Some? && |r.currentOrderItems.value| == |order| && |r.menuItems| == |menu|
    ensures forall i :: 0 <= i < |order| ==>
      r.currentOrderItems.value[i] == SuggestionServer.OrderEntry(order[i].name, order[i].category)
    ensures forall i :: 0 <= i < |menu| ==>
      r.menuItems[i] == SuggestionServer.CatalogEntry(menu[i].id, menu[i].name, menu[i].price, menu[i].category)
  {
    SuggestionServer.SuggestionRequest(
      Some(seq(|order|, i requires 0 <= i < |order| => SuggestionServer.OrderEntry(order[i].name, order[i].category))),
      seq(|menu|, i requires 0 <= i < |menu| => Summary(menu[i])))
  }

  /** The body keeps every field the function reads: an entry is the summary of the menu
      item at the same position, so picks resolved against the body name menu items. */
  lemma RequestBodyMirrorsMenu(order: seq<MenuItem>, menu: seq<MenuItem>, e: SuggestionServer.CatalogEntry)
    requires e in RequestBody(order, menu).menuItems
    ensures exists k :: 0 <= k < |menu| && e == Summary(menu[k]) && e.id == menu[k].id && e.name == menu[k].name
  {
    var k :| 0 <= k < |menu| && RequestBody(order, menu).menuItems[k] == e;
  }

  /** The order context the function builds names every item of the client's order. */
  lemma OrderContextNamesOrder(order: seq<MenuItem>, menu: seq<MenuItem>, k: int)
    requires 0 <= k < |order|
    ensures Contains(SuggestionServer.OrderContext(RequestBody(order, menu).currentOrderItems), order[k].name)
  {
    SuggestionServer.OrderContextListsItems(RequestBody(order, menu).currentOrderItems.value, k);
  }

  /** `menuItems.slice(0, 2).map(...)`: the first two menu items with a fixed reason and confidence. */
  function FallbackSuggestions(menu: seq<MenuItem>): (r: seq<Upsell>)
    ensures |r| == if |menu| < FallbackCount then |menu| else FallbackCount
    ensures forall i :: 0 <= i < |r| ==> r[i] == Fallback(menu[i], FallbackReason, FallbackConfidence)
    ensures |menu| > 0 ==> 1 <= |r| <= FallbackCount
  {
    var first := if |menu| < FallbackCount then menu else menu[..FallbackCount];
    seq(|first|, i requires 0 <= i < |first| => Fallback(first[i], FallbackReason, FallbackConfidence))
  }

  /** Which notice an error message selects; the error is rethrown either way. */
  function ErrorNotice(message: string): (r: Notice)
    ensures r == RateLimitNotice <==> Contains(message, "Rate limit")
    ensures r == CreditsNotice <==> !Contains(message, "Rate limit") && Contains(message, "credits")
  {
    if Contains(message, "Rate limit") then RateLimitNotice
    else if Contains(message, "credits") then CreditsNotice
    else NoNotice
  }

  /** The suggestions after one completed fetch: the function's list as it came, `[]` when
      it has none, and the fallback on an error or on `null` data. */
  function Outcome(menu: seq<MenuItem>, result: InvokeResult): (r: seq<Upsell>)
    ensures result.InvokeError? || result.data.None? ==> r == FallbackSuggestions(menu)
    ensures result.Returned? && result.data.Some? ==>
      |r| == (if result.data.value.suggestions.Some? then |result.data.value.suggestions.value| else 0)
      && forall i :: 0 <= i < |r| ==> r[i] == Served(result.data.value.suggestions.value[i])
  {
    match result
    case InvokeError(_) => FallbackSuggestions(menu)
    case Returned(None) => FallbackSuggestions(menu)
    case Returned(Some(payload)) =>
      var list := if payload.suggestions.Some? then payload.suggestions.value else [];
      seq(|list|, i requires 0 <= i < |list| => Served(list[i]))
  }

  /** Every error, whatever notice it selects, ends in the fallback, which for a
      non-empty menu holds one or two of its items. */
  lemma ErrorsEndInFallback(menu: seq<MenuItem>, message: string)
    requires |menu| > 0
    ensures Outcome(menu, InvokeError(message)) == FallbackSuggestions(menu)
    ensures 1 <= |Outcome(menu, InvokeError(message))| <= FallbackCount
    ensures forall i :: 0 <= i < |Outcome(menu, InvokeError(message))| ==>
      Outcome(menu, InvokeError(message))[i].Fallback? && Outcome(menu, InvokeError(message))[i].item == menu[i]
  {
  }

  /** The hook's state. */
  class SuggestionPanel {
    var suggestions: seq<Upsell>
    var loading: bool

    constructor ()
      ensures suggestions == [] && !loading
    {
      suggestions := [];
      loading := false;
    }

    /** `fetchSuggestions`: `invoke` stands for the function call; the ghost
        `loadingDuringCall` is the flag while it is awaited. */
    method FetchSuggestions(menu: seq<MenuItem>, order: seq<MenuItem>,
                            invoke: SuggestionServer.SuggestionRequest -> InvokeResult)
      returns (notice: Notice, ghost loadingDuringCall: bool)
      modifies this
      ensures |menu| == 0 ==> suggestions == old(suggestions) && loading == old(loading) && notice == NoNotice
      ensures |menu| > 0 ==> loadingDuringCall && !loading
      ensures |menu| > 0 ==> suggestions == Outcome(menu, invoke(RequestBody(order, menu)))
      ensures |menu| > 0 ==> notice == match invoke(RequestBody(order, menu))
        case InvokeError(message) => ErrorNotice(message)
        case Returned(_) => NoNotice
    {
      notice, loadingDuringCall := NoNotice, false;
      if |menu| == 0 {
        return;
      }
      loading := true;
      loadingDuringCall := loading;
      var result := invoke(RequestBody(order, menu));
      match result {
        case InvokeError(message) =>
          notice := ErrorNotice(message);
          suggestions := FallbackSuggestions(menu);
        case Returned(data) =>
          if data.None? {
            suggestions := FallbackSuggestions(menu);
          } else {
            var list := if data.value.suggestions.Some? then data.value.suggestions.value else [];
            suggestions := seq(|list|, i requires 0 <= i < |list| => Served(list[i]));
          }
      }
      loading := false;
    }
  }

  /** End to end: after a fetch on a non-empty menu every suggestion the panel holds refers
      to a menu item, whatever the function answered. The fallback takes menu items, and a
      successful answer of the function (its response carried in the returned data) resolves
      picks against the body built from the menu. */
  lemma PanelItemsComeFromMenu(
    menu: seq<MenuItem>, order: seq<MenuItem>,
    apiKey: Option<string>,
    provider: (string, string) -> SuggestionServer.ProviderReply,
    parse: string -> SuggestionServer.Parsed,
    formatPrice: real -> string,
    result: InvokeResult, i: int)
    requires |menu| > 0
    requires var response := SuggestionServer.HandleRequest(apiKey, RequestBody(order, menu), provider, parse, formatPrice);
      result.Returned? ==> (response.body.SuggestionsBody?
        && result == Returned(Some(Payload(Some(response.body.suggestions)))))
    requires 0 <= i < |Outcome(menu, result)|
    ensures Outcome(menu, result)[i].Fallback? ==> Outcome(menu, result)[i].item == menu[i]
    ensures Outcome(menu, result)[i].Served? ==>
      exists k :: 0 <= k < |menu| && Outcome(menu, result)[i].suggestion.item == Summary(menu[k])
  {
    if result.Returned? {
      var body := RequestBody(order, menu);
      SuggestionServer.ResponseItemsAreFromCatalog(apiKey, body, provider, parse, formatPrice, i);
      var response := SuggestionServer.HandleRequest(apiKey, body, provider, parse, formatPrice);
      RequestBodyMirrorsMenu(order, menu, response.body.suggestions[i].item);
    }
  }
}
