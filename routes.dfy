/** The HTTP routes of dockyard_app/app/routes.py over the template cache and the
    installer: the cards of the index page, the JSON listing and the validation
    chain of the install endpoint. A request body is reduced to its decoded JSON
    value and a reply to a status code with a JSON body; an exception a route does
    not catch becomes `Unhandled`, which Flask answers with status 500. */
module Routes {
  import opened Wrappers
  import opened PyText
  import opened PyJson
  import opened Folds
  import opened TemplateManager
  import opened DockerManager

  datatype Response = Response(status: int, body: Json) | Unhandled(error: string)

  // ================================================================ index (lines 6-25)

  /** What the index page shows of one template (lines 17-23). */
  datatype Card = Card(id: string, title: string, description: Json, logo: Json, kind: Json)

  const NoDescription := "No description available."

  /** Line 16: a template is shown when its title is truthy (always so for a cached
      template) and its `type` equals 1 or 2; `True` equals 1. */
  predicate Listed(t: Json)
    requires HasValidTitle(t)
  {
    var kind := Get(t.fields, "type");
    EqualsInt(kind, 1) || EqualsInt(kind, 2)
  }

  function CardOf(t: Json): (c: Card)
    requires HasValidTitle(t)
  {
    Card(DisplayId(TitleOf(t)), TitleOf(t),
         GetOr(t.fields, "description", JStr(NoDescription)),
         GetOr(t.fields, "logo", JStr("")),
         Get(t.fields, "type"))
  }

  function CardFor(t: Json): Option<Card> {
    if HasValidTitle(t) && Listed(t) then Some(CardOf(t)) else None
  }

  /** The cards of the index page for the cached templates `ts`. */
  function Cards(ts: seq<Json>): seq<Card>
    requires WellFormed(ts)
  {
    Somes(MapSeq(ts, CardFor))
  }

  /** The loop of lines 11-23. */
  method ProjectTemplates(ts: seq<Json>) returns (cards: seq<Card>)
    requires WellFormed(ts)
    ensures cards == Cards(ts)
  {
    cards := [];
    ghost var xs := MapSeq(ts, CardFor);
    if |ts| > 0 {
      for i := 0 to |ts|
        invariant cards == Somes(xs[..i])
      {
        assert xs[..i + 1][..i] == xs[..i];
        var t := ts[i];
        var kind := Get(t.fields, "type");
        var title := Get(t.fields, "title");
        if Truthy(title) && (EqualsInt(kind, 1) || EqualsInt(kind, 2)) {
          cards := cards + [Card(Lower(ReplaceChar(title.s, ' ', '_')), title.s,
                                 GetOr(t.fields, "description", JStr(NoDescription)),
                                 GetOr(t.fields, "logo", JStr("")), kind)];
        }
      }
      assert xs[..|ts|] == xs;
    }
  }

  /** One card per listed template, in catalog order, and no other card. */
  lemma CardsFromListed(ts: seq<Json>, c: Card)
    requires WellFormed(ts)
    ensures c in Cards(ts) <==> exists i :: 0 <= i < |ts| && Listed(ts[i]) && c == CardOf(ts[i])
    ensures |Cards(ts)| <= |ts|
    ensures |Cards(ts)| == |ts| <==> forall i :: 0 <= i < |ts| ==> Listed(ts[i])
  {
    var xs := MapSeq(ts, CardFor);
    SomesMembership(xs, c);
    SomesLength(xs);
    assert forall i :: 0 <= i < |ts| ==> (xs[i] == Some(c) <==> Listed(ts[i]) && c == CardOf(ts[i]));
  }

  /** Cards keep the order of the templates they come from. */
  lemma CardsAppend(a: seq<Json>, b: seq<Json>)
    requires WellFormed(a) && WellFormed(b)
    ensures WellFormed(a + b) && Cards(a + b) == Cards(a) + Cards(b)
  {
    assert WellFormed(a + b) by {
      forall i | 0 <= i < |a + b| ensures HasValidTitle((a + b)[i]) {
        if i < |a| { assert (a + b)[i] == a[i]; } else { assert (a + b)[i] == b[i - |a|]; }
      }
    }
    MapSeqAppend(a, b, CardFor);
    SomesAppend(MapSeq(a, CardFor), MapSeq(b, CardFor));
  }

  /** The id a card shows leads the install route to a template with that id, which
      is the card's own template unless an earlier one shares the id. */
  lemma CardIdResolves(ts: seq<Json>, i: nat)
    requires WellFormed(ts) && i < |ts|
    ensures var found := TemplateById(ts, JStr(CardOf(ts[i]).id));
            && found.Some? && DisplayId(TitleOf(found.value)) == CardOf(ts[i]).id
            && ((forall j :: 0 <= j < i ==> DisplayId(TitleOf(ts[j])) != CardOf(ts[i]).id) ==> found.value == ts[i])
  {
    var id := JStr(CardOf(ts[i]).id);
    assert MatchesId(ts[i], id);
    var k := IdIndex(ts, id);
    assert k.Some?;
    assert HasValidTitle(ts[k.value]);
  }

  /** `index()`: the lazy read of the cache, then the cards. A refresh that raises
      propagates out of the route. */
  method Index(cache: TemplateCache, userSources: seq<string>, config: string, responses: map<string, Json>)
    returns (r: Try<seq<Card>>)
    requires cache.Valid()
    modifies cache
    ensures cache.Valid()
    ensures LazyRead(old(cache.cached), old(cache.isUpdating), cache.cached, cache.isUpdating,
                     if r.Ok? then Ok(cache.cached) else Raise(r.message), Refresh(userSources, config, responses))
    ensures r.Ok? ==> r.value == Cards(cache.cached)
  {
    var templates := cache.GetAllTemplates(userSources, config, responses);
    if templates.Raise? {
      return Raise(templates.message);
    }
    var cards := ProjectTemplates(templates.value);
    return Ok(cards);
  }

  // ================================================================ listing (lines 27-35)

  const NoTemplatesBody := JObj([("error", JStr("No templates found in cache."))])

  /** Lines 31-35: 404 with an error object for an empty list, else the list itself. */
  function Listing(ts: seq<Json>): (r: Response)
    ensures r.Response? && (r.status == 404 <==> ts == []) && (r.status == 200 <==> ts != [])
    ensures ts != [] ==> r.body == JArr(ts)
    ensures ts == [] ==> r.body == NoTemplatesBody
  {
    if ts == [] then Response(404, NoTemplatesBody) else Response(200, JArr(ts))
  }

  /** `list_templates_json()`: an empty cache is refreshed first, so a 404 means the
      refresh also found nothing, or an update was already in progress. */
  method ListTemplatesJson(cache: TemplateCache, userSources: seq<string>, config: string,
                           responses: map<string, Json>) returns (r: Response)
    requires cache.Valid()
    modifies cache
    ensures cache.Valid()
    ensures LazyRead(old(cache.cached), old(cache.isUpdating), cache.cached, cache.isUpdating,
                     if r.Unhandled? then Raise(r.error) else Ok(cache.cached), Refresh(userSources, config, responses))
    ensures !r.Unhandled? ==> r == Listing(cache.cached)
  {
    var templates := cache.GetAllTemplates(userSources, config, responses);
    if templates.Raise? {
      return Unhandled(templates.message);
    }
    if templates.value == [] {
      return Response(404, NoTemplatesBody);
    }
    return Response(200, JArr(templates.value));
  }

  // ================================================================ install (lines 37-66)

  /** Where the validation chain stops: with a reply, or with the value to go on with. */
  datatype Gate = Reply(response: Response) | Proceed(value: Json)

  const MissingIdMessage := "Missing template_id in request."

  function Failure(status: int, message: string): Response {
    Response(status, JObj([("success", JBool(false)), ("message", JStr(message))]))
  }

  function Installed(success: bool, message: string): Response {
    Response(200, JObj([("success", JBool(success)), ("message", JStr(message))]))
  }

  /** `p in s` for strings: `p` occurs in `s` as a substring. */
  predicate IsSubstring(p: string, s: string) {
    |p| <= |s| && (s[..|p|] == p || IsSubstring(p, s[1..]))
  }

  /** Lines 40-44. `data` is the decoded body (None: no JSON body). A falsy body, or
      one without the key, is the 400. `in` and `[...]` work on whatever JSON value
      arrived: a list holding the string "template_id", or a string containing it,
      passes the membership test and then fails on indexing; `in` on a number or a
      boolean fails outright. */
  function RequestedId(data: Option<Json>): (g: Gate)
    ensures g.Proceed? <==> data.Some? && data.value.JObj? && Has(data.value.fields, "template_id")
    ensures g.Proceed? ==> g.value == Get(data.value.fields, "template_id")
    ensures g.Reply? && g.response.Response? ==> g.response == Failure(400, MissingIdMessage)
    ensures g.Reply? && g.response.Unhandled? <==>
              data.Some? && Truthy(data.value)
              && (data.value.JBool? || data.value.JNum?
                  || (data.value.JArr? && JStr("template_id") in data.value.items)
                  || (data.value.JStr? && IsSubstring("template_id", data.value.s)))
  {
    if data.None? || !Truthy(data.value) then Reply(Failure(400, MissingIdMessage))
    else
      match data.value
      case JObj(fields) =>
        if Has(fields, "template_id") then Proceed(Get(fields, "template_id")) else Reply(Failure(400, MissingIdMessage))
      case JArr(items) =>
        if JStr("template_id") in items then Reply(Unhandled("list indices must be integers or slices, not str"))
        else Reply(Failure(400, MissingIdMessage))
      case JStr(s) =>
        if IsSubstring("template_id", s) then Reply(Unhandled("string indices must be integers, not 'str'"))
        else Reply(Failure(400, MissingIdMessage))
      case JNum(_) => Reply(Unhandled("argument of type 'int' is not iterable"))
      case JBool(_) => Reply(Unhandled("argument of type 'bool' is not iterable"))
      case JNull => Reply(Failure(400, MissingIdMessage))
  }

  /** Lines 50-56, on the result of the lookup: 404 without a template, 400 unless
      its `type` equals 2, else go on with the template. */
  function CheckTemplate(id: Json, found: Option<Json>): (g: Gate)
    requires found.Some? ==> HasValidTitle(found.value)
    ensures found.None? ==> g == Reply(Failure(404, "Template '" + Str(id) + "' not found."))
    ensures g.Proceed? <==> found.Some? && EqualsInt(Get(found.value.fields, "type"), 2)
    ensures g.Proceed? ==> g.value == found.value
    ensures found.Some? && !g.Proceed? ==>
              g == Reply(Failure(400, "Installation for this template type ("
                                      + Str(Get(found.value.fields, "type")) + ") is not yet supported."))
  {
    if found.None? then Reply(Failure(404, "Template '" + Str(id) + "' not found."))
    else
      var kind := Get(found.value.fields, "type");
      if !EqualsInt(kind, 2) then
        Reply(Failure(400, "Installation for this template type (" + Str(kind) + ") is not yet supported."))
      else Proceed(found.value)
  }

  /** `install_app_route()`. The cache is not consulted, and the runtime not touched,
      until the body names a template; the runtime is not touched until the template
      is found and has type 2; the installer's verdict is then returned with status
      200 whether or not it succeeded. */
  method InstallAppRoute(cache: TemplateCache, client: Runtime?, data: Option<Json>,
                         userSources: seq<string>, config: string, responses: map<string, Json>)
    returns (r: Response)
    requires cache.Valid()
    modifies cache, client
    ensures cache.Valid()
    ensures RequestedId(data).Reply? ==>
              r == RequestedId(data).response && unchanged(cache) && (client != null ==> unchanged(client))
    ensures RequestedId(data).Proceed? ==>
              LazyRead(old(cache.cached), old(cache.isUpdating), cache.cached, cache.isUpdating,
                       if r.Unhandled? then Raise(r.error) else Ok(cache.cached),
                       Refresh(userSources, config, responses))
    ensures RequestedId(data).Proceed? && !r.Unhandled? ==>
              var id := RequestedId(data).value;
              match CheckTemplate(id, TemplateById(cache.cached, id))
              case Reply(reply) => r == reply && (client != null ==> unchanged(client))
              case Proceed(t) =>
                if client == null then r == Installed(false, NoClientMessage)
                else
                  var o := InstallOutcome(t.fields, old(client.containers), client.pullFault, client.runFault);
                  && r == Installed(o.success, o.message) && client.calls == old(client.calls) + o.calls
                  && client.containers == if Creates(o, client.failedRunLeavesContainer)
                                          then old(client.containers) + {ContainerName(t.fields).value}
                                          else old(client.containers)
    ensures RequestedId(data).Proceed? && r.Unhandled? ==> client != null ==> unchanged(client)
  {
    var gate := RequestedId(data);
    if gate.Reply? {
      return gate.response;
    }
    var id := gate.value;
    var found := cache.GetTemplateById(id, userSources, config, responses);
    if found.Raise? {
      return Unhandled(found.message);
    }
    var check := CheckTemplate(id, found.value);
    if check.Reply? {
      return check.response;
    }
    var success, message := Install(client, check.value.fields);
    return Installed(success, message);
  }
}
