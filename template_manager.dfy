/** The template cache of dockyard_app/app/template_manager.py: the shape check
    applied to each fetched document, the resolution of source URLs, the merge
    that keeps the first template of every normalized title, and the module state
    `_cached_templates` / `_is_updating` with its single-flight guard, lazy first
    population and lookup by id. */
module TemplateManager {
  import opened Wrappers
  import opened PyText
  import opened PyJson
  import opened Folds

  // ================================================================ fetching

  /** The templates a decoded source document carries (lines 17-23): the document
      itself when it is a list, its `templates` entry when that is a list, and
      nothing for any other shape. */
  function TemplatesIn(data: Json): seq<Json> {
    if data.JArr? then data.items
    else if data.JObj? && Has(data.fields, "templates") && Get(data.fields, "templates").JArr? then
      Get(data.fields, "templates").items
    else []
  }

  lemma TemplatesInShapes(data: Json)
    ensures data.JArr? ==> TemplatesIn(data) == data.items
    ensures data.JObj? && Lookup(data.fields, "templates").Some? && Lookup(data.fields, "templates").value.JArr? ==>
              TemplatesIn(data) == Lookup(data.fields, "templates").value.items
    ensures data.JObj? && Lookup(data.fields, "templates").Some? && !Lookup(data.fields, "templates").value.JArr? ==>
              TemplatesIn(data) == []
    ensures data.JObj? && Lookup(data.fields, "templates").None? ==> TemplatesIn(data) == []
    ensures !data.JArr? && !data.JObj? ==> TemplatesIn(data) == []
  {
  }

  /** `fetch_templates_from_url(url)`. `responses` maps each URL that answered with a
      2xx status and decodable JSON to the decoded body; a URL it lacks stands for a
      network error, a timeout, a bad status or undecodable JSON, all of which give
      the empty list. */
  function FetchTemplatesFromUrl(responses: map<string, Json>, url: string): seq<Json> {
    if url in responses then TemplatesIn(responses[url]) else []
  }

  // ================================================================ sources

  function StrippedPieces(ps: seq<string>): (r: seq<string>)
    ensures forall i :: 0 <= i < |r| ==> r[i] != "" && IsStripped(r[i])
  {
    if ps == [] then []
    else
      var p := Strip(ps[0]);
      (if p != "" then [p] else []) + StrippedPieces(ps[1..])
  }

  lemma {:induction false} StrippedPiecesClean(ps: seq<string>, c: char)
    requires forall i :: 0 <= i < |ps| ==> c !in ps[i]
    ensures forall i :: 0 <= i < |StrippedPieces(ps)| ==> c !in StrippedPieces(ps)[i]
  {
    if ps != [] {
      StrippedPiecesClean(ps[1..], c);
      StripKeepsOut(ps[0], c);
    }
  }

  /** A value is kept exactly when it is a non-empty stripped piece. */
  lemma {:induction false} StrippedPiecesMembership(ps: seq<string>, x: string)
    ensures x in StrippedPieces(ps) <==> x != "" && exists k :: 0 <= k < |ps| && Strip(ps[k]) == x
  {
    if ps != [] {
      StrippedPiecesMembership(ps[1..], x);
      if exists k :: 0 <= k < |ps| && Strip(ps[k]) == x {
        var k :| 0 <= k < |ps| && Strip(ps[k]) == x;
        if k > 0 { assert ps[1..][k - 1] == ps[k]; }
      }
      if exists k :: 0 <= k < |ps| - 1 && Strip(ps[1..][k]) == x {
        var k :| 0 <= k < |ps| - 1 && Strip(ps[1..][k]) == x;
        assert ps[k + 1] == ps[1..][k];
      }
    }
  }

  /** The pieces are kept in input order. */
  lemma {:induction false} StrippedPiecesAppend(a: seq<string>, b: seq<string>)
    ensures StrippedPieces(a + b) == StrippedPieces(a) + StrippedPieces(b)
  {
    if a == [] {
      assert a + b == b;
    } else {
      assert (a + b)[0] == a[0] && (a + b)[1..] == a[1..] + b;
      StrippedPiecesAppend(a[1..], b);
    }
  }

  /** The fallback sources (line 66): the configuration string split on ',', each
      piece stripped, empty pieces dropped. */
  function ConfigSources(config: string): (r: seq<string>)
    ensures forall i :: 0 <= i < |r| ==> r[i] != "" && IsStripped(r[i]) && ',' !in r[i]
  {
    SplitPiecesClean(config, ',');
    StrippedPiecesClean(Split(config, ','), ',');
    StrippedPieces(Split(config, ','))
  }

  lemma {:induction false} StrippedPiecesOfClean(ps: seq<string>)
    requires forall i :: 0 <= i < |ps| ==> ps[i] != "" && IsStripped(ps[i])
    ensures StrippedPieces(ps) == ps
  {
    if ps != [] {
      StripStripped(ps[0]);
      StrippedPiecesOfClean(ps[1..]);
      assert [ps[0]] + ps[1..] == ps;
    }
  }

  /** A configuration string written as comma-separated pieces gives the stripped
      non-empty pieces, in order: `" a , ,b"` gives `["a", "b"]`. */
  lemma ConfigSourcesOfJoin(ps: seq<string>)
    requires |ps| >= 1
    requires forall i :: 0 <= i < |ps| ==> ',' !in ps[i]
    ensures ConfigSources(Join(ps, ',')) == StrippedPieces(ps)
  {
    JoinSplit(ps, ',');
  }

  lemma ConfigSourcesExample()
    ensures ConfigSources(" a , ,b") == ["a", "b"]
  {
    var ps := [" a ", " ", "b"];
    ConfigExampleJoin();
    ConfigSourcesOfJoin(ps);
    ConfigExamplePieces();
  }

  lemma ConfigExampleJoin()
    ensures Join([" a ", " ", "b"], ',') == " a , ,b"
  {
  }

  lemma ConfigExamplePieces()
    ensures StrippedPieces([" a ", " ", "b"]) == ["a", "b"]
  {
    var ps := [" a ", " ", "b"];
    assert Strip(" a ") == "a" by { assert " a "[1..] == "a "; assert "a "[..1] == "a"; }
    assert Strip(" ") == "" by { assert " "[1..] == ""; }
    assert Strip("b") == "b";
    assert ps[1..] == [" ", "b"] && ps[1..][1..] == ["b"] && ["b"][1..] == [];
  }

  /** Writing a list of clean URLs into the configuration string, comma-separated,
      gives back exactly that list. */
  lemma {:induction false} ConfigSourcesJoin(urls: seq<string>)
    requires forall i :: 0 <= i < |urls| ==> urls[i] != "" && IsStripped(urls[i]) && ',' !in urls[i]
    ensures ConfigSources(Join(urls, ',')) == urls
  {
    if urls == [] {
      assert Split("", ',') == [""];
      assert Strip("") == "";
    } else {
      JoinSplit(urls, ',');
      StrippedPiecesOfClean(urls);
    }
  }

  /** Lines 58-66: a non-empty user list is used verbatim (not trimmed, empty entries
      kept); otherwise the configuration string supplies the sources. */
  function ResolveSources(userSources: seq<string>, config: string): (r: seq<string>)
    ensures userSources != [] ==> r == userSources
    ensures userSources == [] ==> forall i :: 0 <= i < |r| ==> r[i] != "" && IsStripped(r[i]) && ',' !in r[i]
  {
    if |userSources| > 0 then userSources else ConfigSources(config)
  }

  // ================================================================ titles and the merge

  /** Lines 88-89: a dict whose `title` is a non-empty string. */
  predicate HasValidTitle(t: Json) {
    t.JObj? && Get(t.fields, "title").JStr? && Get(t.fields, "title").s != ""
  }

  function TitleOf(t: Json): string
    requires HasValidTitle(t)
  {
    Get(t.fields, "title").s
  }

  /** `title.lower().strip()` (line 93), the key of the de-duplication. */
  function NormalizedTitle(t: Json): string
    requires HasValidTitle(t)
  {
    Strip(Lower(TitleOf(t)))
  }

  /** The merge key of a template: its normalized title, or None for a template
      the merge skips. */
  function TitleKey(t: Json): Option<string> {
    if HasValidTitle(t) then Some(NormalizedTitle(t)) else None
  }

  predicate WellFormed(ts: seq<Json>) {
    forall i :: 0 <= i < |ts| ==> HasValidTitle(ts[i])
  }

  predicate NoDuplicateTitles(ts: seq<Json>)
    requires WellFormed(ts)
  {
    forall i, j :: 0 <= i < j < |ts| ==> NormalizedTitle(ts[i]) != NormalizedTitle(ts[j])
  }

  /** What the cache may hold: dicts with non-empty string titles, no two of them
      with the same normalized title. */
  predicate Catalog(ts: seq<Json>) {
    WellFormed(ts) && NoDuplicateTitles(ts)
  }

  /** `processed_titles` after a run over `ts`. */
  function Titles(ts: seq<Json>): set<string> {
    Keys(ts, TitleKey)
  }

  /** `new_templates_data` after a run over `ts` (lines 87-100). */
  function Dedup(ts: seq<Json>): seq<Json> {
    DedupBy(ts, TitleKey)
  }

  /** The merge yields a catalog, and every normalized title met in the input is
      represented in it. */
  lemma DedupCatalog(ts: seq<Json>)
    ensures Catalog(Dedup(ts))
    ensures Titles(Dedup(ts)) == Titles(ts)
  {
    DedupByDistinct(ts, TitleKey);
    var d := Dedup(ts);
    assert WellFormed(d) by {
      forall i | 0 <= i < |d| ensures HasValidTitle(d[i]) { assert TitleKey(d[i]).Some?; }
    }
    forall i, j | 0 <= i < j < |d| ensures NormalizedTitle(d[i]) != NormalizedTitle(d[j]) {
      assert TitleKey(d[i]) != TitleKey(d[j]);
    }
  }

  // ================================================================ refresh

  /** The template lists of the sources, in source order. */
  function FetchAll(responses: map<string, Json>, sources: seq<string>): (r: seq<seq<Json>>)
    ensures |r| == |sources|
    ensures forall i :: 0 <= i < |sources| ==> r[i] == FetchTemplatesFromUrl(responses, sources[i])
  {
    seq(|sources|, i requires 0 <= i < |sources| => FetchTemplatesFromUrl(responses, sources[i]))
  }

  /** Fetching a longer source list fetches the extra sources after the others. */
  lemma FetchAllAppend(responses: map<string, Json>, a: seq<string>, b: seq<string>)
    ensures FetchAll(responses, a + b) == FetchAll(responses, a) + FetchAll(responses, b)
  {
  }

  function Concat(lists: seq<seq<Json>>): seq<Json> {
    if lists == [] then [] else Concat(lists[..|lists| - 1]) + lists[|lists| - 1]
  }

  lemma {:induction false} ConcatAppend(a: seq<seq<Json>>, b: seq<seq<Json>>)
    ensures Concat(a + b) == Concat(a) + Concat(b)
  {
    if b == [] {
      assert a + b == a;
    } else {
      var b' := b[..|b| - 1];
      ConcatAppend(a, b');
      assert (a + b)[..|a + b| - 1] == a + b';
    }
  }

  lemma {:induction false} ConcatSingle(x: seq<Json>)
    ensures Concat([x]) == x
  {
    assert [x][..0] == [];
  }

  lemma {:induction false} ConcatAround(lists: seq<seq<Json>>, u: nat)
    requires u < |lists|
    ensures Concat(lists) == Concat(lists[..u]) + lists[u] + Concat(lists[u + 1..])
    ensures Concat(lists[..u + 1]) == Concat(lists[..u]) + lists[u]
  {
    var left := lists[..u] + [lists[u]];
    assert lists[..u + 1] == left;
    assert lists == left + lists[u + 1..];
    ConcatSingle(lists[u]);
    ConcatAppend(lists[..u], [lists[u]]);
    ConcatAppend(left, lists[u + 1..]);
  }

  predicate AllDicts(ts: seq<Json>) {
    forall i :: 0 <= i < |ts| ==> ts[i].JObj?
  }

  /** The first element that is not a dict: the one the merge would call `.get` on
      and fail. */
  function FirstNonDict(ts: seq<Json>): (r: Option<Json>)
    ensures r.None? <==> AllDicts(ts)
  {
    if ts == [] then None
    else if !ts[0].JObj? then Some(ts[0])
    else
      var r := FirstNonDict(ts[1..]);
      assert AllDicts(ts[1..]) ==> AllDicts(ts) by {
        if AllDicts(ts[1..]) {
          forall i | 0 <= i < |ts| ensures ts[i].JObj? { if i > 0 { assert ts[i] == ts[1..][i - 1]; } }
        }
      }
      r
  }

  lemma {:induction false} FirstNonDictAt(p: seq<Json>, x: Json, q: seq<Json>)
    requires AllDicts(p) && !x.JObj?
    ensures FirstNonDict(p + [x] + q) == Some(x)
  {
    if p != [] {
      assert (p + [x] + q)[1..] == p[1..] + [x] + q;
      FirstNonDictAt(p[1..], x, q);
    }
  }

  /** The offending element of a concatenation lies in its first part when that
      part has one. */
  lemma {:induction false} FirstNonDictAppend(p: seq<Json>, q: seq<Json>)
    ensures FirstNonDict(p + q) == if FirstNonDict(p).Some? then FirstNonDict(p) else FirstNonDict(q)
  {
    if p == [] {
      assert p + q == q;
    } else {
      assert (p + q)[0] == p[0] && (p + q)[1..] == p[1..] + q;
      FirstNonDictAppend(p[1..], q);
    }
  }

  /** One iteration of the inner loop (lines 87-100) on a dict: kept, and its title
      remembered, when its title is a non-empty string not seen before. */
  method MergeTemplate(ghost done: seq<Json>, template: Json, data: seq<Json>, seen: set<string>)
    returns (data': seq<Json>, seen': set<string>)
    requires template.JObj? && data == Dedup(done) && seen == Titles(done)
    ensures data' == Dedup(done + [template]) && seen' == Titles(done + [template])
  {
    DedupBySnoc(done, template, TitleKey);
    data', seen' := data, seen;
    var title := Get(template.fields, "title");
    if !Truthy(title) || !title.JStr? {
      assert TitleKey(template).None?;
      return;
    }
    var normalized := Strip(Lower(title.s));
    assert TitleKey(template) == Some(normalized);
    if normalized !in seen {
      data' := data + [template];
      seen' := seen + {normalized};
    }
  }

  /** The inner loop of lines 86-100 over the templates of one source: extends the
      merged list and the set of seen titles, or stops at the first template that is
      not a dict, where `template.get` raises. */
  method MergeSource(ghost done: seq<Json>, batch: seq<Json>, data: seq<Json>, seen: set<string>)
    returns (data': seq<Json>, seen': set<string>, offending: Option<Json>)
    requires data == Dedup(done) && seen == Titles(done)
    ensures offending == FirstNonDict(batch)
    ensures offending.None? ==> data' == Dedup(done + batch) && seen' == Titles(done + batch)
  {
    data', seen' := data, seen;
    assert done + batch[..0] == done;
    for k := 0 to |batch|
      invariant AllDicts(batch[..k])
      invariant data' == Dedup(done + batch[..k])
      invariant seen' == Titles(done + batch[..k])
    {
      var template := batch[k];
      if !template.JObj? {
        FirstNonDictOfPrefix(batch, k);
        return data', seen', Some(template);
      }
      AllDictsSnoc(batch, k);
      TakeSnoc(done, batch, k);
      data', seen' := MergeTemplate(done + batch[..k], template, data', seen');
    }
    assert batch[..|batch|] == batch;
    offending := None;
  }

  lemma FirstNonDictOfPrefix(batch: seq<Json>, k: nat)
    requires k < |batch| && AllDicts(batch[..k]) && !batch[k].JObj?
    ensures FirstNonDict(batch) == Some(batch[k])
  {
    assert batch == batch[..k] + [batch[k]] + batch[k + 1..];
    FirstNonDictAt(batch[..k], batch[k], batch[k + 1..]);
  }

  lemma AllDictsSnoc(batch: seq<Json>, k: nat)
    requires k < |batch| && AllDicts(batch[..k]) && batch[k].JObj?
    ensures AllDicts(batch[..k + 1])
  {
    assert forall i :: 0 <= i < k + 1 ==> batch[..k + 1][i] == batch[i];
  }

  /** What one completed run of `update_cached_templates` publishes: an empty list
      when no source is configured (stale data is cleared), the merge of all fetched
      lists otherwise; or the AttributeError raised by the first fetched element
      that is not a dict. */
  function Refresh(userSources: seq<string>, config: string, responses: map<string, Json>): Try<seq<Json>> {
    var sources := ResolveSources(userSources, config);
    if sources == [] then Ok([])
    else
      var all := Concat(FetchAll(responses, sources));
      match FirstNonDict(all)
      case Some(x) => Raise(NoAttribute(x, "get"))
      case None => Ok(Dedup(all))
  }

  /** A refresh that completes publishes a catalog holding exactly the first
      template of every normalized title among all fetched templates, in source
      order, then within-source order. */
  lemma RefreshPublishesCatalog(userSources: seq<string>, config: string, responses: map<string, Json>)
    requires Refresh(userSources, config, responses).Ok?
    ensures Catalog(Refresh(userSources, config, responses).value)
    ensures ResolveSources(userSources, config) != [] ==>
              var all := Concat(FetchAll(responses, ResolveSources(userSources, config)));
              Refresh(userSources, config, responses).value == FirstsBy(all, TitleKey, |all|)
  {
    var all := Concat(FetchAll(responses, ResolveSources(userSources, config)));
    DedupCatalog(all);
    DedupByIsFirsts(all, TitleKey, |all|);
    assert all[..|all|] == all;
    assert Catalog([]);
  }

  // ================================================================ lookup by id

  /** `title.replace(' ', '_').lower()` (line 130). */
  function DisplayId(title: string): string {
    Lower(ReplaceChar(title, ' ', '_'))
  }

  predicate MatchesId(t: Json, id: Json)
    requires HasValidTitle(t)
  {
    id == JStr(DisplayId(TitleOf(t)))
  }

  /** Position of the first template whose id equals `id`. */
  function IdIndex(ts: seq<Json>, id: Json): (r: Option<nat>)
    requires WellFormed(ts)
    ensures r.Some? ==> r.value < |ts| && MatchesId(ts[r.value], id)
                        && forall j :: 0 <= j < r.value ==> !MatchesId(ts[j], id)
    ensures r.None? ==> forall j :: 0 <= j < |ts| ==> !MatchesId(ts[j], id)
  {
    if ts == [] then None
    else if MatchesId(ts[0], id) then Some(0)
    else
      assert WellFormed(ts[1..]) by {
        forall i | 0 <= i < |ts[1..]| ensures HasValidTitle(ts[1..][i]) { assert ts[1..][i] == ts[i + 1]; }
      }
      match IdIndex(ts[1..], id)
      case None => None
      case Some(i) => Some(i + 1)
  }

  /** What `get_template_by_id` returns for the templates `ts`. */
  function TemplateById(ts: seq<Json>, id: Json): Option<Json>
    requires WellFormed(ts)
  {
    match IdIndex(ts, id)
    case Some(i) => Some(ts[i])
    case None => None
  }

  lemma ShadowingKeys(first: Json, second: Json)
    requires first == JObj([("title", JStr("A b"))]) && second == JObj([("title", JStr("a_b"))])
    ensures HasValidTitle(first) && NormalizedTitle(first) == "a b"
    ensures HasValidTitle(second) && NormalizedTitle(second) == "a_b"
    ensures TitleKey(first) == Some("a b") && TitleKey(second) == Some("a_b")
    ensures MatchesId(first, JStr("a_b"))
  {
    assert Get(first.fields, "title") == JStr("A b");
    assert Get(second.fields, "title") == JStr("a_b");
    assert Lower("A b") == "a b";
    assert Lower("a_b") == "a_b";
    StripStripped("a b");
    StripStripped("a_b");
    assert ReplaceChar("A b", ' ', '_') == "A_b";
    assert Lower("A_b") == "a_b";
  }

  /** Ids are not unique in a catalog: "A b" and "a_b" are different normalized
      titles, so the merge keeps both, yet both give the id "a_b", and a lookup of
      that id can only ever return the first. */
  lemma IdShadowing()
    ensures var first, second := JObj([("title", JStr("A b"))]), JObj([("title", JStr("a_b"))]);
            && Dedup([first, second]) == [first, second]
            && Catalog([first, second])
            && TemplateById([first, second], JStr("a_b")) == Some(first)
  {
    var first, second := JObj([("title", JStr("A b"))]), JObj([("title", JStr("a_b"))]);
    ShadowingKeys(first, second);
    ShadowingMerge(first, second);
    ShadowingCatalog(first, second);
  }

  lemma ShadowingMerge(first: Json, second: Json)
    requires TitleKey(first) == Some("a b") && TitleKey(second) == Some("a_b")
    ensures Dedup([first, second]) == [first, second]
  {
    assert "a b" != "a_b" by { assert "a b"[1] != "a_b"[1]; }
    DedupBySnoc([], first, TitleKey);
    assert [] + [first] == [first];
    assert Keys([], TitleKey) == {} && DedupBy([], TitleKey) == [];
    DedupBySnoc([first], second, TitleKey);
    assert [first] + [second] == [first, second];
  }

  lemma ShadowingCatalog(first: Json, second: Json)
    requires HasValidTitle(first) && NormalizedTitle(first) == "a b"
    requires HasValidTitle(second) && NormalizedTitle(second) == "a_b"
    ensures Catalog([first, second])
  {
    assert "a b" != "a_b" by { assert "a b"[1] != "a_b"[1]; }
    var ts := [first, second];
    assert WellFormed(ts) by { assert ts[0] == first && ts[1] == second; }
    assert NoDuplicateTitles(ts) by { assert ts[0] == first && ts[1] == second; }
  }

  /** The linear scan of lines 127-133: the first template whose id matches. */
  method FindById(ts: seq<Json>, id: Json) returns (r: Option<Json>)
    requires WellFormed(ts)
    ensures r == TemplateById(ts, id)
  {
    for i := 0 to |ts|
      invariant forall j :: 0 <= j < i ==> !MatchesId(ts[j], id)
    {
      var t := ts[i];
      var title := GetOr(t.fields, "title", JStr(""));
      var currentId := Lower(ReplaceChar(title.s, ' ', '_'));
      if JStr(currentId) == id {
        return Some(t);
      }
    }
    return None;
  }

  // ================================================================ the cache

  /** How a read through `get_all_templates` takes the cache from (`cached0`,
      `updating0`) to (`cached1`, `updating1`), and what it returns (`read`), where
      `refresh` is what a refresh started at that moment would give. */
  predicate LazyRead(cached0: seq<Json>, updating0: bool, cached1: seq<Json>, updating1: bool,
                     read: Try<seq<Json>>, refresh: Try<seq<Json>>) {
    if cached0 != [] || updating0 then
      read == Ok(cached0) && cached1 == cached0 && updating1 == updating0
    else
      match refresh
      case Ok(c) => read == Ok(c) && cached1 == c && !updating1
      case Raise(e) => read == Raise(e) && cached1 == [] && updating1
  }

  /** How a call of `update_cached_templates` ended. */
  datatype UpdateOutcome = Skipped | Completed | Raised(message: string)

  /** The module state of lines 7-8. */
  class TemplateCache {
    var cached: seq<Json>
    var isUpdating: bool

    ghost predicate Valid()
      reads this
    {
      Catalog(cached)
    }

    constructor ()
      ensures Valid() && cached == [] && !isUpdating
    {
      cached := [];
      isUpdating := false;
    }

    /** `update_cached_templates()`: a no-op while an update is marked in progress;
        otherwise the new list is built aside and published in one assignment. On an
        exception the flag stays set and the old list stays published. */
    method UpdateCachedTemplates(userSources: seq<string>, config: string, responses: map<string, Json>)
      returns (outcome: UpdateOutcome)
      requires Valid()
      modifies this
      ensures Valid()
      ensures old(isUpdating) ==> outcome == Skipped && cached == old(cached) && isUpdating
      ensures !old(isUpdating) ==>
                match Refresh(userSources, config, responses)
                case Ok(c) => outcome == Completed && cached == c && !isUpdating
                case Raise(e) => outcome == Raised(e) && cached == old(cached) && isUpdating
    {
      if isUpdating {
        return Skipped;
      }
      isUpdating := true;
      var sources := ResolveSources(userSources, config);
      if |sources| == 0 {
        cached := [];
        isUpdating := false;
        assert Catalog([]);
        return Completed;
      }
      ghost var lists := FetchAll(responses, sources);
      var newData: seq<Json> := [];
      var processed: set<string> := {};
      for u := 0 to |sources|
        invariant isUpdating && cached == old(cached)
        invariant FirstNonDict(Concat(lists[..u])).None?
        invariant newData == Dedup(Concat(lists[..u]))
        invariant processed == Titles(Concat(lists[..u]))
      {
        var batch := FetchTemplatesFromUrl(responses, sources[u]);
        ghost var done := Concat(lists[..u]);
        ConcatAround(lists, u);
        var offending;
        newData, processed, offending := MergeSource(done, batch, newData, processed);
        FirstNonDictAppend(done, batch);
        if offending.Some? {
          FirstNonDictAppend(done + batch, Concat(lists[u + 1..]));
          return Raised(NoAttribute(offending.value, "get"));
        }
      }
      assert lists[..|sources|] == lists;
      DedupCatalog(Concat(lists));
      cached := newData;
      isUpdating := false;
      return Completed;
    }

    /** `get_all_templates()`: refreshes first only when the cache is empty and no
        update is in progress. An empty catalog is indistinguishable from the initial
        state, so every read of an empty cache refreshes again. */
    method GetAllTemplates(userSources: seq<string>, config: string, responses: map<string, Json>)
      returns (r: Try<seq<Json>>)
      requires Valid()
      modifies this
      ensures Valid()
      ensures LazyRead(old(cached), old(isUpdating), cached, isUpdating, r, Refresh(userSources, config, responses))
    {
      if cached == [] && !isUpdating {
        var outcome := UpdateCachedTemplates(userSources, config, responses);
        if outcome.Raised? {
          return Raise(outcome.message);
        }
      }
      return Ok(cached);
    }

    /** `get_template_by_id(id)`: the lazy read, then the scan. */
    method GetTemplateById(id: Json, userSources: seq<string>, config: string, responses: map<string, Json>)
      returns (r: Try<Option<Json>>)
      requires Valid()
      modifies this
      ensures Valid()
      ensures LazyRead(old(cached), old(isUpdating), cached, isUpdating,
                       if r.Ok? then Ok(cached) else Raise(r.message), Refresh(userSources, config, responses))
      ensures r.Ok? ==> r.value == TemplateById(cached, id)
    {
      var all := GetAllTemplates(userSources, config, responses);
      if all.Raise? {
        return Raise(all.message);
      }
      var found := FindById(all.value, id);
      return Ok(found);
    }
  }
}
