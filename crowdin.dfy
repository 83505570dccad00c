/**
 * The Crowdin client's decision logic: turning the project listing into
 * name-indexed maps, and paging through a language's translations to
 * collect its translators and translation ids.
 */
module Crowdin {
  import opened Optional
  import opened Sorting
  import opened Text

  /** One entry of `list_projects()['data']`: its name, id and target languages. */
  datatype ProjectRecord = ProjectRecord(name: string, id: int, targetLanguageIds: seq<string>)

  /** One entry of a translations page: the translator's username and the translation id. */
  datatype Translation = Translation(username: string, translationId: int)

  /**
   * `list_language_translations(lang, project_id, limit, offset)['data']`,
   * the remote call, seen as a function of its arguments.
   */
  type PageFetch = (string, int, nat, nat) -> seq<Translation>

  /** The page size the client asks for. */
  const Limit: nat := 500

  /** What `get_translators` records for one language. */
  datatype LanguageTranslators = LanguageTranslators(
    translators: Option<seq<string>>,  // the 'translators' key, present only when someone translated
    translationIds: seq<int>)          // the 'translation_ids' key

  /** The names in the listing. */
  function ProjectNames(listing: seq<ProjectRecord>): set<string> {
    set p | p in listing :: p.name
  }

  /** The position of the last project called `name`: the one whose entry a dict keyed by name keeps. */
  function LastIndex(listing: seq<ProjectRecord>, name: string): (i: nat)
    requires name in ProjectNames(listing)
    ensures i < |listing| && listing[i].name == name
    ensures forall j :: i < j < |listing| ==> listing[j].name != name
  {
    var last := |listing| - 1;
    if listing[last].name == name then last
    else
      assert listing == listing[..last] + [listing[last]];
      assert name in ProjectNames(listing[..last]);
      LastIndex(listing[..last], name)
  }

  lemma LastIndexOfPrefix(listing: seq<ProjectRecord>, i: nat, name: string)
    requires i < |listing| && name in ProjectNames(listing[..i + 1])
    ensures LastIndex(listing[..i + 1], name)
         == if listing[i].name == name then i else LastIndex(listing[..i], name)
  {
  }

  lemma ProjectNamesOfPrefix(listing: seq<ProjectRecord>, i: nat)
    requires i < |listing|
    ensures ProjectNames(listing[..i + 1]) == ProjectNames(listing[..i]) + {listing[i].name}
  {
  }

  /** `get_projects`: project name to project id; a later project of the same name wins. */
  method GetProjects(listing: seq<ProjectRecord>) returns (result: map<string, int>)
    ensures result.Keys == ProjectNames(listing)
    ensures forall name :: name in result ==> result[name] == listing[LastIndex(listing, name)].id
  {
    result := map[];
    for i := 0 to |listing|
      invariant result.Keys == ProjectNames(listing[..i])
      invariant forall name :: name in result ==> result[name] == listing[LastIndex(listing[..i], name)].id
    {
      ProjectNamesOfPrefix(listing, i);
      forall name | name in ProjectNames(listing[..i + 1]) {
        LastIndexOfPrefix(listing, i, name);
      }
      result := result[listing[i].name := listing[i].id];
    }
    assert listing[..|listing|] == listing;
  }

  /** `get_languages`: project name to its target language ids; a later project of the same name wins. */
  method GetLanguages(listing: seq<ProjectRecord>) returns (result: map<string, seq<string>>)
    ensures result.Keys == ProjectNames(listing)
    ensures forall name :: name in result ==> result[name] == listing[LastIndex(listing, name)].targetLanguageIds
  {
    result := map[];
    for i := 0 to |listing|
      invariant result.Keys == ProjectNames(listing[..i])
      invariant forall name :: name in result ==>
        result[name] == listing[LastIndex(listing[..i], name)].targetLanguageIds
    {
      ProjectNamesOfPrefix(listing, i);
      forall name | name in ProjectNames(listing[..i + 1]) {
        LastIndexOfPrefix(listing, i, name);
      }
      result := result[listing[i].name := listing[i].targetLanguageIds];
    }
    assert listing[..|listing|] == listing;
  }

  /** Page number `k` of a language's translations: the one at offset `k * Limit`. */
  function Page(fetch: PageFetch, lang: string, projectId: int, k: nat): seq<Translation> {
    fetch(lang, projectId, Limit, k * Limit)
  }

  /** Some page is empty, so the paging loop stops. */
  ghost predicate HasEmptyPage(fetch: PageFetch, lang: string, projectId: int) {
    exists n: nat :: Page(fetch, lang, projectId, n) == []
  }

  ghost function FirstEmptyFrom(fetch: PageFetch, lang: string, projectId: int, k: nat, bound: nat): (n: nat)
    requires k <= bound && Page(fetch, lang, projectId, bound) == []
    ensures k <= n <= bound && Page(fetch, lang, projectId, n) == []
    ensures forall j :: k <= j < n ==> Page(fetch, lang, projectId, j) != []
    decreases bound - k
  {
    if Page(fetch, lang, projectId, k) == [] then k
    else FirstEmptyFrom(fetch, lang, projectId, k + 1, bound)
  }

  /** The number of the first empty page. */
  ghost function FirstEmptyPage(fetch: PageFetch, lang: string, projectId: int): (n: nat)
    requires HasEmptyPage(fetch, lang, projectId)
    ensures Page(fetch, lang, projectId, n) == []
    ensures forall j :: 0 <= j < n ==> Page(fetch, lang, projectId, j) != []
  {
    var bound: nat :| Page(fetch, lang, projectId, bound) == [];
    FirstEmptyFrom(fetch, lang, projectId, 0, bound)
  }

  /** The translations on pages `0` to `k - 1`, in page order. */
  function Collected(fetch: PageFetch, lang: string, projectId: int, k: nat): seq<Translation> {
    if k == 0 then [] else Collected(fetch, lang, projectId, k - 1) + Page(fetch, lang, projectId, k - 1)
  }

  /** A translation is collected exactly when it is on one of the pages read, at offsets `0`, `Limit`, … */
  lemma {:induction false} CollectedMembers(fetch: PageFetch, lang: string, projectId: int, k: nat, t: Translation)
    ensures t in Collected(fetch, lang, projectId, k) <==>
      exists j :: 0 <= j < k && t in fetch(lang, projectId, Limit, j * Limit)
  {
    if k > 0 {
      CollectedMembers(fetch, lang, projectId, k - 1, t);
      assert t in Page(fetch, lang, projectId, k - 1) <==> t in fetch(lang, projectId, Limit, (k - 1) * Limit);
    }
  }

  /**
   * The entry for a language names a translator exactly when that user made
   * a translation on some page before the first empty one.
   */
  lemma LanguageSummaryTranslators(fetch: PageFetch, lang: string, projectId: int, u: string)
    requires HasEmptyPage(fetch, lang, projectId)
    ensures var r := LanguageSummary(fetch, lang, projectId);
      r.translators.Some? && u in r.translators.value <==>
        exists j, t :: 0 <= j < FirstEmptyPage(fetch, lang, projectId)
          && t in fetch(lang, projectId, Limit, j * Limit) && t.username == u
  {
    var n := FirstEmptyPage(fetch, lang, projectId);
    forall t: Translation | t.username == u {
      CollectedMembers(fetch, lang, projectId, n, t);
    }
  }

  function Usernames(items: seq<Translation>): set<string> {
    set t | t in items :: t.username
  }

  function TranslationIds(items: seq<Translation>): set<int> {
    set t | t in items :: t.translationId
  }

  /** `sorted` on a set of strings. */
  function SortedStrings(s: set<string>): (r: seq<string>)
    ensures StrictlySorted(r, StrLt)
    ensures forall x :: x in r <==> x in s
  {
    StrLtIsStrictTotalOrder();
    Sorted(s, StrLt)
  }

  /** `sorted` on a set of integers. */
  function SortedInts(s: set<int>): (r: seq<int>)
    ensures StrictlySorted(r, IntLt)
    ensures forall x :: x in r <==> x in s
  {
    IntLtIsStrictTotalOrder();
    Sorted(s, IntLt)
  }

  /**
   * The order in which `get_translators` visits projects and languages:
   * `sorted` of the names. The results are maps, so only the members of the
   * order matter to them.
   */
  method VisitOrder(names: set<string>) returns (order: seq<string>)
    ensures forall name :: name in order <==> name in names
    ensures StrictlySorted(order, StrLt)
  {
    order := SortedStrings(names);
  }

  lemma UsernamesAppend(a: seq<Translation>, b: seq<Translation>)
    ensures Usernames(a + b) == Usernames(a) + Usernames(b)
    ensures TranslationIds(a + b) == TranslationIds(a) + TranslationIds(b)
  {
  }

  /**
   * What is recorded once the pages run out: the sorted translators and
   * translation ids when anyone translated, otherwise only an empty id list.
   */
  function Entry(users: set<string>, translationIds: set<int>): (r: LanguageTranslators)
    ensures r.translators.Some? <==> users != {}
    ensures r.translators.Some? ==> StrictlySorted(r.translators.value, StrLt)
    ensures r.translators.Some? ==> forall u :: u in r.translators.value <==> u in users
    ensures StrictlySorted(r.translationIds, IntLt)
    ensures users != {} ==> forall id :: id in r.translationIds <==> id in translationIds
    ensures users == {} ==> r.translationIds == []
  {
    if users != {} then
      LanguageTranslators(Some(SortedStrings(users)), SortedInts(translationIds))
    else
      LanguageTranslators(None, [])
  }

  /**
   * The entry recorded for a language with these translations. Every
   * translation has a translator, so "nobody translated" means "no
   * translations" and the empty id list is the sorted list of ids.
   */
  function Summarize(items: seq<Translation>): (r: LanguageTranslators)
    ensures r.translators.Some? <==> items != []
    ensures r.translators.Some? ==> StrictlySorted(r.translators.value, StrLt)
    ensures r.translators.Some? ==>
      forall u :: u in r.translators.value <==> exists t :: t in items && t.username == u
    ensures StrictlySorted(r.translationIds, IntLt)
    ensures forall id :: id in r.translationIds <==> exists t :: t in items && t.translationId == id
  {
    assert items != [] ==> items[0].username in Usernames(items);
    Entry(Usernames(items), TranslationIds(items))
  }

  /** The entry for a language: the summary of everything before the first empty page. */
  ghost function LanguageSummary(fetch: PageFetch, lang: string, projectId: int): LanguageTranslators
    requires HasEmptyPage(fetch, lang, projectId)
  {
    Summarize(Collected(fetch, lang, projectId, FirstEmptyPage(fetch, lang, projectId)))
  }

  /** The inner loop of `get_translators`: add the usernames and ids of one page to the sets. */
  method AddPage(users: set<string>, translationIds: set<int>, data: seq<Translation>)
    returns (users': set<string>, translationIds': set<int>)
    ensures users' == users + Usernames(data)
    ensures translationIds' == translationIds + TranslationIds(data)
  {
    users', translationIds' := users, translationIds;
    for idx := 0 to |data|
      invariant users' == users + Usernames(data[..idx])
      invariant translationIds' == translationIds + TranslationIds(data[..idx])
    {
      UsernamesAppend(data[..idx], [data[idx]]);
      assert data[..idx + 1] == data[..idx] + [data[idx]];
      users' := users' + {data[idx].username};
      translationIds' := translationIds' + {data[idx].translationId};
    }
    assert data[..|data|] == data;
  }

  /** The paging loop of `get_translators` for one language of one project. */
  method CollectLanguage(fetch: PageFetch, lang: string, projectId: int) returns (entry: LanguageTranslators)
    requires HasEmptyPage(fetch, lang, projectId)
    ensures entry == LanguageSummary(fetch, lang, projectId)
  {
    var users: set<string> := {};
    var translationIds: set<int> := {};
    var offset: nat := 0;
    ghost var k: nat := 0;
    ghost var n := FirstEmptyPage(fetch, lang, projectId);
    while true
      invariant offset == k * Limit && k <= n
      invariant users == Usernames(Collected(fetch, lang, projectId, k))
      invariant translationIds == TranslationIds(Collected(fetch, lang, projectId, k))
      decreases n - k
    {
      var data := fetch(lang, projectId, Limit, offset);
      assert data == Page(fetch, lang, projectId, k);
      if data != [] {
        users, translationIds := AddPage(users, translationIds, data);
        UsernamesAppend(Collected(fetch, lang, projectId, k), data);
        assert Collected(fetch, lang, projectId, k + 1) == Collected(fetch, lang, projectId, k) + data;
        offset := offset + Limit;
        k := k + 1;
      } else {
        assert k == n by {
          assert k < n ==> Page(fetch, lang, projectId, k) != [];
        }
        entry := Entry(users, translationIds);
        assert entry == Summarize(Collected(fetch, lang, projectId, n));
        break;
      }
    }
  }

  /** Every language that `get_translators` visits has an empty page. */
  ghost predicate PagingEnds(listing: seq<ProjectRecord>, fetch: PageFetch) {
    forall name :: name in ProjectNames(listing) ==>
      var p := listing[LastIndex(listing, name)];
      forall lang :: lang in p.targetLanguageIds ==> HasEmptyPage(fetch, lang, p.id)
  }

  /** The languages of one project, visited in sorted order, each mapped to its entry. */
  method CollectProject(fetch: PageFetch, langs: seq<string>, projectId: int)
    returns (entries: map<string, LanguageTranslators>)
    requires forall lang :: lang in langs ==> HasEmptyPage(fetch, lang, projectId)
    ensures forall lang :: lang in entries <==> lang in langs
    ensures forall lang :: lang in entries ==>
      entries[lang] == LanguageSummary(fetch, lang, projectId)
  {
    var order := VisitOrder(set lang | lang in langs);
    assert forall lang :: lang in order <==> lang in langs;
    entries := map[];
    for i := 0 to |order|
      invariant forall lang :: lang in entries <==> lang in order[..i]
      invariant forall lang :: lang in entries ==>
        entries[lang] == LanguageSummary(fetch, lang, projectId)
    {
      assert order[i] in langs;
      var entry := CollectLanguage(fetch, order[i], projectId);
      assert order[..i + 1] == order[..i] + [order[i]];
      entries := entries[order[i] := entry];
    }
    assert order[..|order|] == order;
  }

  /**
   * `entries` is what `get_translators` records for the project called
   * `name`: one entry per target language of the last project of that name.
   */
  ghost predicate RecordsProject(listing: seq<ProjectRecord>, fetch: PageFetch, name: string,
                                 entries: map<string, LanguageTranslators>)
  {
    && name in ProjectNames(listing)
    && var p := listing[LastIndex(listing, name)];
    && (forall lang :: lang in entries <==> lang in p.targetLanguageIds)
    && forall lang :: lang in entries ==>
         && HasEmptyPage(fetch, lang, p.id)
         && entries[lang] == LanguageSummary(fetch, lang, p.id)
  }

  /**
   * The outer loop of `get_translators`: for each name, in the given order,
   * the entries of the project of that name, found through the two maps.
   */
  method RecordProjects(listing: seq<ProjectRecord>, fetch: PageFetch, names: seq<string>,
                        languages: map<string, seq<string>>, projects: map<string, int>)
    returns (results: map<string, map<string, LanguageTranslators>>)
    requires PagingEnds(listing, fetch)
    requires forall name :: name in names ==> name in ProjectNames(listing)
    requires forall name :: name in ProjectNames(listing) ==>
      && name in languages && languages[name] == listing[LastIndex(listing, name)].targetLanguageIds
      && name in projects && projects[name] == listing[LastIndex(listing, name)].id
    ensures forall name :: name in results <==> name in names
    ensures forall name :: name in results ==> RecordsProject(listing, fetch, name, results[name])
  {
    results := map[];
    for i := 0 to |names|
      invariant forall name :: name in results <==> name in names[..i]
      invariant forall name :: name in results ==> RecordsProject(listing, fetch, name, results[name])
    {
      var project := names[i];
      ghost var p := listing[LastIndex(listing, project)];
      var entries := CollectProject(fetch, languages[project], projects[project]);
      assert RecordsProject(listing, fetch, project, entries);
      assert names[..i + 1] == names[..i] + [project];
      results := results[project := entries];
    }
    assert names[..|names|] == names;
  }

  /**
   * `get_translators`: for every project, by name, and every one of its
   * target languages, the entry of that language.
   */
  method GetTranslators(listing: seq<ProjectRecord>, fetch: PageFetch)
    returns (results: map<string, map<string, LanguageTranslators>>)
    requires PagingEnds(listing, fetch)
    ensures results.Keys == ProjectNames(listing)
    ensures forall name :: name in results ==> RecordsProject(listing, fetch, name, results[name])
  {
    var languages := GetLanguages(listing);
    var projects := GetProjects(listing);
    var names := VisitOrder(projects.Keys);
    results := RecordProjects(listing, fetch, names, languages, projects);
  }
}
