/** The translation engine and its context cache, whose keys join key, language and context with underscores. */
module LanguageEngine {
  import opened Values

  type Dictionary = map<string, map<string, string>>

  const DEFAULT_LANG := "en"

  /** The uncached lookup: target language, then default language, then the key itself. */
  function Plain(translations: Dictionary, key: string, lang: string): string {
    if lang in translations && key in translations[lang] then translations[lang][key]
    else if DEFAULT_LANG in translations && key in translations[DEFAULT_LANG] then translations[DEFAULT_LANG][key]
    else key
  }

  /** The target language comes first, then the default language, then the key itself. */
  lemma PlainFallsBack(d: Dictionary, key: string, lang: string)
    ensures lang in d && key in d[lang] ==> Plain(d, key, lang) == d[lang][key]
    ensures !(lang in d && key in d[lang]) && "en" in d && key in d["en"] ==> Plain(d, key, lang) == d["en"][key]
    ensures (forall l :: l in d && l in [lang, "en"] ==> key !in d[l]) ==> Plain(d, key, lang) == key
  {
  }

  /** An explicit language wins over the current one, unless it is empty. */
  lemma TargetPrefersGiven(lang: string, current: string)
    ensures Target(None, current) == current && Target(Some(""), current) == current
    ensures lang != "" ==> Target(Some(lang), current) == lang
  {
  }

  /** An absent context shares its cache entry with the context "None". */
  lemma AbsentContextKey(key: string, lang: string)
    ensures CacheKey(key, lang, None) == CacheKey(key, lang, Some("None")) == key + "_" + lang + "_None"
  {
  }

  /** An absent context prints as "None". */
  function Shown(context: Option<string>): string {
    if context.Some? then context.value else "None"
  }

  function CacheKey(key: string, lang: string, context: Option<string>): string {
    key + "_" + lang + "_" + Shown(context)
  }

  /** `lang or self.current_lang`. */
  function Target(lang: Option<string>, current: string): string {
    if lang.Some? && lang.value != "" then lang.value else current
  }

  predicate NoUnderscore(s: string) {
    '_' !in s
  }

  // ---------------------------------------------------------------- the joined key

  lemma TailDetermines(a: string, x: string, b: string, y: string)
    requires NoUnderscore(x) && NoUnderscore(y)
    requires a + "_" + x == b + "_" + y
    ensures a == b && x == y
  {
    var s := a + "_" + x;
    assert s[|a|] == '_' && s[|b|] == '_';
    forall i | |a| < i < |s| ensures s[i] != '_' { assert s[i] == x[i - |a| - 1]; }
    forall i | |b| < i < |s| ensures s[i] != '_' { assert s[i] == y[i - |b| - 1]; }
    assert a == s[..|a|] && x == s[|a| + 1..] && y == s[|b| + 1..] && b == s[..|b|];
  }

  /** Without underscores in language and context, the joined key determines key, language and context. */
  lemma CacheKeyDetermines(key: string, lang: string, context: Option<string>,
                           key': string, lang': string, context': Option<string>)
    requires NoUnderscore(lang) && NoUnderscore(Shown(context)) && NoUnderscore(lang') && NoUnderscore(Shown(context'))
    requires CacheKey(key, lang, context) == CacheKey(key', lang', context')
    ensures key == key' && lang == lang' && Shown(context) == Shown(context')
  {
    TailDetermines(key + "_" + lang, Shown(context), key' + "_" + lang', Shown(context'));
    TailDetermines(key, lang, key', lang');
  }

  // ---------------------------------------------------------------- the engine

  // The formatting of keyword arguments into a text; None when a call has no keyword arguments.
  type Formatter = Option<string -> string>

  // A call of `translate` as it looks up the cache.
  datatype Query = Query(key: string, lang: string, context: Option<string>)

  function QueryKey(q: Query): string {
    CacheKey(q.key, q.lang, q.context)
  }

  /** The cached text of every query that may be made is the plain lookup. */
  ghost predicate Transparent(translations: Dictionary, cache: map<string, string>, asked: Query -> bool) {
    forall q :: asked(q) && QueryKey(q) in cache ==> cache[QueryKey(q)] == Plain(translations, q.key, q.lang)
  }

  predicate Tame(q: Query) {
    NoUnderscore(q.lang) && NoUnderscore(Shown(q.context))
  }

  /** The cache after a call of `translate`. */
  function Cached(translations: Dictionary, cache: map<string, string>, q: Query): map<string, string> {
    if QueryKey(q) in cache then cache else cache[QueryKey(q) := Plain(translations, q.key, q.lang)]
  }

  // ---------------------------------------------------------------- exactly when the cache is transparent

  // A step of the engine: a query without keyword arguments, or an emptying of the cache.
  datatype Step = Ask(q: Query) | Empty

  function AfterStep(translations: Dictionary, cache: map<string, string>, s: Step): map<string, string> {
    match s
    case Ask(q) => Cached(translations, cache, q)
    case Empty => map[]
  }

  /** What the engine answers to a query without keyword arguments. */
  function Answer(translations: Dictionary, cache: map<string, string>, q: Query): string {
    if QueryKey(q) in cache then cache[QueryKey(q)] else Plain(translations, q.key, q.lang)
  }

  function AfterRun(translations: Dictionary, run: seq<Step>): map<string, string> {
    if run == [] then map[] else AfterStep(translations, AfterRun(translations, run[..|run| - 1]), run[|run| - 1])
  }

  ghost predicate OnlyAsks(run: seq<Step>, asked: Query -> bool) {
    forall i :: 0 <= i < |run| && run[i].Ask? ==> asked(run[i].q)
  }

  /** In every run that asks only such queries, every answer is the plain lookup. */
  ghost predicate NeverNoticed(translations: Dictionary, asked: Query -> bool) {
    forall run, q :: OnlyAsks(run, asked) && asked(q) ==>
      Answer(translations, AfterRun(translations, run), q) == Plain(translations, q.key, q.lang)
  }

  /** Queries with the same joined key have the same translation. */
  ghost predicate KeysSuffice(translations: Dictionary, asked: Query -> bool) {
    forall q, r :: asked(q) && asked(r) && QueryKey(q) == QueryKey(r) ==>
      Plain(translations, q.key, q.lang) == Plain(translations, r.key, r.lang)
  }

  lemma {:induction false} RunIsTransparent(translations: Dictionary, run: seq<Step>, asked: Query -> bool)
    requires KeysSuffice(translations, asked) && OnlyAsks(run, asked)
    ensures Transparent(translations, AfterRun(translations, run), asked)
  {
    if run != [] {
      RunIsTransparent(translations, run[..|run| - 1], asked);
    }
  }

  /** The cache goes unnoticed if and only if the joined key suffices for the queries asked. */
  lemma NeverNoticedIffKeysSuffice(translations: Dictionary, asked: Query -> bool)
    ensures NeverNoticed(translations, asked) <==> KeysSuffice(translations, asked)
  {
    if KeysSuffice(translations, asked) {
      forall run, q | OnlyAsks(run, asked) && asked(q)
        ensures Answer(translations, AfterRun(translations, run), q) == Plain(translations, q.key, q.lang)
      {
        RunIsTransparent(translations, run, asked);
      }
    } else {
      var q, r :| asked(q) && asked(r) && QueryKey(q) == QueryKey(r) &&
        Plain(translations, q.key, q.lang) != Plain(translations, r.key, r.lang);
      var run := [Ask(r)];
      assert run[..0] == [];
      assert AfterRun(translations, run) == map[QueryKey(r) := Plain(translations, r.key, r.lang)];
      assert OnlyAsks(run, asked);
    }
  }

  lemma TameQueriesSuffice(translations: Dictionary, asked: Query -> bool)
    requires forall q :: asked(q) ==> Tame(q)
    ensures KeysSuffice(translations, asked)
  {
    forall q, r | asked(q) && asked(r) && QueryKey(q) == QueryKey(r)
      ensures Plain(translations, q.key, q.lang) == Plain(translations, r.key, r.lang)
    {
      CacheKeyDetermines(q.key, q.lang, q.context, r.key, r.lang, r.context);
    }
  }

  /** Underscore-free languages and contexts are enough, whatever the dictionary and the keys. */
  lemma TameQueriesNeverNoticed(translations: Dictionary, asked: Query -> bool)
    requires forall q :: asked(q) ==> Tame(q)
    ensures NeverNoticed(translations, asked)
  {
    TameQueriesSuffice(translations, asked);
    NeverNoticedIffKeysSuffice(translations, asked);
  }

  lemma AfterOneMore(translations: Dictionary, run: seq<Step>, s: Step)
    ensures AfterRun(translations, run + [s]) == AfterStep(translations, AfterRun(translations, run), s)
  {
    assert (run + [s])[..|run|] == run;
  }

  lemma TameAnswer(translations: Dictionary, run: seq<Step>, q: Query)
    requires OnlyAsks(run + [Ask(q)], x => Tame(x))
    ensures Answer(translations, AfterRun(translations, run), q) == Plain(translations, q.key, q.lang)
  {
    var asked := x => Tame(x);
    TameQueriesSuffice(translations, asked);
    assert (run + [Ask(q)])[|run|] == Ask(q);
    assert forall i :: 0 <= i < |run| ==> (run + [Ask(q)])[i] == run[i];
    RunIsTransparent(translations, run, asked);
  }

  /** An underscore in the context is enough to be served the text of another key. */
  lemma UnderscoreIsNoticed()
    ensures var d: Dictionary := map["en" := map["a" := "first", "a_en" := "second"]];
            var q1, q2 := Query("a", "en", Some("en_x")), Query("a_en", "en", Some("x"));
            Answer(d, AfterRun(d, [Ask(q1)]), q2) == "first" && Plain(d, q2.key, q2.lang) == "second"
  {
    var d: Dictionary := map["en" := map["a" := "first", "a_en" := "second"]];
    var q1, q2 := Query("a", "en", Some("en_x")), Query("a_en", "en", Some("x"));
    assert QueryKey(q1) == "a_en_en_x" == QueryKey(q2);
    assert [Ask(q1)][..0] == [];
    assert AfterRun(d, [Ask(q1)]) == map["a_en_en_x" := "first"];
  }

  // ---------------------------------------------------------------- the engine as an object

  class LanguageEngine {
    const translations: Dictionary
    var currentLang: string
    var contextCache: map<string, string>

    // What has happened to the cache so far.
    ghost var run: seq<Step>

    ghost predicate Valid()
      reads this
    {
      currentLang in ["zh", "en"] && contextCache == AfterRun(translations, run)
    }

    constructor (translations: Dictionary)
      ensures Valid() && this.translations == translations && currentLang == "en" && run == []
    {
      this.translations := translations;
      currentLang := "en";
      contextCache := map[];
      run := [];
    }

    method SetLanguage(lang: string)
      requires Valid()
      modifies this
      ensures Valid()
      ensures currentLang == if lang == "zh" || lang == "en" then lang else DEFAULT_LANG
      ensures run == if currentLang != old(currentLang) then old(run) + [Empty] else old(run)
      ensures contextCache == if currentLang != old(currentLang) then map[] else old(contextCache)
    {
      var oldLang := currentLang;
      currentLang := if lang == "zh" || lang == "en" then lang else DEFAULT_LANG;
      if oldLang != currentLang {
        contextCache := map[];
        AfterOneMore(translations, run, Empty);
        run := run + [Empty];
      }
    }

    method ClearCache()
      requires Valid()
      modifies this`contextCache, this`run
      ensures Valid() && run == old(run) + [Empty] && contextCache == map[]
    {
      contextCache := map[];
      AfterOneMore(translations, run, Empty);
      run := run + [Empty];
    }

    /** The dictionary part of a translation. */
    method Find(key: string, target: string) returns (text: string)
      ensures text == Plain(translations, key, target)
    {
      if target in translations && key in translations[target] {
        text := translations[target][key];
      } else if DEFAULT_LANG in translations && key in translations[DEFAULT_LANG] {
        text := translations[DEFAULT_LANG][key];
      } else {
        text := key;
      }
    }

    /** Answers from the cache when it can; as long as all queries were tame, nobody notices. */
    method Translate(key: string, lang: Option<string>, context: Option<string>, kwargs: Formatter)
        returns (text: string)
      requires Valid()
      modifies this`contextCache, this`run
      ensures Valid()
      ensures var q := Query(key, Target(lang, currentLang), context);
              && run == (if kwargs.None? then old(run) + [Ask(q)] else old(run))
              && text == (if kwargs.None? then Answer(translations, old(contextCache), q)
                          else kwargs.value(Plain(translations, key, q.lang)))
              && (kwargs.None? && OnlyAsks(run, x => Tame(x)) ==> text == Plain(translations, key, q.lang))
      ensures kwargs.None? && OnlyAsks(run, x => Tame(x)) ==>
                var target := if lang.Some? && lang.value != "" then lang.value else currentLang;
                && (target in translations && key in translations[target] ==> text == translations[target][key])
                && (!(target in translations && key in translations[target]) ==>
                      "en" in translations && key in translations["en"] ==> text == translations["en"][key])
      ensures var cacheKey := CacheKey(key, Target(lang, currentLang), context);
              contextCache == if kwargs.None? then old(contextCache)[cacheKey := text] else old(contextCache)
    {
      var target := if lang.Some? && lang.value != "" then lang.value else currentLang;
      var cacheKey := key + "_" + target + "_" + Shown(context);
      ghost var q := Query(key, target, context);
      assert cacheKey == QueryKey(q);
      if kwargs.None? {
        if OnlyAsks(run + [Ask(q)], x => Tame(x)) { TameAnswer(translations, run, q); }
        AfterOneMore(translations, run, Ask(q));
        run := run + [Ask(q)];
      }
      if cacheKey in contextCache && kwargs.None? {
        return contextCache[cacheKey];
      }
      text := Find(key, target);
      if kwargs.Some? {
        return kwargs.value(text);
      }
      contextCache := contextCache[cacheKey := text];
    }
  }
}
