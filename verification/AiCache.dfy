/** The AI result cache in fallback mode: message analysis through a cache that may
    lose entries and fail, and still answers as a fresh analysis would. */
module AiCache {
  datatype Settings = Settings(version: string, mini: string, full: string)

  /** The heuristic analysis and the clean-up of its result; what they compute does
      not matter here. `blank`: an empty dictionary, which counts as a miss. */
  datatype Analysis<!R, !U> = Analysis(
    fallback: string -> R, sanitize: (R, string, string) -> U, blank: R -> bool)

  function SelectModel(s: Settings, content: string): string {
    if |content| > 350 then s.full else s.mini
  }

  function CacheKey(tenant: string, message: string, version: string, model: string): string {
    "ai:message:" + tenant + ":" + message + ":" + version + ":" + model
  }

  /** What a message's analysis is without a cache. */
  function Direct<R, U>(s: Settings, an: Analysis<R, U>, content: string): U {
    an.sanitize(an.fallback(content), SelectModel(s, content), s.version)
  }

  // ---------- keys ----------

  predicate NoColon(id: string) {
    ':' !in id
  }

  /** The position of the first colon, or the length. */
  function ColonAt(s: string): nat {
    if s == "" || s[0] == ':' then 0 else 1 + ColonAt(s[1..])
  }

  lemma {:induction false} ColonAfter(a: string, x: string)
    requires NoColon(a)
    ensures ColonAt(a + ":" + x) == |a|
  {
    if a != "" {
      assert (a + ":" + x)[1..] == a[1..] + ":" + x;
      ColonAfter(a[1..], x);
    }
  }

  /** Up to the first colon, the text is determined. */
  lemma SplitAtColon(a: string, x: string, b: string, y: string)
    requires NoColon(a) && NoColon(b)
    requires a + ":" + x == b + ":" + y
    ensures a == b && x == y
  {
    ColonAfter(a, x);
    ColonAfter(b, y);
    var s := a + ":" + x;
    assert a == s[..|a|] && b == s[..|b|];
    assert x == s[|a| + 1..] && y == s[|b| + 1..];
  }

  const PREFIX := "ai:message:"

  lemma KeyParts(tenant: string, message: string, rest: string)
    ensures (PREFIX + tenant + ":" + message + ":" + rest)[|PREFIX|..] == tenant + ":" + (message + ":" + rest)
  {
  }

  /** Identifiers without colons can be read back from the key, and so can the model of
      a known prompt version, and the version if it has no colon either. */
  lemma KeysDetermineMessage(
    t: string, m: string, v: string, model: string, t': string, m': string, v': string, model': string)
    requires NoColon(t) && NoColon(m) && NoColon(t') && NoColon(m')
    requires CacheKey(t, m, v, model) == CacheKey(t', m', v', model')
    ensures t == t' && m == m' && (v == v' || (NoColon(v) && NoColon(v')) ==> v == v' && model == model')
  {
    var rest, rest' := v + ":" + model, v' + ":" + model';
    assert CacheKey(t, m, v, model) == PREFIX + t + ":" + m + ":" + rest;
    assert CacheKey(t', m', v', model') == PREFIX + t' + ":" + m' + ":" + rest';
    KeyParts(t, m, rest);
    KeyParts(t', m', rest');
    SplitAtColon(t, m + ":" + rest, t', m' + ":" + rest');
    SplitAtColon(m, rest, m', rest');
    if v == v' { assert model == rest[|v| + 1..] && model' == rest'[|v| + 1..]; }
    else if NoColon(v) && NoColon(v') { SplitAtColon(v, model, v', model'); }
  }

  /** With colons they cannot: tenant `a:b` with message `c` and tenant `a` with
      message `b:c` share an entry. */
  lemma ColonsCollide(a: string, b: string, c: string, version: string, model: string)
    ensures CacheKey(a + ":" + b, c, version, model) == CacheKey(a, b + ":" + c, version, model)
  {
    assert PREFIX + (a + ":" + b) + ":" + c == PREFIX + a + ":" + (b + ":" + c);
  }

  // ---------- one call ----------

  /** The cached entry a call would use. */
  predicate Hit<R, U>(cache: map<string, R>, an: Analysis<R, U>, key: string, getFails: bool) {
    !getFails && key in cache && !an.blank(cache[key])
  }

  function Answer<R, U>(cache: map<string, R>, s: Settings, an: Analysis<R, U>, key: string, content: string,
                        getFails: bool): U
  {
    an.sanitize(if Hit(cache, an, key, getFails) then cache[key] else an.fallback(content),
                SelectModel(s, content), s.version)
  }

  function CacheAfter<R, U>(cache: map<string, R>, an: Analysis<R, U>, key: string, content: string,
                            getFails: bool, setFails: bool): map<string, R>
  {
    if Hit(cache, an, key, getFails) || setFails then cache else cache[key := an.fallback(content)]
  }

  // ---------- runs ----------

  /** The content of every message. */
  type Contents = (string, string) -> string

  datatype State<!R> = State(cache: map<string, R>, contents: Contents)

  datatype Action =
    | Analyze(tenant: string, message: string, getFails: bool, setFails: bool)
    | Edit(tenant: string, message: string, content: string)
    | Evict(keys: set<string>)

  function KeyOf(s: Settings, tenant: string, message: string, content: string): string {
    CacheKey(tenant, message, s.version, SelectModel(s, content))
  }

  function Edited(contents: Contents, tenant: string, message: string, content: string): Contents {
    (t, m) => if t == tenant && m == message then content else contents(t, m)
  }

  /** Analysing, editing through the API, and entries that expire or are thrown out. */
  function Next<R, U>(st: State<R>, s: Settings, an: Analysis<R, U>, a: Action): State<R> {
    match a
    case Evict(keys) => st.(cache := st.cache - keys)
    case Edit(t, m, content) => st.(contents := Edited(st.contents, t, m, content))
    case Analyze(t, m, getFails, setFails) =>
      var content := st.contents(t, m);
      st.(cache := CacheAfter(st.cache, an, KeyOf(s, t, m, content), content, getFails, setFails))
  }

  /** From an empty cache. */
  function Run<R, U>(s: Settings, an: Analysis<R, U>, contents: Contents, actions: seq<Action>): State<R> {
    if actions == [] then State(map[], contents)
    else Next(Run(s, an, contents, actions[..|actions| - 1]), s, an, actions[|actions| - 1])
  }

  /** What an analysis of the message answers after the run. */
  function AnswerAfter<R, U>(s: Settings, an: Analysis<R, U>, contents: Contents, actions: seq<Action>,
                             tenant: string, message: string, getFails: bool): U
  {
    var st := Run(s, an, contents, actions);
    var content := st.contents(tenant, message);
    Answer(st.cache, s, an, KeyOf(s, tenant, message, content), content, getFails)
  }

  /** The contents a message has had, oldest first. */
  function History(contents: Contents, actions: seq<Action>, tenant: string, message: string): (h: seq<string>)
    ensures h != []
  {
    if actions == [] then [contents(tenant, message)]
    else
      var a := actions[|actions| - 1];
      History(contents, actions[..|actions| - 1], tenant, message)
      + (if a.Edit? && a.tenant == tenant && a.message == message then [a.content] else [])
  }

  predicate PlainIds(a: Action) {
    a.Evict? || (NoColon(a.tenant) && NoColon(a.message))
  }

  lemma {:induction false} HistoryEndsNow<R, U>(
    s: Settings, an: Analysis<R, U>, contents: Contents, actions: seq<Action>, tenant: string, message: string)
    ensures var h := History(contents, actions, tenant, message);
      Run(s, an, contents, actions).contents(tenant, message) == h[|h| - 1]
  {
    if actions != [] { HistoryEndsNow(s, an, contents, actions[..|actions| - 1], tenant, message); }
  }

  /** The entry is the analysis of a content the message has had, under its model. */
  ghost predicate FromHistory<R, U>(entry: R, s: Settings, an: Analysis<R, U>, h: seq<string>, model: string) {
    exists i :: 0 <= i < |h| && SelectModel(s, h[i]) == model && entry == an.fallback(h[i])
  }

  /** In every run, an entry under a message's key comes from that message's history. */
  lemma {:induction false} EntriesComeFromHistory<R, U>(
    s: Settings, an: Analysis<R, U>, contents: Contents, actions: seq<Action>, t: string, m: string, model: string)
    requires NoColon(t) && NoColon(m) && forall a :: a in actions ==> PlainIds(a)
    requires CacheKey(t, m, s.version, model) in Run(s, an, contents, actions).cache
    ensures FromHistory(Run(s, an, contents, actions).cache[CacheKey(t, m, s.version, model)], s, an,
                        History(contents, actions, t, m), model)
  {
    var n := |actions| - 1;
    var st, a, key := Run(s, an, contents, actions[..n]), actions[n], CacheKey(t, m, s.version, model);
    var before, h := History(contents, actions[..n], t, m), History(contents, actions, t, m);
    assert PlainIds(a);
    if key in st.cache && Next(st, s, an, a).cache[key] == st.cache[key] {
      EntriesComeFromHistory(s, an, contents, actions[..n], t, m, model);
      var i :| 0 <= i < |before| && SelectModel(s, before[i]) == model && st.cache[key] == an.fallback(before[i]);
      assert h[i] == before[i];
    } else {
      var content := st.contents(a.tenant, a.message);
      KeysDetermineMessage(t, m, s.version, model, a.tenant, a.message, s.version, SelectModel(s, content));
      HistoryEndsNow(s, an, contents, actions[..n], t, m);
      assert h == before && content == h[|h| - 1];
    }
  }

  /** No other content the message has had selects the model of the current one and has
      another analysis. (An empty analysis is never used from the cache.) */
  ghost predicate HarmlessEdits<R, U>(s: Settings, an: Analysis<R, U>, h: seq<string>)
    requires h != []
  {
    var now := h[|h| - 1];
    forall i :: 0 <= i < |h| && SelectModel(s, h[i]) == SelectModel(s, now) ==>
      an.blank(an.fallback(h[i])) || Direct(s, an, h[i]) == Direct(s, an, now)
  }

  /** After harmless edits every run answers what it would have answered without a cache. */
  lemma HarmlessEditsAreTransparent<R, U>(
    s: Settings, an: Analysis<R, U>, contents: Contents, actions: seq<Action>,
    tenant: string, message: string, getFails: bool)
    requires NoColon(tenant) && NoColon(message) && forall a :: a in actions ==> PlainIds(a)
    requires HarmlessEdits(s, an, History(contents, actions, tenant, message))
    ensures AnswerAfter(s, an, contents, actions, tenant, message, getFails)
         == Direct(s, an, Run(s, an, contents, actions).contents(tenant, message))
  {
    var st, h := Run(s, an, contents, actions), History(contents, actions, tenant, message);
    HistoryEndsNow(s, an, contents, actions, tenant, message);
    var now := h[|h| - 1];
    if Hit(st.cache, an, KeyOf(s, tenant, message, now), getFails) {
      EntriesComeFromHistory(s, an, contents, actions, tenant, message, SelectModel(s, now));
    }
  }

  /** After any run of analyses, evictions, failing cache calls and edits of other
      messages, the analysis of an unedited message is the one made without a cache, by the
      full model from 351 characters on and else by the small one. */
  lemma CacheIsTransparent<R, U>(
    s: Settings, an: Analysis<R, U>, contents: Contents, actions: seq<Action>,
    tenant: string, message: string, getFails: bool)
    requires NoColon(tenant) && NoColon(message) && forall a :: a in actions ==> PlainIds(a)
    requires forall a :: a in actions && a.Edit? ==> a.tenant != tenant || a.message != message
    ensures var content := contents(tenant, message);
      AnswerAfter(s, an, contents, actions, tenant, message, getFails)
        == an.sanitize(an.fallback(content), if |content| <= 350 then s.mini else s.full, s.version)
  {
    UneditedHistory(contents, actions, tenant, message);
    HistoryEndsNow(s, an, contents, actions, tenant, message);
    HarmlessEditsAreTransparent(s, an, contents, actions, tenant, message, getFails);
  }

  lemma {:induction false} UneditedHistory(contents: Contents, actions: seq<Action>, tenant: string, message: string)
    requires forall a :: a in actions && a.Edit? ==> a.tenant != tenant || a.message != message
    ensures History(contents, actions, tenant, message) == [contents(tenant, message)]
  {
    if actions != [] {
      assert actions[|actions| - 1] in actions;
      UneditedHistory(contents, actions[..|actions| - 1], tenant, message);
    }
  }

  // ---------- exactly when edits are harmless ----------

  /** The run goes on with edits of one message. */
  function WithEdits(first: seq<Action>, tenant: string, message: string, texts: seq<string>): (actions: seq<Action>)
    ensures forall a :: a in actions ==> a in first || (a.Edit? && a.tenant == tenant && a.message == message)
  {
    if texts == [] then first
    else
      var n := |texts| - 1;
      WithEdits(first, tenant, message, texts[..n]) + [Edit(tenant, message, texts[n])]
  }

  lemma RunExtend<R, U>(
    s: Settings, an: Analysis<R, U>, contents: Contents, actions: seq<Action>, a: Action, t: string, m: string)
    ensures Run(s, an, contents, actions + [a]) == Next(Run(s, an, contents, actions), s, an, a)
    ensures History(contents, actions + [a], t, m) ==
      History(contents, actions, t, m) + if a.Edit? && a.tenant == t && a.message == m then [a.content] else []
  {
    assert (actions + [a])[..|actions|] == actions;
  }

  /** After edits of the message the cache is what it was and the history is longer. */
  ghost predicate OnlyEdited<R, U>(s: Settings, an: Analysis<R, U>, contents: Contents, first: seq<Action>,
                                   actions: seq<Action>, t: string, m: string, texts: seq<string>)
  {
    && Run(s, an, contents, actions).cache == Run(s, an, contents, first).cache
    && History(contents, actions, t, m) == History(contents, first, t, m) + texts
  }

  lemma OneMoreEdit<R, U>(
    s: Settings, an: Analysis<R, U>, contents: Contents, first: seq<Action>,
    actions: seq<Action>, t: string, m: string, texts: seq<string>, text: string)
    requires OnlyEdited(s, an, contents, first, actions, t, m, texts)
    ensures OnlyEdited(s, an, contents, first, actions + [Edit(t, m, text)], t, m, texts + [text])
  {
    RunExtend(s, an, contents, actions, Edit(t, m, text), t, m);
    var h := History(contents, first, t, m);
    assert (h + texts) + [text] == h + (texts + [text]);
  }

  lemma {:induction false} RunEdits<R, U>(
    s: Settings, an: Analysis<R, U>, contents: Contents, first: seq<Action>, t: string, m: string, texts: seq<string>)
    ensures OnlyEdited(s, an, contents, first, WithEdits(first, t, m, texts), t, m, texts)
  {
    if texts != [] {
      var n := |texts| - 1;
      RunEdits(s, an, contents, first, t, m, texts[..n]);
      OneMoreEdit(s, an, contents, first, WithEdits(first, t, m, texts[..n]), t, m, texts[..n], texts[n]);
      assert texts == texts[..n] + [texts[n]];
    }
  }

  /** The message is analysed once, after the given edits. */
  function EditThenAnalyze(tenant: string, message: string, texts: seq<string>): seq<Action> {
    WithEdits([], tenant, message, texts) + [Analyze(tenant, message, false, false)]
  }

  /** The only entry is the analysis of `content`, the last the message has had. */
  ghost predicate OnlyCached<R, U>(s: Settings, an: Analysis<R, U>, contents: Contents, actions: seq<Action>,
                                   t: string, m: string, content: string)
  {
    var h := History(contents, actions, t, m);
    h[|h| - 1] == content && Run(s, an, contents, actions).cache == map[KeyOf(s, t, m, content) := an.fallback(content)]
  }

  lemma AnalysisIsCached<R, U>(
    s: Settings, an: Analysis<R, U>, contents: Contents, t: string, m: string, texts: seq<string>)
    ensures var h := [contents(t, m)] + texts;
      && OnlyCached(s, an, contents, EditThenAnalyze(t, m, texts), t, m, h[|texts|])
      && History(contents, EditThenAnalyze(t, m, texts), t, m) == h
  {
    var first := WithEdits([], t, m, texts);
    RunEdits(s, an, contents, [], t, m, texts);
    HistoryEndsNow(s, an, contents, first, t, m);
    RunExtend(s, an, contents, first, Analyze(t, m, false, false), t, m);
  }

  /** Later edits that select the same model are answered from that entry. */
  lemma AnswersFromCache<R, U>(
    s: Settings, an: Analysis<R, U>, contents: Contents, first: seq<Action>, actions: seq<Action>,
    t: string, m: string, texts: seq<string>, content: string)
    requires OnlyCached(s, an, contents, first, t, m, content) && !an.blank(an.fallback(content))
    requires OnlyEdited(s, an, contents, first, actions, t, m, texts)
    requires var h := History(contents, actions, t, m); SelectModel(s, content) == SelectModel(s, h[|h| - 1])
    ensures AnswerAfter(s, an, contents, actions, t, m, false) == Direct(s, an, content)
  {
    HistoryEndsNow(s, an, contents, actions, t, m);
  }

  lemma AnalyzedThenEdited<R, U>(
    s: Settings, an: Analysis<R, U>, contents: Contents, t: string, m: string,
    before: seq<string>, after: seq<string>, content: string)
    requires content == ([contents(t, m)] + before)[|before|] && !an.blank(an.fallback(content))
    requires var h := [contents(t, m)] + before + after; SelectModel(s, content) == SelectModel(s, h[|h| - 1])
    ensures var actions := WithEdits(EditThenAnalyze(t, m, before), t, m, after);
      && History(contents, actions, t, m) == [contents(t, m)] + before + after
      && AnswerAfter(s, an, contents, actions, t, m, false) == Direct(s, an, content)
  {
    var first := EditThenAnalyze(t, m, before);
    AnalysisIsCached(s, an, contents, t, m, before);
    RunEdits(s, an, contents, first, t, m, after);
    AnswersFromCache(s, an, contents, first, WithEdits(first, t, m, after), t, m, after, content);
  }

  lemma HistorySplits(h: seq<string>, i: nat)
    requires i < |h|
    ensures [h[0]] + h[1..i + 1] + h[i + 1..] == h && ([h[0]] + h[1..i + 1])[|h[1..i + 1]|] == h[i]
  {
  }

  /** A run with the given history that analyses the message only at its i-th content. */
  function AnalyzedAt(tenant: string, message: string, h: seq<string>, i: nat): (actions: seq<Action>)
    requires i < |h|
    ensures NoColon(tenant) && NoColon(message) ==> forall a :: a in actions ==> PlainIds(a)
  {
    WithEdits(EditThenAnalyze(tenant, message, h[1..i + 1]), tenant, message, h[i + 1..])
  }

  lemma AnalyzedAtAnswers<R, U>(
    s: Settings, an: Analysis<R, U>, contents: Contents, t: string, m: string, h: seq<string>, i: nat)
    requires i < |h| && h[0] == contents(t, m) && SelectModel(s, h[i]) == SelectModel(s, h[|h| - 1])
    requires !an.blank(an.fallback(h[i]))
    ensures History(contents, AnalyzedAt(t, m, h, i), t, m) == h
    ensures AnswerAfter(s, an, contents, AnalyzedAt(t, m, h, i), t, m, false) == Direct(s, an, h[i])
  {
    HistorySplits(h, i);
    AnalyzedThenEdited(s, an, contents, t, m, h[1..i + 1], h[i + 1..], h[i]);
  }

  /** Every run in which the message has had these contents answers as without a cache. */
  ghost predicate AlwaysTransparent<R, U>(
    s: Settings, an: Analysis<R, U>, contents: Contents, t: string, m: string, h: seq<string>)
    requires h != []
  {
    forall actions: seq<Action>, getFails: bool ::
      (forall a :: a in actions ==> PlainIds(a)) && History(contents, actions, t, m) == h ==>
        AnswerAfter(s, an, contents, actions, t, m, getFails) == Direct(s, an, h[|h| - 1])
  }

  /** The key does not name the content. A history of edits is safe, whatever the cache
      does and whenever the message is analysed, if and only if no earlier content that
      selects the current one's model has another, non-empty analysis. */
  lemma EditsAreTransparentIff<R, U>(
    s: Settings, an: Analysis<R, U>, contents: Contents, t: string, m: string, h: seq<string>)
    requires NoColon(t) && NoColon(m) && h != [] && h[0] == contents(t, m)
    ensures AlwaysTransparent(s, an, contents, t, m, h) <==> HarmlessEdits(s, an, h)
  {
    if HarmlessEdits(s, an, h) {
      forall actions: seq<Action>, getFails: bool
        | (forall a :: a in actions ==> PlainIds(a)) && History(contents, actions, t, m) == h
        ensures AnswerAfter(s, an, contents, actions, t, m, getFails) == Direct(s, an, h[|h| - 1])
      {
        HarmlessEditsAreTransparent(s, an, contents, actions, t, m, getFails);
        HistoryEndsNow(s, an, contents, actions, t, m);
      }
    } else {
      var i :| 0 <= i < |h| && SelectModel(s, h[i]) == SelectModel(s, h[|h| - 1])
        && !an.blank(an.fallback(h[i])) && Direct(s, an, h[i]) != Direct(s, an, h[|h| - 1]);
      AnalyzedAtAnswers(s, an, contents, t, m, h, i);
    }
  }

  /** One edit: with the analysis of `before` in the cache, the answer for `after` is
      right exactly when the edit selects another model or changes no analysis. */
  lemma EditedMessageIsStale<R, U>(
    s: Settings, an: Analysis<R, U>, tenant: string, message: string, before: string, after: string)
    requires !an.blank(an.fallback(before))
    ensures var key := KeyOf(s, tenant, message, after);
      var cache := CacheAfter(map[], an, KeyOf(s, tenant, message, before), before, false, false);
      Answer(cache, s, an, key, after, false) == Direct(s, an, after) <==>
        SelectModel(s, before) != SelectModel(s, after) || Direct(s, an, before) == Direct(s, an, after)
  {
    var key, key' := KeyOf(s, tenant, message, before), KeyOf(s, tenant, message, after);
    var none: map<string, R> := map[];
    assert CacheAfter(none, an, key, before, false, false) == map[key := an.fallback(before)];
    var stem := CacheKey(tenant, message, s.version, "");
    assert key == stem + SelectModel(s, before) && key' == stem + SelectModel(s, after);
    assert key == key' ==> key[|stem|..] == key'[|stem|..];
  }

  class AIOrchestrator<!R, !U> {
    const settings: Settings
    const analysis: Analysis<R, U>
    var cache: map<string, R>

    constructor (settings: Settings, analysis: Analysis<R, U>)
      ensures this.settings == settings && this.analysis == analysis && cache == map[]
    {
      this.settings, this.analysis, cache := settings, analysis, map[];
    }

    /** A failing read is a miss, a failing write is ignored. */
    method AnalyzeMessage(tenant: string, message: string, content: string, getFails: bool, setFails: bool)
      returns (understanding: U)
      modifies this
      ensures var key := CacheKey(tenant, message, settings.version, SelectModel(settings, content));
        && understanding == Answer(old(cache), settings, analysis, key, content, getFails)
        && cache == CacheAfter(old(cache), analysis, key, content, getFails, setFails)
    {
      var model := SelectModel(settings, content);
      var key := CacheKey(tenant, message, settings.version, model);
      if !getFails && key in cache && !analysis.blank(cache[key]) {
        return analysis.sanitize(cache[key], model, settings.version);
      }
      var raw := analysis.fallback(content);
      if !setFails {
        cache := cache[key := raw];
      }
      return analysis.sanitize(raw, model, settings.version);
    }
  }
}
