/** `getSystemPrompt` of cloudflare-worker.js: a two-level table of ten system prompts,
    by language and by concierge mode, with fallbacks to English and to the route
    planner. The prompt texts are not modelled; a prompt is named by its language and mode. */
module Prompts {
  import opened Wrappers

  datatype Lang = De | En
  datatype Mode = Route | Packing | Tesla | Vehicle | Traffic

  /** One of the ten prompts of the table. */
  datatype PromptId = PromptId(lang: Lang, mode: Mode)

  /** The property names of the table. */
  function LangName(l: Lang): string {
    match l
    case De => "de"
    case En => "en"
  }

  function ModeName(m: Mode): string {
    match m
    case Route => "route"
    case Packing => "packing"
    case Tesla => "tesla"
    case Vehicle => "vehicle"
    case Traffic => "traffic"
  }

  /** The language a property name selects, if it is one of the table's own. */
  function ParseLang(s: string): (r: Option<Lang>)
    ensures r.Some? ==> LangName(r.value) == s
  {
    if s == "de" then Some(De) else if s == "en" then Some(En) else None
  }

  /** The mode a property name selects, if it is one of the table's own. */
  function ParseMode(s: string): (r: Option<Mode>)
    ensures r.Some? ==> ModeName(r.value) == s
  {
    if s == "route" then Some(Route)
    else if s == "packing" then Some(Packing)
    else if s == "tesla" then Some(Tesla)
    else if s == "vehicle" then Some(Vehicle)
    else if s == "traffic" then Some(Traffic)
    else None
  }

  /** Every language and mode is found under its own name. */
  lemma NamesRoundTrip(l: Lang, m: Mode)
    ensures ParseLang(LangName(l)) == Some(l)
    ensures ParseMode(ModeName(m)) == Some(m)
  {
    match l
    case De =>
    case En =>
  }

  /** The prompt the worker means to use: the language's table, English for any other
      language; the mode's prompt, the route planner for any other mode. */
  function SystemPrompt(mode: string, lang: string): (p: PromptId)
    ensures p.lang == De <==> lang == "de"
    ensures forall m :: p.mode == m <==> mode == ModeName(m) || (m == Route && ParseMode(mode).None?)
  {
    PromptId(ParseLang(lang).GetOr(En), ParseMode(mode).GetOr(Route))
  }

  /** Every prompt of the table is reachable, through its own names. */
  lemma EveryPromptReachable(p: PromptId)
    ensures SystemPrompt(ModeName(p.mode), LangName(p.lang)) == p
  {
    NamesRoundTrip(p.lang, p.mode);
  }

  /** The names every plain JavaScript object inherits from `Object.prototype`. */
  const InheritedNames: set<string> := {
    "constructor", "__defineGetter__", "__defineSetter__", "hasOwnProperty",
    "__lookupGetter__", "__lookupSetter__", "isPrototypeOf", "propertyIsEnumerable",
    "toString", "valueOf", "__proto__", "toLocaleString"}

  /** What a property lookup in the table yields: one of its prompts, or some other value
      (a function, `Object.prototype`, a property of those, or `undefined`). */
  datatype Lookup = Prompt(id: PromptId) | NotAPrompt

  /** `getSystemPrompt` as written: `prompts[lang] || prompts.en`, then
      `langPrompts[mode] || langPrompts.route`. An inherited language name selects a
      truthy non-table value, in which no mode finds a prompt, not even the `route`
      fallback; an inherited mode name selects a truthy function. */
  function SystemPromptAsWritten(mode: string, lang: string): (r: Lookup)
    ensures r.NotAPrompt? <==> lang in InheritedNames || mode in InheritedNames
  {
    if lang in InheritedNames || mode in InheritedNames then NotAPrompt
    else Prompt(PromptId(ParseLang(lang).GetOr(En), ParseMode(mode).GetOr(Route)))
  }

  /** Away from the inherited names, the code as written returns the intended prompt. */
  lemma AsWrittenAgrees(mode: string, lang: string)
    requires lang !in InheritedNames && mode !in InheritedNames
    ensures SystemPromptAsWritten(mode, lang) == Prompt(SystemPrompt(mode, lang))
  {
  }

  /** The inputs that show the discrepancy: the language "constructor" with the default
      mode, and the mode "toString" with the default language. */
  lemma InheritedNameIsNotAPrompt()
    ensures SystemPromptAsWritten("route", "constructor") == NotAPrompt
    ensures SystemPrompt("route", "constructor") == PromptId(En, Route)
    ensures SystemPromptAsWritten("toString", "en") == NotAPrompt
    ensures SystemPrompt("toString", "en") == PromptId(En, Route)
  {
  }
}
