/** The plan-parsing endpoint (app/api/route.ts): its cache key, the
    hit / miss / bypass flow around the language-model call, and the
    clean-up of the model's reply. The model call and `JSON.parse` are
    parameters; so are the two clock readings. */
module ParseRoute {
  import opened Wrappers
  import opened Json
  import opened TtlCache
  import opened Endpoint
  import opened Fences
  import opened Normalization

  const DefaultModel := "gpt-4o-mini"
  const DefaultTtl: nat := 300000
  const MissingKeyError := "Missing OPENAI_API_KEY"

  /** The cache key `{ buildPlan, model }`. */
  datatype ParseKey = ParseKey(buildPlan: string, model: string)

  /** What the handler reads from the request: the body's `buildPlan`, the
      `cache` query parameter and the `x-cache-bust` header. */
  datatype ParseRequest = ParseRequest(buildPlan: string, cacheParam: Option<string>, cacheBust: Option<string>)

  /** `OPENAI_API_KEY` and `OPENAI_MODEL`. */
  datatype ParseEnv = ParseEnv(apiKey: Option<string>, model: Option<string>)

  type Entries = map<ParseKey, Entry<seq<NormalMaterial>>>

  /** The chat completion for (model, plan): the first choice's message
      content (`None` when there is none), or the message of what it threw. */
  type Llm = (string, string) -> Result<Option<string>, string>

  /** `JSON.parse`; `None` when it throws. */
  type JsonParser = string -> Option<Json>

  /** A new parse cache; the TTL setting defaults to five minutes. */
  method NewCache(setting: Option<nat>) returns (c: Cache<ParseKey, seq<NormalMaterial>>)
    ensures fresh(c) && c.entries == map[]
    ensures c.ttl == if setting.Some? then setting.value else 300000
  {
    c := new Cache(setting.GetOr(DefaultTtl));
  }

  /** `process.env.OPENAI_MODEL || "gpt-4o-mini"`. */
  function ResolveModel(configured: Option<string>): (model: string)
    ensures EnvSet(configured) ==> model == configured.value
    ensures !EnvSet(configured) ==> model == "gpt-4o-mini"
  {
    if EnvSet(configured) then configured.value else DefaultModel
  }

  /** Plans that differ, or models that differ, never share a cache entry. */
  lemma KeyInjective(p1: string, m1: string, p2: string, m2: string)
    ensures ParseKey(p1, m1) == ParseKey(p2, m2) <==> p1 == p2 && m1 == m2
  {
  }

  /** `content || "[]"`. */
  function RawText(content: Option<string>): (raw: string)
    ensures content.None? || content.value == "" ==> raw == "[]"
    ensures content.Some? && content.value != "" ==> raw == content.value
  {
    if content.Some? && content.value != "" then content.value else "[]"
  }

  /** `JSON.parse(text)`, or `[]` when it throws. */
  function ParsedOrEmpty(parse: JsonParser, text: string): Json {
    match parse(text)
    case Some(v) => v
    case None => JArr([])
  }

  /** The normalised list for the model's reply. */
  function MaterialsFrom(content: Option<string>, parse: JsonParser): Result<seq<NormalMaterial>, string> {
    Normalize(ParsedOrEmpty(parse, StripFences(RawText(content))))
  }

  /** The outcome of one request: the reply (an `Err` is a 500), the cache
      afterwards, and whether the model was called. */
  datatype Handled = Handled(reply: Result<seq<NormalMaterial>, string>, entries: Entries, called: bool)

  /** `POST` as a function of the cache before the request. */
  function Handle(m: Entries, ttl: nat, req: ParseRequest, env: ParseEnv, llm: Llm, parse: JsonParser,
                  readNow: int, writeNow: int): Handled
  {
    if !EnvSet(env.apiKey) then Handled(Err(MissingKeyError), m, false)
    else
      var bypass := Bypass(req.cacheParam, req.cacheBust);
      var model := ResolveModel(env.model);
      var key := ParseKey(req.buildPlan, model);
      var cached := if bypass then None else Lookup(m, key, readNow);
      var before := if bypass then m else Purge(m, key, readNow);
      if cached.Some? then Handled(Ok(cached.value), before, false)
      else
        match llm(model, req.buildPlan)
        case Err(e) => Handled(Err(e), before, true)
        case Ok(content) =>
          match MaterialsFrom(content, parse)
          case Err(e) => Handled(Err(e), before, true)
          case Ok(list) => Handled(Ok(list), Store(before, key, list, writeNow, ttl), true)
  }

  /** The handler, against the cache object it owns. */
  method Post(cache: Cache<ParseKey, seq<NormalMaterial>>, req: ParseRequest, env: ParseEnv,
              llm: Llm, parse: JsonParser, readNow: int, writeNow: int)
    returns (reply: Result<seq<NormalMaterial>, string>, called: bool)
    modifies cache
    ensures Handled(reply, cache.entries, called)
         == Handle(old(cache.entries), cache.ttl, req, env, llm, parse, readNow, writeNow)
  {
    if !EnvSet(env.apiKey) {
      return Err(MissingKeyError), false;
    }
    var bypass := Bypass(req.cacheParam, req.cacheBust);
    var model := ResolveModel(env.model);
    var key := ParseKey(req.buildPlan, model);
    if !bypass {
      var cached := cache.Read(key, readNow);
      if cached.Some? {
        return Ok(cached.value), false;
      }
    }
    var response := llm(model, req.buildPlan);
    if response.Err? {
      return Err(response.error), true;
    }
    var normalized := MaterialsFrom(response.value, parse);
    if normalized.Err? {
      return Err(normalized.error), true;
    }
    cache.Write(key, normalized.value, writeNow);
    return normalized, true;
  }

  /** Without the key the request fails before the cache or the model is touched. */
  lemma MissingKeyFailsFast(m: Entries, ttl: nat, req: ParseRequest, env: ParseEnv, llm: Llm,
                            parse: JsonParser, readNow: int, writeNow: int)
    requires !EnvSet(env.apiKey)
    ensures Handle(m, ttl, req, env, llm, parse, readNow, writeNow) == Handled(Err("Missing OPENAI_API_KEY"), m, false)
  {
  }

  /** A live entry, without bypass, is returned as is: the model is not
      called and the cache is not changed. */
  lemma HitServesCache(m: Entries, ttl: nat, req: ParseRequest, env: ParseEnv, llm: Llm,
                       parse: JsonParser, readNow: int, writeNow: int, v: seq<NormalMaterial>)
    requires EnvSet(env.apiKey) && !Bypass(req.cacheParam, req.cacheBust)
    requires Lookup(m, ParseKey(req.buildPlan, ResolveModel(env.model)), readNow) == Some(v)
    ensures Handle(m, ttl, req, env, llm, parse, readNow, writeNow) == Handled(Ok(v), m, false)
  {
  }

  /** On a miss or a bypass the model is called, and a normalised list is
      both returned and written under the key, readable until
      `writeNow + ttl`; no other key gains or changes an entry. */
  lemma MissWritesResult(m: Entries, ttl: nat, req: ParseRequest, env: ParseEnv, llm: Llm,
                         parse: JsonParser, readNow: int, writeNow: int, list: seq<NormalMaterial>)
    requires EnvSet(env.apiKey)
    requires var key := ParseKey(req.buildPlan, ResolveModel(env.model));
      Bypass(req.cacheParam, req.cacheBust) || Lookup(m, key, readNow).None?
    requires var c := llm(ResolveModel(env.model), req.buildPlan);
      c.Ok? && MaterialsFrom(c.value, parse) == Ok(list)
    ensures var h, key := Handle(m, ttl, req, env, llm, parse, readNow, writeNow),
                          ParseKey(req.buildPlan, ResolveModel(env.model));
      && h.reply == Ok(list) && h.called
      && (forall now :: now <= writeNow + ttl ==> Lookup(h.entries, key, now) == Some(list))
      && (forall k :: k != key ==> (k in h.entries <==> k in m))
      && (forall k :: k != key && k in h.entries ==> h.entries[k] == m[k])
  {
  }

  /** With bypass the cache contents do not affect the reply: a pre-seeded
      entry is ignored and the model is always called. */
  lemma BypassIgnoresCache(m1: Entries, m2: Entries, ttl: nat, req: ParseRequest, env: ParseEnv, llm: Llm,
                           parse: JsonParser, readNow: int, writeNow: int)
    requires EnvSet(env.apiKey) && Bypass(req.cacheParam, req.cacheBust)
    ensures Handle(m1, ttl, req, env, llm, parse, readNow, writeNow).reply
         == Handle(m2, ttl, req, env, llm, parse, readNow, writeNow).reply
    ensures Handle(m1, ttl, req, env, llm, parse, readNow, writeNow).called
  {
  }

  /** A failed request (missing key, model error, or a `null` element in
      the parsed array) never adds or changes a cache entry. */
  lemma FailureWritesNothing(m: Entries, ttl: nat, req: ParseRequest, env: ParseEnv, llm: Llm,
                             parse: JsonParser, readNow: int, writeNow: int)
    requires Handle(m, ttl, req, env, llm, parse, readNow, writeNow).reply.Err?
    ensures var h := Handle(m, ttl, req, env, llm, parse, readNow, writeNow);
      forall k :: k in h.entries ==> k in m && h.entries[k] == m[k]
  {
  }

  /** A reply that `JSON.parse` rejects, or that parses to something other
      than an array, yields the empty list rather than an error. */
  lemma LenientParse(content: Option<string>, parse: JsonParser)
    requires var text := StripFences(RawText(content));
      parse(text).None? || !parse(text).value.JArr?
    ensures MaterialsFrom(content, parse) == Ok([])
  {
  }

  /** The fenced reply ```json\n[]\n``` yields the empty list. */
  lemma FencedEmptyList(parse: JsonParser)
    requires parse("[]") == Some(JArr([]))
    ensures MaterialsFrom(Some("```json\n[]\n```"), parse) == Ok([])
  {
    StripJsonEmptyList();
  }
}
