/**
 * The provider resolution registry: ModelRegistryFactory
 * (src/factories/model_registry_factory.ts) together with its only concrete
 * subclass ChatModelFactoryRegistry (src/factories/chat_model_registry_factory.ts).
 *
 * The JavaScript `Map` of entries is a sequence of keys in insertion order
 * with no duplicates, plus a map from key to entry. `Map.set` on a key that
 * is already present keeps the key's position; a new key goes last.
 *
 * Vendor constructors are external: `ChatEngine` stands for
 * `create_chat_model_engine(key)(options, context)` and `OpenAIConstructor`
 * for `create_openai_chat_model(options)`.
 */
module Registry {
  import opened Wrappers
  import opened Values
  import opened Matcher

  /** A user-supplied `create_llm(options, context)`. */
  type CreateFn = (Options, Context) -> Handle

  /** `create_chat_model_engine(key)` applied to `(options, context)`. */
  type ChatEngine = (string, Options, Context) -> Handle

  /** `create_openai_chat_model(options)`, the fallback of `build`. */
  type OpenAIConstructor = Options -> Handle

  /** How an entry makes its model: a fixed instance, a custom function, or the engine for a key. */
  datatype Creator =
    | Singleton(llm: Handle)
    | Custom(fn: CreateFn)
    | Engine(key: string)

  /** Registration information: what the registry stores under an entry's name. */
  datatype Entry = Entry(
    name: string,
    options: Options,
    isMatch: Option<CompiledMatcher>,
    createLlm: Creator)

  /** The descriptor a caller registers: `{ name, provider?, test?, include?, exclude?, options?, llm?, create_llm? }`. */
  datatype Init = Init(
    name: string,
    provider: Option<string>,
    test: Condition,
    includes: Conditions,
    excludes: Conditions,
    options: Option<Options>,
    llm: Option<Handle>,
    createLlm: Option<CreateFn>)

  /** A string field that is set and non-empty. */
  predicate TruthyString(s: Option<string>) {
    s.Some? && s.value != ""
  }

  // ---------------------------------------------------------------------
  // Building an entry from its descriptor
  // ---------------------------------------------------------------------

  /** create_llm_engine: the engine is keyed by `provider || name`. */
  function CreateLlmEngine(init: Init): (key: string)
    ensures TruthyString(init.provider) ==> key == init.provider.value
    ensures !TruthyString(init.provider) ==> key == init.name
  {
    if TruthyString(init.provider) then init.provider.value else init.name
  }

  /** resolve_llm_engine: a fixed `llm` first, then a `create_llm` function, then the engine. */
  function ResolveLlmEngine(init: Init): (c: Creator)
    ensures init.llm.Some? ==> c == Singleton(init.llm.value)
    ensures init.llm.None? && init.createLlm.Some? ==> c == Custom(init.createLlm.value)
    ensures init.llm.None? && init.createLlm.None? ==> c == Engine(CreateLlmEngine(init))
  {
    match init.llm
    case Some(llm) => Singleton(llm)
    case None =>
      match init.createLlm
      case Some(fn) => Custom(fn)
      case None => Engine(CreateLlmEngine(init))
  }

  /** The test condition an entry's matcher gets: `test || provider || name`. */
  function DefaultTest(init: Init): (c: Condition)
    ensures !Falsy(init.test) ==> c == init.test
    ensures Falsy(init.test) && TruthyString(init.provider) ==> c == Pattern(init.provider.value)
    ensures Falsy(init.test) && !TruthyString(init.provider) ==> c == Pattern(init.name)
    ensures Falsy(c) <==> Falsy(init.test) && !TruthyString(init.provider) && init.name == ""
  {
    if !Falsy(init.test) then init.test
    else if TruthyString(init.provider) then Pattern(init.provider.value)
    else Pattern(init.name)
  }

  /**
   * resolve_model_matcher: the entry's own test, or else its provider, or
   * else its name, used as a pattern, with the entry's include and exclude.
   */
  function ResolveModelMatcher(init: Init): (r: Result<CompiledMatcher, Error>)
    ensures r.Failure? <==> init.test.Invalid? || ConditionsHaveInvalid(init.includes) || ConditionsHaveInvalid(init.excludes)
    ensures r.Success? && !Falsy(init.test) ==> r.value.test == NormalizeMatchCondition(init.test).value
    ensures r.Success? && Falsy(init.test) && TruthyString(init.provider) ==>
              r.value.test == Some(RegexTest(init.provider.value, ""))
    ensures r.Success? && Falsy(init.test) && !TruthyString(init.provider) ==>
              r.value.test == (if init.name == "" then None else Some(RegexTest(init.name, "")))
    ensures r.Success? ==> Success(r.value.includes) == NormalizeMatchRules(init.includes)
    ensures r.Success? ==> Success(r.value.excludes) == NormalizeMatchRules(init.excludes)
  {
    CreateMatcher(Rule(DefaultTest(init), init.includes, init.excludes))
  }

  /** resolve_registration_information: the entry record; compiling its matcher may throw. */
  function ResolveRegistrationInformation(init: Init): (r: Result<Entry, Error>)
    ensures r.Failure? <==> ResolveModelMatcher(init).Failure?
    ensures r.Success? ==>
      && r.value.name == init.name
      && r.value.options == (if init.options.Some? then init.options.value else map[])
      && r.value.isMatch == Some(ResolveModelMatcher(init).value)
      && r.value.createLlm == ResolveLlmEngine(init)
  {
    var matcher :- ResolveModelMatcher(init);
    Success(Entry(init.name, if init.options.Some? then init.options.value else map[],
                  Some(matcher), ResolveLlmEngine(init)))
  }

  /** `entries?.map(...)` in the constructor: resolve every descriptor, in order; the first error throws. */
  function ResolveAll(inits: seq<Init>): (r: Result<seq<Entry>, Error>)
    ensures r.Failure? <==> exists i :: 0 <= i < |inits| && ResolveRegistrationInformation(inits[i]).Failure?
    ensures r.Success? ==> |r.value| == |inits|
    ensures r.Success? ==> forall i :: 0 <= i < |inits| ==> Success(r.value[i]) == ResolveRegistrationInformation(inits[i])
  {
    if inits == [] then Success([])
    else
      var head :- ResolveRegistrationInformation(inits[0]);
      var tail :- ResolveAll(inits[1..]);
      assert forall i :: 1 <= i < |inits| ==> inits[i] == inits[1..][i - 1];
      Success([head] + tail)
  }

  // ---------------------------------------------------------------------
  // Applying an entry
  // ---------------------------------------------------------------------

  /** `{ ...defaults, ...overrides }`: the caller's keys win, the other defaults are kept. */
  function Merge(defaults: Options, overrides: Options): (r: Options)
    ensures r.Keys == defaults.Keys + overrides.Keys
    ensures forall k :: k in overrides ==> r[k] == overrides[k]
    ensures forall k :: k in defaults && k !in overrides ==> r[k] == defaults[k]
  {
    defaults + overrides
  }

  /** Calling an entry's `create_llm`: a fixed instance ignores options and context. */
  function Apply(c: Creator, engine: ChatEngine, options: Options, ctx: Context): (h: Handle)
    ensures c.Singleton? ==> h == c.llm
    ensures c.Custom? ==> h == c.fn(options, ctx)
    ensures c.Engine? ==> h == engine(c.key, options, ctx)
  {
    match c
    case Singleton(llm) => llm
    case Custom(fn) => fn(options, ctx)
    case Engine(key) => engine(key, options, ctx)
  }

  /** `typeof info.is_match === 'function' && info.is_match(query, context)`. */
  predicate Accepts(e: Entry, re: RegexEngine, query: string, ctx: Context) {
    e.isMatch.Some? && IsMatch(e.isMatch.value, re, query, ctx)
  }

  // ---------------------------------------------------------------------
  // The ordered map
  // ---------------------------------------------------------------------

  ghost predicate Distinct(keys: seq<string>) {
    forall i, j :: 0 <= i < j < |keys| ==> keys[i] != keys[j]
  }

  /** The invariant of the registry's map: ordered distinct keys, exactly the keys of `entries`. */
  ghost predicate WellFormed(keys: seq<string>, entries: map<string, Entry>) {
    Distinct(keys) && forall k :: k in entries <==> k in keys
  }

  /** The key order after `Map.set(k, ...)`. */
  function SetKey(keys: seq<string>, k: string): (r: seq<string>)
    ensures forall x :: x in r <==> x in keys || x == k
    ensures Distinct(keys) ==> Distinct(r)
    ensures k in keys ==> r == keys
    ensures k !in keys ==> r == keys + [k]
  {
    if k in keys then keys else keys + [k]
  }

  function IndexOf(keys: seq<string>, k: string): (i: nat)
    requires k in keys
    ensures i < |keys| && keys[i] == k
    ensures forall j :: 0 <= j < i ==> keys[j] != k
  {
    if keys[0] == k then 0 else 1 + IndexOf(keys[1..], k)
  }

  /** The key order after `Map.delete(k)`: only `k` leaves, the others keep their order. */
  function DeleteKey(keys: seq<string>, k: string): (r: seq<string>)
    ensures k !in keys ==> r == keys
    ensures k in keys ==> |r| == |keys| - 1
    ensures k in keys ==> forall j :: 0 <= j < |r| ==> r[j] == keys[if j < IndexOf(keys, k) then j else j + 1]
    ensures Distinct(keys) ==> Distinct(r) && forall x :: x in r <==> x in keys && x != k
  {
    if k in keys then
      var i := IndexOf(keys, k);
      var r := keys[..i] + keys[i + 1..];
      assert forall j :: 0 <= j < |r| ==> r[j] == keys[if j < i then j else j + 1];
      r
    else keys
  }

  /** Setting a new key and then deleting it gives back the original key order. */
  lemma SetThenDeleteKey(keys: seq<string>, k: string)
    requires k !in keys
    ensures DeleteKey(SetKey(keys, k), k) == keys
  {
  }

  /** The keys of `new Map(entries.map(e => [e.name, e]))`: successive `set`s. */
  function KeysOf(es: seq<Entry>): seq<string> {
    if es == [] then [] else SetKey(KeysOf(es[..|es| - 1]), es[|es| - 1].name)
  }

  /** The values of `new Map(entries.map(e => [e.name, e]))`: the last entry of each name wins. */
  function EntriesOf(es: seq<Entry>): map<string, Entry> {
    if es == [] then map[] else EntriesOf(es[..|es| - 1])[es[|es| - 1].name := es[|es| - 1]]
  }

  /** Building the map entry by entry keeps it well formed, and every name is a key. */
  lemma {:induction false} MapOfEntriesWellFormed(es: seq<Entry>)
    ensures WellFormed(KeysOf(es), EntriesOf(es))
    ensures forall i :: 0 <= i < |es| ==> es[i].name in EntriesOf(es)
  {
    if es != [] {
      var init := es[..|es| - 1];
      MapOfEntriesWellFormed(init);
      forall i | 0 <= i < |es| - 1
        ensures es[i].name in EntriesOf(es)
      {
        assert es[i] == init[i];
      }
    }
  }

  // ---------------------------------------------------------------------
  // Searching
  // ---------------------------------------------------------------------

  /** The first entry from position `i` on, in insertion order, whose matcher accepts the query. */
  function FirstMatchFrom(keys: seq<string>, entries: map<string, Entry>, re: RegexEngine,
                          i: nat, query: string, ctx: Context): (r: Option<Entry>)
    requires i <= |keys|
    requires forall j :: 0 <= j < |keys| ==> keys[j] in entries
    ensures r.None? <==> forall j :: i <= j < |keys| ==> !Accepts(entries[keys[j]], re, query, ctx)
    ensures r.Some? ==>
              exists j :: i <= j < |keys| && r.value == entries[keys[j]]
                          && Accepts(entries[keys[j]], re, query, ctx)
                          && forall l :: i <= l < j ==> !Accepts(entries[keys[l]], re, query, ctx)
    decreases |keys| - i
  {
    if i == |keys| then None
    else if Accepts(entries[keys[i]], re, query, ctx) then Some(entries[keys[i]])
    else FirstMatchFrom(keys, entries, re, i + 1, query, ctx)
  }

  /** search: the entry stored under the query itself, else the first entry whose matcher accepts it. */
  function SearchSpec(keys: seq<string>, entries: map<string, Entry>, re: RegexEngine,
                      query: string, ctx: Context): Option<Entry>
    requires WellFormed(keys, entries)
  {
    if query in entries then Some(entries[query]) else FirstMatchFrom(keys, entries, re, 0, query, ctx)
  }

  /**
   * `options[field]` when it is truthy; the map's keys are strings and the
   * search query is matched as a string, so only a string value is used.
   */
  function OptionString(options: Options, field: string): (r: Option<string>)
    ensures r.Some? <==> field in options && options[field].Str? && options[field].s != ""
    ensures r.Some? ==> options[field] == Str(r.value)
  {
    if field in options && Truthy(options[field]) && options[field].Str?
    then Some(options[field].s) else None
  }

  /** `options.provider`, as a key. */
  function ProviderKey(options: Options): Option<string> {
    OptionString(options, "provider")
  }

  /** `options.model`, as a search query. */
  function ModelQuery(options: Options): Option<string> {
    OptionString(options, "model")
  }

  /**
   * What search finds: the entry under the query itself whenever there is
   * one; otherwise the first entry in insertion order whose matcher accepts,
   * or nothing when no matcher does.
   */
  lemma SearchFindsFirstAccepting(keys: seq<string>, entries: map<string, Entry>, re: RegexEngine,
                                  query: string, ctx: Context)
    requires WellFormed(keys, entries)
    ensures query in entries ==> SearchSpec(keys, entries, re, query, ctx) == Some(entries[query])
    ensures query !in entries && SearchSpec(keys, entries, re, query, ctx).None? ==>
              forall j :: 0 <= j < |keys| ==> !Accepts(entries[keys[j]], re, query, ctx)
    ensures query !in entries && SearchSpec(keys, entries, re, query, ctx).Some? ==>
              exists j :: 0 <= j < |keys| && SearchSpec(keys, entries, re, query, ctx).value == entries[keys[j]]
                          && Accepts(entries[keys[j]], re, query, ctx)
                          && forall l :: 0 <= l < j ==> !Accepts(entries[keys[l]], re, query, ctx)
  {
  }

  /** The entry create_llm picks: by provider key first, then by searching the model name. */
  function Lookup(keys: seq<string>, entries: map<string, Entry>, re: RegexEngine,
                  options: Options, ctx: Context): (r: Option<Entry>)
    requires WellFormed(keys, entries)
    ensures r.Some? ==> exists j :: 0 <= j < |keys| && r.value == entries[keys[j]]
    ensures ProviderKey(options).None? && ModelQuery(options).None? ==> r.None?
  {
    var provider := ProviderKey(options);
    if provider.Some? && provider.value in entries then Some(entries[provider.value])
    else if ModelQuery(options).Some? then SearchSpec(keys, entries, re, ModelQuery(options).value, ctx)
    else None
  }

  /** What create_llm returns: the chosen entry's creator applied to the merged options, or nothing. */
  function ResolveSpec(keys: seq<string>, entries: map<string, Entry>, re: RegexEngine, engine: ChatEngine,
                       options: Options, ctx: Context): Option<Handle>
    requires WellFormed(keys, entries)
  {
    match Lookup(keys, entries, re, options, ctx)
    case Some(e) => Some(Apply(e.createLlm, engine, Merge(e.options, options), ctx))
    case None => None
  }

  /** With no entries at all nothing resolves, whatever the options and context. */
  lemma EmptyRegistryResolvesNothing(re: RegexEngine, engine: ChatEngine, options: Options, ctx: Context)
    ensures ResolveSpec([], map[], re, engine, options, ctx) == None
  {
  }

  // ---------------------------------------------------------------------
  // The registry object
  // ---------------------------------------------------------------------

  class ChatModelFactoryRegistry {
    var keys: seq<string>
    var entries: map<string, Entry>
    const regex: RegexEngine
    const chatEngine: ChatEngine
    const openAI: OpenAIConstructor

    ghost predicate Valid()
      reads this
    {
      WellFormed(keys, entries)
    }

    /** `new Map(iterable)` over already-resolved entries. */
    constructor (resolved: seq<Entry>, regex: RegexEngine, chatEngine: ChatEngine, openAI: OpenAIConstructor)
      ensures Valid()
      ensures keys == KeysOf(resolved) && entries == EntriesOf(resolved)
      ensures this.regex == regex && this.chatEngine == chatEngine && this.openAI == openAI
    {
      this.regex := regex;
      this.chatEngine := chatEngine;
      this.openAI := openAI;
      keys := [];
      entries := map[];
      new;
      var i := 0;
      while i < |resolved|
        invariant 0 <= i <= |resolved|
        invariant keys == KeysOf(resolved[..i]) && entries == EntriesOf(resolved[..i])
      {
        assert resolved[..i + 1][..i] == resolved[..i];
        keys := SetKey(keys, resolved[i].name);
        entries := entries[resolved[i].name := resolved[i]];
        i := i + 1;
      }
      assert resolved[..i] == resolved;
      MapOfEntriesWellFormed(resolved);
    }

    /**
     * The public constructor: resolve every descriptor (which throws on an
     * invalid rule, before any map exists), then build the map.
     */
    static method Create(inits: seq<Init>, regex: RegexEngine, chatEngine: ChatEngine, openAI: OpenAIConstructor)
      returns (r: Result<ChatModelFactoryRegistry, Error>)
      ensures r.Failure? <==> exists i :: 0 <= i < |inits| && ResolveRegistrationInformation(inits[i]).Failure?
      ensures r.Success? ==>
        && fresh(r.value) && r.value.Valid()
        && r.value.keys == KeysOf(ResolveAll(inits).value)
        && r.value.entries == EntriesOf(ResolveAll(inits).value)
        && r.value.regex == regex && r.value.chatEngine == chatEngine && r.value.openAI == openAI
    {
      var resolved := ResolveAll(inits);
      if resolved.Failure? {
        return Failure(resolved.error);
      }
      var registry := new ChatModelFactoryRegistry(resolved.value, regex, chatEngine, openAI);
      return Success(registry);
    }

    /**
     * search: an exact key wins regardless of any matcher; otherwise the
     * first entry in insertion order whose matcher accepts the query.
     */
    method Search(query: string, ctx: Context) returns (r: Option<Entry>)
      requires Valid()
      ensures r == SearchSpec(keys, entries, regex, query, ctx)
    {
      if query in entries {
        return Some(entries[query]);
      }
      var i := 0;
      while i < |keys|
        invariant 0 <= i <= |keys|
        invariant FirstMatchFrom(keys, entries, regex, i, query, ctx) == FirstMatchFrom(keys, entries, regex, 0, query, ctx)
      {
        var info := entries[keys[i]];
        if Accepts(info, regex, query, ctx) {
          return Some(info);
        }
        i := i + 1;
      }
      return None;
    }

    /** The chat registry's `search`, whose context defaults to `{}`. */
    method SearchWithDefaultContext(query: string) returns (r: Option<Entry>)
      requires Valid()
      ensures r == SearchSpec(keys, entries, regex, query, map[])
      ensures query in entries ==> r == Some(entries[query])
    {
      r := Search(query, map[]);
    }

    /**
     * create_llm: a provider key that is registered wins; otherwise a model
     * name is searched; the chosen entry's creator gets the entry's options
     * overridden by the caller's.
     */
    method CreateLlm(options: Options, ctx: Context) returns (r: Option<Handle>)
      requires Valid()
      ensures r == ResolveSpec(keys, entries, regex, chatEngine, options, ctx)
      ensures ProviderKey(options).Some? && ProviderKey(options).value in entries ==>
                var e := entries[ProviderKey(options).value];
                r == Some(Apply(e.createLlm, chatEngine, Merge(e.options, options), ctx))
      ensures !(ProviderKey(options).Some? && ProviderKey(options).value in entries) && ModelQuery(options).Some? ==>
                match SearchSpec(keys, entries, regex, ModelQuery(options).value, ctx)
                case Some(e) => r == Some(Apply(e.createLlm, chatEngine, Merge(e.options, options), ctx))
                case None => r.None?
      ensures !(ProviderKey(options).Some? && ProviderKey(options).value in entries) && ModelQuery(options).None? ==>
                r.None?
    {
      var item: Option<Entry> := None;
      var provider := ProviderKey(options);
      if provider.Some? && provider.value in entries {
        item := Some(entries[provider.value]);
      }
      var model := ModelQuery(options);
      if item.None? && model.Some? {
        item := Search(model.value, ctx);
      }
      if item.None? {
        return None;
      }
      var e := item.value;
      return Some(Apply(e.createLlm, chatEngine, Merge(e.options, options), ctx));
    }

    /** build: the registry's model when one resolves, else the OpenAI model on the caller's options alone. */
    method Build(options: Options, ctx: Context) returns (h: Handle)
      requires Valid()
      ensures ResolveSpec(keys, entries, regex, chatEngine, options, ctx).Some? ==>
                h == ResolveSpec(keys, entries, regex, chatEngine, options, ctx).value
      ensures ResolveSpec(keys, entries, regex, chatEngine, options, ctx).None? ==> h == openAI(options)
    {
      var llm := CreateLlm(options, ctx);
      if llm.Some? {
        return llm.value;
      }
      return openAI(options);
    }

    /** append: `Map.set(info.name, info)`. */
    method Append(info: Entry)
      requires Valid()
      modifies this
      ensures Valid()
      ensures keys == SetKey(old(keys), info.name)
      ensures entries == old(entries)[info.name := info]
    {
      keys := SetKey(keys, info.name);
      entries := entries[info.name := info];
    }

    /**
     * register: a duplicate name only warns and is replaced (the key keeps its
     * place); a descriptor with an invalid rule throws and changes nothing.
     */
    method Register(init: Init) returns (duplicate: bool, error: Option<Error>)
      requires Valid()
      modifies this
      ensures Valid()
      ensures duplicate == (init.name in old(entries))
      ensures error.Some? <==> ResolveRegistrationInformation(init).Failure?
      ensures error.Some? ==> keys == old(keys) && entries == old(entries)
      ensures error.None? ==>
                && keys == SetKey(old(keys), init.name)
                && entries == old(entries)[init.name := ResolveRegistrationInformation(init).value]
    {
      duplicate := init.name in entries;
      var info := ResolveRegistrationInformation(init);
      if info.Failure? {
        return duplicate, Some(info.error);
      }
      Append(info.value);
      error := None;
    }

    /** remove: `Map.delete(name)`; nothing happens when the name is absent. */
    method Remove(name: string)
      requires Valid()
      modifies this
      ensures Valid()
      ensures keys == DeleteKey(old(keys), name)
      ensures entries == old(entries) - {name}
      ensures name !in old(entries) ==> keys == old(keys) && entries == old(entries)
    {
      keys := DeleteKey(keys, name);
      entries := entries - {name};
    }

    /** reset: `Map.clear()`; afterwards nothing resolves. */
    method Reset()
      requires Valid()
      modifies this
      ensures Valid()
      ensures keys == [] && entries == map[]
      ensures forall options, ctx :: ResolveSpec(keys, entries, regex, chatEngine, options, ctx).None?
    {
      keys := [];
      entries := map[];
    }
  }

  /**
   * Registering a name that is not yet present and then removing it leaves
   * the registry as it was, order of the remaining keys included.
   */
  method RegisterThenRemove(registry: ChatModelFactoryRegistry, init: Init)
    requires registry.Valid() && init.name !in registry.entries
    modifies registry
    ensures registry.Valid()
    ensures registry.keys == old(registry.keys) && registry.entries == old(registry.entries)
  {
    var duplicate, error := registry.Register(init);
    registry.Remove(init.name);
    if error.None? {
      SetThenDeleteKey(old(registry.keys), init.name);
    }
  }

  /** The documented entry `{ name: 'tongyi', test: /^(qwen|baichuan)/ }`. */
  const TongyiInit := Init("tongyi", None, Regex("^(qwen|baichuan)", ""), Single(Absent), Single(Absent), None, None, None)

  /** What the registry stores for it: no options, a matcher testing the pattern, the "tongyi" engine. */
  const TongyiEntry := Entry("tongyi", map[], Some(CompiledMatcher(Some(RegexTest("^(qwen|baichuan)", "")), [], [])), Engine("tongyi"))

  lemma TongyiResolvesByProvider(regex: RegexEngine, chatEngine: ChatEngine)
    ensures var options := map["provider" := Str("tongyi")];
      ResolveSpec(["tongyi"], map["tongyi" := TongyiEntry], regex, chatEngine, options, map[])
        == Some(chatEngine("tongyi", options, map[]))
  {
    var options := map["provider" := Str("tongyi")];
    assert ProviderKey(options) == Some("tongyi");
    assert Merge(map[], options) == options;
  }

  lemma TongyiResolvesByModel(regex: RegexEngine, chatEngine: ChatEngine)
    requires regex("^(qwen|baichuan)", "", "baichuan-7b-v1")
    ensures var options := map["model" := Str("baichuan-7b-v1")];
      ResolveSpec(["tongyi"], map["tongyi" := TongyiEntry], regex, chatEngine, options, map[])
        == Some(chatEngine("tongyi", options, map[]))
  {
    var options := map["model" := Str("baichuan-7b-v1")];
    assert ProviderKey(options).None? && ModelQuery(options) == Some("baichuan-7b-v1");
    assert Accepts(TongyiEntry, regex, "baichuan-7b-v1", map[]);
    assert Merge(map[], options) == options;
  }

  lemma TongyiMissesOtherModels(regex: RegexEngine, chatEngine: ChatEngine)
    requires !regex("^(qwen|baichuan)", "", "llama2-13b-chat-v2")
    ensures ResolveSpec(["tongyi"], map["tongyi" := TongyiEntry], regex, chatEngine,
                        map["model" := Str("llama2-13b-chat-v2")], map[]).None?
  {
    var options := map["model" := Str("llama2-13b-chat-v2")];
    assert ProviderKey(options).None? && ModelQuery(options) == Some("llama2-13b-chat-v2");
    assert !Accepts(TongyiEntry, regex, "llama2-13b-chat-v2", map[]);
  }

  /**
   * The documented example: the "tongyi" entry is reached by its provider
   * key and by a model name its pattern accepts; any other model name falls
   * back to the OpenAI model.
   */
  method TongyiExample(regex: RegexEngine, chatEngine: ChatEngine, openAI: OpenAIConstructor)
    returns (byProvider: Handle, byModel: Handle, fallback: Handle)
    requires regex("^(qwen|baichuan)", "", "baichuan-7b-v1")
    requires !regex("^(qwen|baichuan)", "", "llama2-13b-chat-v2")
    ensures byProvider == chatEngine("tongyi", map["provider" := Str("tongyi")], map[])
    ensures byModel == chatEngine("tongyi", map["model" := Str("baichuan-7b-v1")], map[])
    ensures fallback == openAI(map["model" := Str("llama2-13b-chat-v2")])
  {
    assert ResolveRegistrationInformation(TongyiInit) == Success(TongyiEntry);
    assert [TongyiInit][1..] == [] && [TongyiEntry] + [] == [TongyiEntry];
    assert ResolveAll([TongyiInit]) == Success([TongyiEntry]);
    var created := ChatModelFactoryRegistry.Create([TongyiInit], regex, chatEngine, openAI);
    assert created.Success?;
    var registry := created.value;
    assert [TongyiEntry][..0] == [];
    assert registry.keys == ["tongyi"] && registry.entries == map["tongyi" := TongyiEntry];
    TongyiResolvesByProvider(regex, chatEngine);
    TongyiResolvesByModel(regex, chatEngine);
    TongyiMissesOtherModels(regex, chatEngine);
    byProvider := registry.Build(map["provider" := Str("tongyi")], map[]);
    byModel := registry.Build(map["model" := Str("baichuan-7b-v1")], map[]);
    fallback := registry.Build(map["model" := Str("llama2-13b-chat-v2")], map[]);
  }
}
