/** Properties of the plugin's translation that relate several calls, or a
    result to an independent reading of it. */
module PluginProperties {
  import opened Options
  import opened Json
  import opened Annotations
  import opened Plugin

  /** The builtin annotation a JSON-Schema type token stands for. */
  function TokenType(t: string): Option<Annotation>
  {
    if t == "string" then Some(StrType)
    else if t == "integer" then Some(IntType)
    else if t == "number" then Some(FloatType)
    else if t == "boolean" then Some(BoolType)
    else if t == "array" then Some(ListType)
    else if t == "object" then Some(DictType)
    else None
  }

  /** How a consumer of the document reads a type schema back: a `$ref` into
      the components section names a model, otherwise the `type` token names
      a builtin. */
  function ReadType(s: Value): Option<Annotation>
  {
    match Get(s, "$ref")
    case Some(Str(ref)) =>
      if |RefPrefix| <= |ref| && ref[..|RefPrefix|] == RefPrefix then Some(ModelType(ref[|RefPrefix|..]))
      else None
    case Some(_) => None
    case None =>
      match Get(s, "type")
      case Some(Str(t)) => TokenType(t)
      case _ => None
  }

  /** Reading a translated type gives back the annotation for every builtin
      of the table and every model; any other annotation reads as `str`,
      which is the documented fallback. */
  lemma ReadTypeInverts(a: Annotation)
    ensures ReadType(ProcessType(a)) == Some(if Translatable(a) then a else StrType)
  {
    if a.ModelType? {
      var ref := RefPrefix + a.name;
      assert ref[..|RefPrefix|] == RefPrefix;
      assert ref[|RefPrefix|..] == a.name;
    }
  }

  /** Distinct builtins and distinct models get distinct schemas. */
  lemma ProcessTypeInjective(a: Annotation, b: Annotation)
    requires Translatable(a) && Translatable(b)
    requires ProcessType(a) == ProcessType(b)
    ensures a == b
  {
    ReadTypeInverts(a);
    ReadTypeInverts(b);
  }

  /** An annotation outside the table that is not a model, a nested generic
      such as `list[int]` among them, is documented exactly like `str`. */
  lemma UnknownIsString(a: Annotation)
    requires !Translatable(a)
    ensures ProcessType(a) == ProcessType(StrType)
  {
  }

  /** The element type of `list[X]` and the value type of `dict[K, V]` can be
      read back from the field schema whenever the type table or a model
      covers them. */
  lemma ContainerElementRecovered(info: FieldInfo)
    ensures info.annotation.ListOf? && Translatable(info.annotation.elem) ==>
              && Get(ProcessField(info), "items").Some?
              && ReadType(Get(ProcessField(info), "items").value) == Some(info.annotation.elem)
    ensures info.annotation.DictOf? && Translatable(info.annotation.value) ==>
              && Get(ProcessField(info), "additionalProperties").Some?
              && ReadType(Get(ProcessField(info), "additionalProperties").value) == Some(info.annotation.value)
  {
    match info.annotation
    case ListOf(e) =>
      ReadTypeInverts(e);
      ListFieldShape(info);
    case DictOf(_, v) =>
      ReadTypeInverts(v);
      DictFieldShape(info);
    case _ =>
  }

  /** A field with a plain annotation the table or a model covers reads back
      as that annotation; its description does not get in the way. */
  lemma PlainFieldReadsBack(info: FieldInfo)
    requires !HasOrigin(info.annotation) && Translatable(info.annotation)
    ensures ReadType(ProcessField(info)) == Some(info.annotation)
  {
    ReadTypeInverts(info.annotation);
    PlainFieldShape(info);
  }

  /** In a model's schema, the entry of every field with a plain, covered
      annotation reads back as that annotation. */
  lemma ModelFieldReadsBack(m: ModelClass, i: nat)
    requires DistinctNames(m.fields)
    requires i < |m.fields|
    requires !HasOrigin(m.fields[i].info.annotation) && Translatable(m.fields[i].info.annotation)
    ensures Get(Get(Translate(m), "properties").value, m.fields[i].name).Some?
    ensures ReadType(Get(Get(Translate(m), "properties").value, m.fields[i].name).value) ==
            Some(m.fields[i].info.annotation)
  {
    TranslateDescribes(m);
    PlainFieldReadsBack(m.fields[i].info);
  }

  /** The key type of a `dict[K, V]` field does not influence its schema. */
  lemma DictKeyIgnored(k1: Annotation, k2: Annotation, v: Annotation, d: Option<string>)
    ensures ProcessField(FieldInfo(DictOf(k1, v), d)) == ProcessField(FieldInfo(DictOf(k2, v), d))
  {
  }

  /** Every cached schema is a model schema titled with the name it is cached under. */
  ghost predicate CacheInv(cache: Cache)
  {
    forall n :: n in cache ==> TitledSchema(cache[n], n)
  }

  /** `_process_model` keeps the cache consistent, and what it returns is a
      schema titled with the model's name whether it was built or cached. */
  lemma ProcessModelKeepsCacheInv(m: ModelClass, cache: Cache)
    requires DistinctNames(m.fields)
    requires CacheInv(cache)
    ensures CacheInv(ProcessModel(m, cache).cache)
    ensures TitledSchema(ProcessModel(m, cache).schema, m.name)
  {
  }

  /** A cache hit is decided by name alone: two models with the same name
      get the same answer, whatever their fields. */
  lemma CacheHitIgnoresFields(m1: ModelClass, m2: ModelClass, cache: Cache)
    requires DistinctNames(m1.fields) && DistinctNames(m2.fields)
    requires m1.name == m2.name && m1.name in cache
    ensures ProcessModel(m1, cache) == ProcessModel(m2, cache)
  {
  }

  /** Translating a model a second time returns the first schema and leaves
      the cache as the first call left it. */
  lemma ProcessModelIdempotent(m: ModelClass, cache: Cache)
    requires DistinctNames(m.fields)
    ensures ProcessModel(m, ProcessModel(m, cache).cache) == ProcessModel(m, cache)
  {
  }

  /** `schema_helper` ignores the component name apispec passes. */
  lemma SchemaHelperIgnoresName(n1: string, n2: string, definition: Definition, cache: Cache)
    requires definition.Model? ==> DistinctNames(definition.model.fields)
    ensures SchemaHelper(n1, definition, cache) == SchemaHelper(n2, definition, cache)
  {
  }

  /** The schemas returned by a run of `_process_model` calls and the cache after it. */
  datatype Run = Run(schemas: seq<Value>, cache: Cache)

  /** The names of a sequence of models. */
  function NamesOf(models: seq<ModelClass>): set<string>
  {
    set i | 0 <= i < |models| :: models[i].name
  }

  /** One plugin instance asked to translate `models` in order, starting
      from `cache`. */
  function ProcessAll(models: seq<ModelClass>, cache: Cache): (r: Run)
    requires forall i :: 0 <= i < |models| ==> DistinctNames(models[i].fields)
    ensures |r.schemas| == |models|
    decreases |models|
  {
    if |models| == 0 then Run([], cache)
    else
      var step := ProcessModel(models[0], cache);
      var rest := ProcessAll(models[1..], step.cache);
      Run([step.schema] + rest.schemas, rest.cache)
  }

  /** A run only adds entries: what was cached stays cached unchanged, and
      the names added are exactly the names translated. */
  lemma {:induction false} RunOnlyAdds(models: seq<ModelClass>, cache: Cache)
    requires forall i :: 0 <= i < |models| ==> DistinctNames(models[i].fields)
    ensures ProcessAll(models, cache).cache.Keys == cache.Keys + NamesOf(models)
    ensures forall n :: n in cache ==> ProcessAll(models, cache).cache[n] == cache[n]
    decreases |models|
  {
    if |models| > 0 {
      var step := ProcessModel(models[0], cache);
      RunOnlyAdds(models[1..], step.cache);
      NamesOfCons(models);
    }
  }

  /** Every call of a run returns the schema the cache holds for that name at the end. */
  lemma {:induction false} RunReturnsCached(models: seq<ModelClass>, cache: Cache, i: nat)
    requires forall i :: 0 <= i < |models| ==> DistinctNames(models[i].fields)
    requires i < |models|
    ensures models[i].name in ProcessAll(models, cache).cache
    ensures ProcessAll(models, cache).schemas[i] == ProcessAll(models, cache).cache[models[i].name]
    decreases |models|
  {
    var step := ProcessModel(models[0], cache);
    var rest := ProcessAll(models[1..], step.cache);
    RunOnlyAdds(models[1..], step.cache);
    if i > 0 {
      assert models[1..][i - 1] == models[i];
      RunReturnsCached(models[1..], step.cache, i - 1);
    }
  }

  /** First registration wins: the first model of a name the cache did not
      hold decides the schema cached, and so returned, for that name. */
  lemma {:induction false} FirstRegistrationWins(models: seq<ModelClass>, cache: Cache, i: nat)
    requires forall i :: 0 <= i < |models| ==> DistinctNames(models[i].fields)
    requires i < |models| && models[i].name !in cache
    requires forall j :: 0 <= j < i ==> models[j].name != models[i].name
    ensures models[i].name in ProcessAll(models, cache).cache
    ensures ProcessAll(models, cache).cache[models[i].name] == Translate(models[i])
    decreases |models|
  {
    var step := ProcessModel(models[0], cache);
    RunOnlyAdds(models[1..], step.cache);
    if i > 0 {
      assert models[1..][i - 1] == models[i];
      forall j | 0 <= j < i - 1
        ensures models[1..][j].name != models[i].name
      {
        assert models[1..][j] == models[j + 1];
      }
      FirstRegistrationWins(models[1..], step.cache, i - 1);
    }
  }

  lemma NamesOfCons(models: seq<ModelClass>)
    requires |models| > 0
    ensures NamesOf(models) == {models[0].name} + NamesOf(models[1..])
  {
    forall n | n in NamesOf(models)
      ensures n in {models[0].name} + NamesOf(models[1..])
    {
      var i :| 0 <= i < |models| && models[i].name == n;
      if i > 0 { assert models[1..][i - 1] == models[i]; }
    }
  }

  /** Every schema a run caches is titled by the name it is cached under,
      provided that already held of the cache the run started from. */
  lemma {:induction false} RunKeepsCacheInv(models: seq<ModelClass>, cache: Cache)
    requires forall i :: 0 <= i < |models| ==> DistinctNames(models[i].fields)
    requires CacheInv(cache)
    ensures CacheInv(ProcessAll(models, cache).cache)
    decreases |models|
  {
    if |models| > 0 {
      var step := ProcessModel(models[0], cache);
      ProcessModelKeepsCacheInv(models[0], cache);
      RunKeepsCacheInv(models[1..], step.cache);
    }
  }

  /** Starting from the empty cache of a new plugin, the cache after a run
      holds exactly the names translated, each with a schema titled by its name. */
  lemma FreshPluginRun(models: seq<ModelClass>)
    requires forall i :: 0 <= i < |models| ==> DistinctNames(models[i].fields)
    ensures ProcessAll(models, EmptyCache).cache.Keys == NamesOf(models)
    ensures CacheInv(ProcessAll(models, EmptyCache).cache)
  {
    RunOnlyAdds(models, EmptyCache);
    RunKeepsCacheInv(models, EmptyCache);
  }
}
