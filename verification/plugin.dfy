/** The apispec plugin that turns pydantic models into OpenAPI 3 schema
    objects: `schema_helper`, `_process_model`, `_process_field` and
    `_process_type`. The plugin's only state, the `processed_models` dict,
    is a `Cache` passed in and returned. */
module Plugin {
  import opened Options
  import opened Json
  import opened Annotations

  /** Where a model reference points: the shared components section. */
  const RefPrefix: string := "#/components/schemas/"

  /** Every JSON-Schema `type` token the translation can emit. */
  const TypeTokens: set<string> := {"string", "integer", "number", "boolean", "array", "object"}

  /** The annotations listed in `_process_type`'s lookup table. */
  predicate InTypeTable(a: Annotation)
  {
    a.StrType? || a.IntType? || a.FloatType? || a.BoolType? || a.ListType? || a.DictType?
  }

  /** The annotations `_process_type` translates faithfully rather than by the fallback. */
  predicate Translatable(a: Annotation)
  {
    InTypeTable(a) || a.ModelType?
  }

  /** A schema holding nothing but a `type` token. */
  function TypeOnly(t: string): (r: Value)
    ensures r.Obj? && Keys(r.members) == ["type"] && DistinctKeys(r.members)
    ensures forall k :: Get(r, k) == if k == "type" then Some(Str(t)) else None
  {
    LookupOne("type", Str(t));
    Obj([Member("type", Str(t))])
  }

  /** `_process_type`: the schema of an annotation used as a whole type or as
      the element/value type of a container. Total: an annotation it does not
      know becomes a string schema. */
  function ProcessType(a: Annotation): (r: Value)
    ensures r.Obj? && DistinctKeys(r.members)
    ensures Get(r, "type").Some? && Get(r, "type").value.Str?
    ensures Get(r, "type").value.s in TypeTokens
    ensures Get(r, "$ref").Some? <==> a.ModelType?
    ensures a.ModelType? ==>
      && Keys(r.members) == ["type", "$ref"]
      && Get(r, "type") == Some(Str("object"))
      && Get(r, "$ref") == Some(Str(RefPrefix + a.name))
    ensures !a.ModelType? ==> Keys(r.members) == ["type"]
    ensures !Translatable(a) ==> Get(r, "type") == Some(Str("string"))
  {
    match a
    case ModelType(name) =>
      LookupTwo("type", Str("object"), "$ref", Str(RefPrefix + name));
      Obj([Member("type", Str("object")), Member("$ref", Str(RefPrefix + name))])
    case StrType => TypeOnly("string")
    case IntType => TypeOnly("integer")
    case FloatType => TypeOnly("number")
    case BoolType => TypeOnly("boolean")
    case ListType => TypeOnly("array")
    case DictType => TypeOnly("object")
    case _ => TypeOnly("string")
  }

  /** The keys a field's description contributes: `description` when it is
      truthy, nothing otherwise. */
  function DescriptionKeys(d: Option<string>): seq<string>
  {
    if Truthy(d) then ["description"] else []
  }

  /** The members `_process_field` assigns before looking at the description. */
  function TypedMembers(a: Annotation): (ms: seq<Member>)
    ensures DistinctKeys(ms)
    ensures "description" !in Keys(ms)
  {
    match a
    case ListOf(elem) =>
      LookupTwo("type", Str("array"), "items", ProcessType(elem));
      [Member("type", Str("array")), Member("items", ProcessType(elem))]
    case DictOf(_, value) =>
      LookupTwo("type", Str("object"), "additionalProperties", ProcessType(value));
      [Member("type", Str("object")), Member("additionalProperties", ProcessType(value))]
    case OtherGeneric(_, _) => []
    // updating the still-empty field dict copies the type schema
    case _ => ProcessType(a).members
  }

  /** `_process_field`: the schema of one declared field. A `list[X]` becomes an
      array of `X`, a `dict[K, V]` an object whose extra properties are `V`
      (the key type is dropped), any other generic gets no type at all, and a
      plain annotation gets `_process_type`'s schema. A truthy description is
      attached last. */
  function ProcessField(info: FieldInfo): (r: Value)
    ensures r.Obj? && DistinctKeys(r.members)
  {
    var typed := TypedMembers(info.annotation);
    // `description` is never among the keys assigned so far, so assigning it appends
    if Truthy(info.description) then
      var d := Member("description", Str(info.description.value));
      AssignAppend(typed, d);
      Obj(typed + [d])
    else Obj(typed)
  }

  /** The description part of a field schema: `description` follows the typed
      keys exactly when the field's description is truthy, it is then the
      field's own description, and it leaves every other key alone. */
  lemma DescriptionIffTruthy(info: FieldInfo)
    ensures "description" in Keys(ProcessField(info).members) <==> Truthy(info.description)
    ensures Keys(ProcessField(info).members) == Keys(TypedMembers(info.annotation)) + DescriptionKeys(info.description)
    ensures Get(ProcessField(info), "description") ==
            if Truthy(info.description) then Some(Str(info.description.value)) else None
    ensures forall k :: k != "description" ==> Get(ProcessField(info), k) == Lookup(TypedMembers(info.annotation), k)
  {
    var typed := TypedMembers(info.annotation);
    var d := info.description;
    if Truthy(d) {
      AssignAppend(typed, Member("description", Str(d.value)));
    } else {
      assert ProcessField(info).members == typed;
    }
  }

  /** A `list[X]` field: `type` is `array` and `items` is the schema of `X`. */
  lemma ListFieldShape(info: FieldInfo)
    requires info.annotation.ListOf?
    ensures Keys(ProcessField(info).members) == ["type", "items"] + DescriptionKeys(info.description)
    ensures Get(ProcessField(info), "type") == Some(Str("array"))
    ensures Get(ProcessField(info), "items") == Some(ProcessType(info.annotation.elem))
  {
    LookupTwo("type", Str("array"), "items", ProcessType(info.annotation.elem));
    DescriptionIffTruthy(info);
  }

  /** A `dict[K, V]` field: `type` is `object` and `additionalProperties` is the
      schema of `V`; `K` plays no part. */
  lemma DictFieldShape(info: FieldInfo)
    requires info.annotation.DictOf?
    ensures Keys(ProcessField(info).members) == ["type", "additionalProperties"] + DescriptionKeys(info.description)
    ensures Get(ProcessField(info), "type") == Some(Str("object"))
    ensures Get(ProcessField(info), "additionalProperties") == Some(ProcessType(info.annotation.value))
  {
    LookupTwo("type", Str("object"), "additionalProperties", ProcessType(info.annotation.value));
    DescriptionIffTruthy(info);
  }

  /** Any other generic (`Optional[X]`, `Union[...]`, `tuple[...]`) leaves the
      field schema without a `type`: at most the description is there. */
  lemma OtherGenericUntyped(info: FieldInfo)
    requires info.annotation.OtherGeneric?
    ensures Keys(ProcessField(info).members) == DescriptionKeys(info.description)
    ensures Get(ProcessField(info), "type") == None
  {
    DescriptionIffTruthy(info);
  }

  /** A plain annotation (no `__origin__`): the field schema is `_process_type`'s
      schema, with the description after it. */
  lemma PlainFieldShape(info: FieldInfo)
    requires !HasOrigin(info.annotation)
    ensures Keys(ProcessField(info).members) ==
            Keys(ProcessType(info.annotation).members) + DescriptionKeys(info.description)
    ensures forall k :: k != "description" ==> Get(ProcessField(info), k) == Get(ProcessType(info.annotation), k)
  {
    DescriptionIffTruthy(info);
  }

  /** The `properties` dict of a model schema, filled field by field in
      declaration order. */
  function BuildProperties(fields: seq<ModelField>): (props: seq<Member>)
    requires DistinctNames(fields)
    ensures |props| == |fields|
    ensures forall i :: 0 <= i < |fields| ==> props[i] == Member(fields[i].name, ProcessField(fields[i].info))
    ensures Keys(props) == FieldNames(fields)
    ensures DistinctKeys(props)
    decreases |fields|
  {
    if |fields| == 0 then []
    else
      var init := fields[..|fields| - 1];
      var last := fields[|fields| - 1];
      NamesSnoc(fields);
      var prev := BuildProperties(init);
      var entry := Member(last.name, ProcessField(last.info));
      assert Keys(prev) == FieldNames(init);
      var props := Set(prev, last.name, entry.value);
      assert props == prev + [entry];
      props
  }

  /** Splitting the last field off a field list. */
  lemma NamesSnoc(fields: seq<ModelField>)
    requires |fields| > 0
    requires DistinctNames(fields)
    ensures FieldNames(fields) == FieldNames(fields[..|fields| - 1]) + [fields[|fields| - 1].name]
    ensures forall i :: 0 <= i < |fields| - 1 ==> fields[..|fields| - 1][i] == fields[i]
    ensures DistinctNames(fields[..|fields| - 1])
    ensures fields[|fields| - 1].name !in FieldNames(fields[..|fields| - 1])
  {
  }

  /** What a model's `properties` dict says: one entry per declared field, in
      declaration order, each holding that field's schema. */
  ghost predicate PropertiesDescribe(p: Value, fields: seq<ModelField>)
  {
    && p.Obj?
    && DistinctKeys(p.members)
    && Keys(p.members) == FieldNames(fields)
    && forall i :: 0 <= i < |fields| ==> Get(p, fields[i].name) == Some(ProcessField(fields[i].info))
  }

  /** A schema of the shape `_process_model` builds for a model named `name`. */
  predicate TitledSchema(s: Value, name: string)
  {
    && s.Obj?
    && Keys(s.members) == ["type", "properties", "title"]
    && Get(s, "type") == Some(Str("object"))
    && Get(s, "title") == Some(Str(name))
  }

  /** A freshly built schema of model `m`. */
  ghost predicate DescribesModel(s: Value, m: ModelClass)
  {
    && TitledSchema(s, m.name)
    && Get(s, "properties").Some?
    && PropertiesDescribe(Get(s, "properties").value, m.fields)
  }

  /** The schema `_process_model` builds for a model it has not seen yet. */
  function Translate(m: ModelClass): (s: Value)
    requires DistinctNames(m.fields)
    ensures TitledSchema(s, m.name)
    ensures Get(s, "properties").Some?
  {
    // the literal's empty `properties` dict is filled in place, so its
    // position between `type` and `title` is kept
    var props := BuildProperties(m.fields);
    LookupThree("type", Str("object"), "properties", Obj(props), "title", Str(m.name));
    Obj([Member("type", Str("object")), Member("properties", Obj(props)), Member("title", Str(m.name))])
  }

  /** The translated schema describes the model: an object titled by the
      model's name whose `properties` hold one field schema per field. */
  lemma TranslateDescribes(m: ModelClass)
    requires DistinctNames(m.fields)
    ensures DescribesModel(Translate(m), m)
  {
    var props := BuildProperties(m.fields);
    LookupThree("type", Str("object"), "properties", Obj(props), "title", Str(m.name));
    assert Get(Translate(m), "properties") == Some(Obj(props));
    forall i | 0 <= i < |m.fields|
      ensures Lookup(props, m.fields[i].name) == Some(ProcessField(m.fields[i].info))
    {
      LookupAt(props, i);
    }
  }

  /** `processed_models`: model name to the schema built for it. */
  type Cache = map<string, Value>

  /** A schema together with the cache after producing it. */
  datatype Translated = Translated(schema: Value, cache: Cache)

  /** The cache starts empty when the plugin is constructed. */
  const EmptyCache: Cache := map[]

  /** `_process_model`: a name already in the cache returns the cached schema and
      leaves the cache alone; a new name builds the schema and records it. */
  function ProcessModel(m: ModelClass, cache: Cache): (r: Translated)
    requires DistinctNames(m.fields)
    ensures r.cache == cache[m.name := r.schema]
    ensures m.name in cache ==> r.schema == cache[m.name]
    ensures m.name !in cache ==> r.schema == Translate(m)
  {
    if m.name in cache then Translated(cache[m.name], cache)
    else
      var schema := Translate(m);
      Translated(schema, cache[m.name := schema])
  }

  /** `schema_helper`: the hook apispec calls when a schema component is
      registered. Only model classes are translated; anything else comes back
      as it was given. The component `name` apispec passes is not used. */
  function SchemaHelper(name: string, definition: Definition, cache: Cache): (r: Translated)
    requires definition.Model? ==> DistinctNames(definition.model.fields)
    ensures definition.NotAModel? ==> r.schema == definition.value && r.cache == cache
    ensures definition.Model? ==> r == ProcessModel(definition.model, cache)
  {
    match definition
    case Model(m) => ProcessModel(m, cache)
    case NotAModel(v) => Translated(v, cache)
  }
}
