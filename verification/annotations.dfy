/** What the plugin reads from a pydantic model: its class name and, for
    each declared field, the type annotation and the optional description.
    Python's typing introspection (`__origin__`, `__args__`, `issubclass`)
    is folded into the shape of `Annotation`. */
module Annotations {
  import opened Options
  import opened Json

  /** A field's type annotation, as far as the plugin can tell annotations apart. */
  datatype Annotation =
      /** The builtin classes `str`, `int`, `float`, `bool`, `list` and `dict`. */
    | StrType
    | IntType
    | FloatType
    | BoolType
    | ListType
    | DictType
      /** A subclass of pydantic's `BaseModel`, known by its class `__name__`. */
    | ModelType(name: string)
      /** A parameterised generic whose `__origin__` is `list`: `list[X]`, `List[X]`.
          A bare `List` (no `__args__`) is not an `Annotation`: the plugin raises on it. */
    | ListOf(elem: Annotation)
      /** A parameterised generic whose `__origin__` is `dict`: `dict[K, V]`, `Dict[K, V]`.
          A bare `Dict` is excluded likewise. */
    | DictOf(key: Annotation, value: Annotation)
      /** Any other annotation that has an `__origin__`: `Optional[X]`, `Union[...]`,
          `tuple[...]`, `set[X]`, `Literal[...]`; the origin is kept by name. */
    | OtherGeneric(origin: string, args: seq<Annotation>)
      /** Any other annotation without an `__origin__`: another class, `Any`,
          `None`, or a PEP 604 union such as `int | None`. */
    | OtherType(name: string)

  /** pydantic's `FieldInfo`, reduced to the two attributes the plugin reads. */
  datatype FieldInfo = FieldInfo(annotation: Annotation, description: Option<string>)

  /** One entry of `model_fields`: the field name and its information. */
  datatype ModelField = ModelField(name: string, info: FieldInfo)

  /** A `BaseModel` subclass: its `__name__` and its `model_fields` in declaration order. */
  datatype ModelClass = ModelClass(name: string, fields: seq<ModelField>)

  /** The `definition` handed to `schema_helper`: a model class, or any other
      value (typically a ready-made schema dict), given here as JSON. */
  datatype Definition = Model(model: ModelClass) | NotAModel(value: Value)

  /** `hasattr(annotation, '__origin__')`. */
  predicate HasOrigin(a: Annotation)
  {
    a.ListOf? || a.DictOf? || a.OtherGeneric?
  }

  /** Python truthiness of an optional string: neither `None` nor `''`. */
  predicate Truthy(d: Option<string>)
  {
    d.Some? && d.value != ""
  }

  /** The field names of a model, in declaration order. */
  function FieldNames(fields: seq<ModelField>): seq<string>
  {
    seq(|fields|, i requires 0 <= i < |fields| => fields[i].name)
  }

  /** `model_fields` is a dict, so a model declares each field name once. */
  predicate DistinctNames(fields: seq<ModelField>)
  {
    forall i, j :: 0 <= i < j < |fields| ==> fields[i].name != fields[j].name
  }
}
