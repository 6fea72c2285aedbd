# PydanticPlugin, modelled in Dafny

flask-redoc-ui documents a Flask application with an OpenAPI 3 document and
serves it through ReDoc. Data models are pydantic classes. An apispec
plugin, `PydanticPlugin`, turns each of them into an OpenAPI schema object.
This project models that plugin and proves properties of it:

- `schema_helper` translates model classes and passes everything else through.
- `_process_model` builds a model's schema once and caches it by class name
  in `processed_models`.
- `_process_field` gives `list[X]` an array schema, `dict[K, V]` an object
  schema with `additionalProperties`, any other generic no type, and a plain
  annotation `_process_type`'s schema. A truthy description is attached last.
- `_process_type` maps a model class to `{type: object, $ref: ...}` and the
  six builtin classes to their type token. Everything else gets `string`.

Layout:

- `options.dfy`: `Option`.
- `json.dfy`: JSON values. A Python dict is an ordered member list with
  Python's assignment semantics. `d[k] = v` overwrites in place when `k` is
  present and appends otherwise, so key order is insertion order.
- `annotations.dfy`: what the plugin reads from pydantic. This covers the
  class name, the fields in declaration order, each annotation and each
  description. Python's typing introspection (`__origin__`, `__args__`,
  `issubclass(…, BaseModel)`) is folded into the shape of the `Annotation`
  datatype.
- `plugin.dfy`: the four operations. The plugin's one piece of state,
  `processed_models`, is a `Cache` map passed in and handed back.
- `properties.dfy`: properties that relate several calls, and an
  independent reading of type schemas (`ReadType`) that serves as the
  partner of `_process_type`.
- `user_example.dfy`: a three-field `User` model worked end to end.

The two copies of the plugin, `flask_pydantic_redoc/pydantic_ext.py` and
`flask_redoc_ui/pydantic_ext.py`, are identical. The table cites the first.

Three behaviours a reader might expect from a documentation generator that
the code does not have. Each is tied to what backs it:

- There is no rewriting of `#/$defs/...` references into the components
  section. `add_schema` in `flask_pydantic_redoc/redoc.py:57-59` registers
  `model.model_json_schema()` exactly as pydantic returns it, and the plugin
  never looks at `$defs`. No member models this; there is nothing to model.
- There is no build-once latch. `before_request` is bound to
  `docstrings_to_openapi` (`flask_pydantic_redoc/redoc.py:44-51`), which walks
  the routes again on every request. That file is not part of this model.
- Optional fields are not documented by their inner type. `Optional[X]` has
  an `__origin__` that is neither `list` nor `dict`
  (`flask_pydantic_redoc/pydantic_ext.py:36-44`), so its field schema gets no
  `type` at all. `OtherGenericUntyped` states this.

## Model

| member | source | states |
|---|---|---|
| Plugin.ProcessType | flask_pydantic_redoc/pydantic_ext.py:53-69 | A model class gives exactly the keys `type`, `$ref`, with `object` and `#/components/schemas/<name>`. Every other annotation gives the single key `type`, whose token is one of the six, and `string` for anything outside the table. `$ref` is present exactly for model classes. |
| PluginProperties.ReadTypeInverts | flask_pydantic_redoc/pydantic_ext.py:53-69 | Reading a type schema back (from `$ref`, else from the `type` token) returns the annotation for every table entry and every model. It returns `str` for everything else, so the fallback is the only loss. |
| PluginProperties.ProcessTypeInjective | flask_pydantic_redoc/pydantic_ext.py:53-69 | Distinct builtins or models never share a schema. |
| PluginProperties.UnknownIsString | flask_pydantic_redoc/pydantic_ext.py:69 | An annotation that is neither in the table nor a model, nested generics included, gets exactly `str`'s schema. |
| Json.Set | flask_pydantic_redoc/pydantic_ext.py:26 | `d[k] = v` keeps the key order when `k` is present and appends `k` when it is new, and a dict without repeated keys stays so. The plugin does this at lines 26, 38-39, 42-43 and 49. |
| Json.SetLookup | flask_pydantic_redoc/pydantic_ext.py:26 | After `d[k] = v`, `k` finds `v` and every other key finds what it found before. |
| Plugin.ProcessField | flask_pydantic_redoc/pydantic_ext.py:31-51 | A field schema is a dict with no repeated key; its shape is stated by the lemmas below. |
| Plugin.DescriptionIffTruthy | flask_pydantic_redoc/pydantic_ext.py:48-51 | `description` is present exactly when the field's description is truthy (not `None`, not empty). It is then that description, placed after the type keys, and it changes no other key. |
| Plugin.ListFieldShape | flask_pydantic_redoc/pydantic_ext.py:37-40 | A `list[X]` field has keys `type`, `items` (then `description`), with `array` and `X`'s type schema. |
| Plugin.DictFieldShape | flask_pydantic_redoc/pydantic_ext.py:41-44 | A `dict[K, V]` field has keys `type`, `additionalProperties` (then `description`), with `object` and `V`'s type schema. |
| Plugin.OtherGenericUntyped | flask_pydantic_redoc/pydantic_ext.py:36-44 | Any other generic (`Optional`, `Union`, `tuple`, …) has no `type` key. At most `description` is present. |
| Plugin.PlainFieldShape | flask_pydantic_redoc/pydantic_ext.py:45-46 | An annotation without `__origin__` has `_process_type`'s keys in its order (then `description`), and every non-description key finds what `_process_type` gives. |
| PluginProperties.ContainerElementRecovered | flask_pydantic_redoc/pydantic_ext.py:36-44 | The element type of `list[X]` and the value type of `dict[K, V]` read back from the field schema whenever they are builtins or models. |
| PluginProperties.DictKeyIgnored | flask_pydantic_redoc/pydantic_ext.py:41-44 | The key type `K` of `dict[K, V]` does not influence the field schema. |
| PluginProperties.PlainFieldReadsBack | flask_pydantic_redoc/pydantic_ext.py:45-49 | A plain builtin or model field reads back as its annotation, with or without a description. |
| Plugin.BuildProperties | flask_pydantic_redoc/pydantic_ext.py:25-26 | Filling `properties` field by field yields one entry per field, keyed by the field names in declaration order. Each entry holds that field's schema, and keys are distinct. |
| Plugin.Translate | flask_pydantic_redoc/pydantic_ext.py:19-26 | A new model's schema has exactly the keys `type`, `properties`, `title` in that order, with `object` and the class name. |
| Plugin.TranslateDescribes | flask_pydantic_redoc/pydantic_ext.py:19-26 | The schema's `properties` has exactly the field names as keys, and each name finds its field's schema. |
| PluginProperties.ModelFieldReadsBack | flask_pydantic_redoc/pydantic_ext.py:19-26 | In a model's schema, every plain builtin or model field's entry reads back as its annotation. |
| Plugin.ProcessModel | flask_pydantic_redoc/pydantic_ext.py:15-29 | The cache afterwards is the cache before with the name bound to the returned schema. A cached name returns the cached schema; a new name returns the freshly built one. |
| PluginProperties.ProcessModelKeepsCacheInv | flask_pydantic_redoc/pydantic_ext.py:15-29 | If every cached schema is titled by the name it is cached under, that remains true, and the returned schema is titled by the model's name. |
| PluginProperties.CacheHitIgnoresFields | flask_pydantic_redoc/pydantic_ext.py:16-17 | Once a name is cached, two models of that name get the same answer whatever their fields: memoization is by name only. |
| PluginProperties.ProcessModelIdempotent | flask_pydantic_redoc/pydantic_ext.py:15-29 | A second request for the same model returns the first schema and leaves the cache as it was. |
| Plugin.SchemaHelper | flask_pydantic_redoc/pydantic_ext.py:9-13 | A model class is translated through the cache. Anything else is returned unchanged, and the cache is untouched. |
| PluginProperties.SchemaHelperIgnoresName | flask_pydantic_redoc/pydantic_ext.py:9-13 | The component name apispec passes plays no part in the result. |
| PluginProperties.ProcessAll | flask_pydantic_redoc/pydantic_ext.py:15-29 | A sequence of requests to one plugin returns one schema per request. |
| PluginProperties.RunOnlyAdds | flask_pydantic_redoc/pydantic_ext.py:15-28 | A run adds exactly the names requested and never changes a schema already cached. |
| PluginProperties.RunReturnsCached | flask_pydantic_redoc/pydantic_ext.py:15-29 | Every request of a run returned the schema the cache holds for that name at the end. |
| PluginProperties.FirstRegistrationWins | flask_pydantic_redoc/pydantic_ext.py:16-29 | The first model of a name not yet cached decides the schema cached for that name; later models of the same name are ignored. |
| PluginProperties.RunKeepsCacheInv | flask_pydantic_redoc/pydantic_ext.py:15-29 | A run keeps every cached schema titled by its name. |
| PluginProperties.FreshPluginRun | flask_pydantic_redoc/pydantic_ext.py:6-29 | Starting from a new plugin's empty cache, a run caches exactly the names requested, each under a schema titled by that name. |
| UserExample.UserTranslated | flask_pydantic_redoc/pydantic_ext.py:15-69 | The example below is translated to the exact `type`/`properties`/`title` dict. A second request returns the same schema from the cache. The example is `User` with `id: int`, `name: str` described as "Login", and `tags: list[str]`. |

## Left out

- `redoc.py` is not part of this model. This covers the Flask extension, the
  `/docs` routes, the apispec `APISpec` object and `add_schema`, the
  `before_request` hook that walks the routes, and the ReDoc HTML page. They
  are I/O and framework plumbing around the plugin.
- pydantic and Python typing introspection are folded into `Annotation`.
  `issubclass(…, BaseModel)` becomes the `ModelType` case, and
  `hasattr(…, '__origin__')` becomes `HasOrigin`. The `__origin__` tests
  against `list` and `dict` become the `ListOf` and `DictOf` cases.
- Python 3.11 or later is assumed. There, `isinstance(list[int], type)` is
  false, so a parameterised generic reaching `_process_type` as an element
  type falls to the `string` default (`UnknownIsString`).
- A bare `typing.List` or `typing.Dict` annotation (`xs: List`) is outside
  `Annotation`. pydantic accepts it, and its `__origin__` is `list` or `dict`,
  so `_process_field` takes the branch at
  `flask_pydantic_redoc/pydantic_ext.py:37` or `:41`. It has no `__args__`,
  so lines 39-40 or 43-44 raise `AttributeError`. That request then fails,
  and `processed_models` is left without the model. The model gives
  `ListOf` and `DictOf` their element and value types and does not
  represent this crash.
- `DistinctNames` on a model's fields is what `model_fields` being a dict
  guarantees. It is a precondition rather than a case to handle.
- Object identity is not modelled. The source returns the same dict object
  from the cache, and a caller mutating a returned schema would change the
  cached one. Here, schemas are values.
- `Plugin.ProcessField`: its own contract states only that the result is a
  dict without repeated keys. The field's shape is stated by
  `DescriptionIffTruthy`, `ListFieldShape`, `DictFieldShape`,
  `OtherGenericUntyped` and `PlainFieldShape`.
- `Plugin.ProcessModel`: its contract says how the cache and the result
  relate for one call. Schema content is stated by `Translate` and
  `TranslateDescribes`.
- Concurrency is left out: the plugin holds no lock, and a single thread of
  requests is modelled.
- `setup.py` and packaging are left out.
