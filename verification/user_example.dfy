/** A worked instance: the schema of a small model with a builtin field, a
    described string field and a list field, and what a second request for
    the same model returns. */
module UserExample {
  import opened Options
  import opened Json
  import opened Annotations
  import opened Plugin

  /** `class User(BaseModel): id: int; name: str = Field(description="Login"); tags: list[str]` */
  const User: ModelClass := ModelClass("User", [
    ModelField("id", FieldInfo(IntType, None)),
    ModelField("name", FieldInfo(StrType, Some("Login"))),
    ModelField("tags", FieldInfo(ListOf(StrType), None))
  ])

  /** The schema the plugin registers for `User`. */
  const UserSchema: Value := Obj([
    Member("type", Str("object")),
    Member("properties", Obj([
      Member("id", Obj([Member("type", Str("integer"))])),
      Member("name", Obj([Member("type", Str("string")), Member("description", Str("Login"))])),
      Member("tags", Obj([Member("type", Str("array")), Member("items", Obj([Member("type", Str("string"))]))]))
    ])),
    Member("title", Str("User"))
  ])

  /** The first request translates `User`; the second is answered from the cache. */
  lemma UserTranslated()
    ensures DistinctNames(User.fields)
    ensures ProcessModel(User, EmptyCache).schema == UserSchema
    ensures ProcessModel(User, ProcessModel(User, EmptyCache).cache) ==
            Translated(UserSchema, map["User" := UserSchema])
  {
    var props := BuildProperties(User.fields);
    assert ProcessField(User.fields[0].info) == Obj([Member("type", Str("integer"))]);
    assert ProcessField(User.fields[1].info) ==
           Obj([Member("type", Str("string")), Member("description", Str("Login"))]);
    assert ProcessField(User.fields[2].info) ==
           Obj([Member("type", Str("array")), Member("items", Obj([Member("type", Str("string"))]))]);
    assert props == UserSchema.members[1].value.members;
  }
}
