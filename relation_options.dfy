/** The relation option keys of src/Relation.php that the models below read from a relation schema. */
module RelationOptions {

  /** A relation schema: option key to option value (the key and class names used here are strings). */
  type Schema = map<int, string>

  const MORPH_KEY: int := 29
  const OUTER_KEY: int := 32
  const INNER_KEY: int := 33
  const THOUGH_ENTITY: int := 52

  /** Reading an option that is absent gives PHP null; used as an array key or a string, null
      becomes the empty string, which is what this returns. */
  function Define(schema: Schema, option: int): string
  {
    if option in schema then schema[option] else ""
  }
}
