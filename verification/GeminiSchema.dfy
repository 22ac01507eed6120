/**
 The schema cleaner for Gemini function declarations
 (backend-python/app/providers/gemini_provider.py:185-215).
 */
module GeminiSchema {
  import opened Wrappers
  import opened JsonValues

  const UNSUPPORTED := ["additionalProperties", "additional_properties", "$schema", "$id", "unevaluatedProperties"]

  function Sanitize(schema: Json): Json
    decreases schema, 1
  {
    if schema.Obj? then Obj(SanitizeFields(schema.fields)) else Obj([Field("type", Str("object"))])
  }

  function SanitizeFields(fields: seq<Field>): seq<Field>
    decreases fields, 0
  {
    if fields == [] then []
    else
      var f := fields[0];
      var rest := SanitizeFields(fields[1..]);
      if f.name in UNSUPPORTED then rest
      else if f.name == "properties" && f.value.Obj? then
        [Field(f.name, Obj(SanitizeProperties(f.value.fields)))] + rest
      else if f.name == "items" then [Field(f.name, Sanitize(f.value))] + rest
      else [f] + rest
  }

  function SanitizeProperties(properties: seq<Field>): seq<Field>
    decreases properties, 0
  {
    if properties == [] then []
    else [Field(properties[0].name, Sanitize(properties[0].value))] + SanitizeProperties(properties[1..])
  }

  function Names(fields: seq<Field>): seq<string> {
    if fields == [] then [] else [fields[0].name] + Names(fields[1..])
  }

  /** From a schema position to the next one: into `items`, or into one property of `properties`. */
  datatype Step = Items | Property(name: string)

  /** The schema at the end of a path from the root, if the path leads anywhere. */
  function At(schema: Json, path: seq<Step>): Option<Json>
    decreases |path|
  {
    if path == [] then Some(schema)
    else if !schema.Obj? then None
    else
      match path[0]
      case Items =>
        var items := Lookup(schema.fields, "items");
        if items.Some? then At(items.value, path[1..]) else None
      case Property(name) =>
        var properties := Lookup(schema.fields, "properties");
        if properties.Some? && properties.value.Obj? && Lookup(properties.value.fields, name).Some?
        then At(Lookup(properties.value.fields, name).value, path[1..])
        else None
  }

  /** What becomes of one field. */
  function Kept(name: string, value: Option<Json>): Option<Json> {
    if value.None? || name in UNSUPPORTED then None
    else if name == "properties" && value.value.Obj? then Some(Obj(SanitizeProperties(value.value.fields)))
    else if name == "items" then Some(Sanitize(value.value))
    else value
  }

  lemma {:induction false} FieldOf(fields: seq<Field>, name: string)
    ensures Lookup(SanitizeFields(fields), name) == Kept(name, Lookup(fields, name))
  {
    if fields != [] {
      FieldOf(fields[1..], name);
    }
  }

  lemma {:induction false} PropertyOf(properties: seq<Field>, name: string)
    ensures Lookup(SanitizeProperties(properties), name)
            == match Lookup(properties, name) { case None => None case Some(value) => Some(Sanitize(value)) }
  {
    if properties != [] {
      PropertyOf(properties[1..], name);
    }
  }

  /** No property is dropped, renamed or moved. */
  lemma {:induction false} NamesKept(properties: seq<Field>)
    ensures Names(SanitizeProperties(properties)) == Names(properties)
  {
    if properties != [] {
      NamesKept(properties[1..]);
    }
  }

  /**
   Cleaning goes exactly along the schema positions: the same paths lead somewhere before and after, and
   each one leads to the cleaned form of what was there.
   */
  lemma {:induction false} AtCommutes(schema: Json, path: seq<Step>)
    ensures At(Sanitize(schema), path)
            == match At(schema, path) { case None => None case Some(there) => Some(Sanitize(there)) }
    decreases |path|
  {
    if path != [] && schema.Obj? {
      match path[0] {
        case Items =>
          FieldOf(schema.fields, "items");
          var items := Lookup(schema.fields, "items");
          if items.Some? {
            AtCommutes(items.value, path[1..]);
          }
        case Property(name) =>
          FieldOf(schema.fields, "properties");
          var properties := Lookup(schema.fields, "properties");
          if properties.Some? && properties.value.Obj? {
            PropertyOf(properties.value.fields, name);
            if Lookup(properties.value.fields, name).Some? {
              AtCommutes(Lookup(properties.value.fields, name).value, path[1..]);
            }
          }
      }
    }
  }

  /** A cleaned schema has an object without unsupported keys at every position. */
  lemma CleanEverywhere(schema: Json, path: seq<Step>, name: string)
    requires At(Sanitize(schema), path).Some?
    requires name in ["additionalProperties", "additional_properties", "$schema", "$id", "unevaluatedProperties"]
    ensures At(Sanitize(schema), path).value.Obj?
    ensures Lookup(At(Sanitize(schema), path).value.fields, name) == None
  {
    AtCommutes(schema, path);
    var there := At(schema, path).value;
    if there.Obj? {
      FieldOf(there.fields, name);
    }
  }

  /**
   A schema object keeps every other key with its value, apart from the schemas below it; a schema that is
   no object becomes one that says so.
   */
  lemma OtherKeysKept(schema: Json, path: seq<Step>, name: string)
    requires At(schema, path).Some? && name != "items"
    requires name !in ["additionalProperties", "additional_properties", "$schema", "$id", "unevaluatedProperties"]
    ensures var there := At(schema, path).value;
            if !there.Obj? then At(Sanitize(schema), path) == Some(Obj([Field("type", Str("object"))]))
            else
              && At(Sanitize(schema), path).Some? && At(Sanitize(schema), path).value.Obj?
              && var cleaned, value := At(Sanitize(schema), path).value.fields, Lookup(there.fields, name);
                 name != "properties" || (value.Some? && !value.value.Obj?) ==> Lookup(cleaned, name) == value
  {
    AtCommutes(schema, path);
    var there := At(schema, path).value;
    if there.Obj? {
      FieldOf(there.fields, name);
    }
  }

  lemma {:induction false} Idempotent(schema: Json)
    ensures Sanitize(Sanitize(schema)) == Sanitize(schema)
    decreases schema, 1
  {
    if schema.Obj? {
      FieldsIdempotent(schema.fields);
    } else {
      var given := [Field("type", Str("object"))];
      assert SanitizeFields(given[1..]) == [];
      assert SanitizeFields(given) == given;
    }
  }

  lemma {:induction false} FieldsIdempotent(fields: seq<Field>)
    ensures SanitizeFields(SanitizeFields(fields)) == SanitizeFields(fields)
    decreases fields, 0
  {
    if fields != [] {
      FieldsIdempotent(fields[1..]);
      var f := fields[0];
      if f.name == "properties" && f.value.Obj? {
        PropertiesIdempotent(f.value.fields);
      } else if f.name == "items" {
        Idempotent(f.value);
      }
    }
  }

  lemma {:induction false} PropertiesIdempotent(properties: seq<Field>)
    ensures SanitizeProperties(SanitizeProperties(properties)) == SanitizeProperties(properties)
    decreases properties, 0
  {
    if properties != [] {
      Idempotent(properties[0].value);
      PropertiesIdempotent(properties[1..]);
    }
  }
}
