/**
 The schema name resolver handed to the spec builder: it maps a schema class
 to the name under which the schema is referenced in the generated OpenAPI
 document (`#/components/schemas/<name>`).

 A schema class is reduced to what the resolver looks at: its class name and,
 for the internally generated `MetaSchema` wrapper, the optional inner `Meta`
 carrying the parent schema's name and the model's class name.
 */
module SchemaResolver {
  import opened Wrappers
  import opened Strings

  /** The suffix stripped from schema class names (`name[:-6]`). */
  const SchemaSuffix := "Schema"

  /** The class name of the generated wrapper schema that carries `Meta`. */
  const MetaSchemaName := "MetaSchema"

  /** The inner `Meta` of a generated schema: `parent_schema_name` and `model.__name__`. */
  datatype Meta = Meta(parentSchemaName: string, modelName: string)

  /** A schema class after `resolve_schema_cls`: its `__name__` and whether it has `Meta`. */
  datatype SchemaClass = SchemaClass(name: string, meta: Option<Meta>)

  /** The reference name of a generated schema: `"{parent_schema_name}.{model}"`. */
  function ComposedName(meta: Meta): string {
    meta.parentSchemaName + "." + meta.modelName
  }

  /** True for the one class whose name is composed from its `Meta`. */
  predicate HasComposedName(schema: SchemaClass) {
    schema.name == MetaSchemaName && schema.meta.Some?
  }

  /**
   The name a schema is referenced by. Apart from the composed `MetaSchema`
   case, the result is either the class name itself or the class name with
   exactly one trailing "Schema" removed, and it is never empty for a named
   class.
   */
  function Resolve(schema: SchemaClass): (r: string)
    ensures HasComposedName(schema) ==> r == ComposedName(schema.meta.value)
    ensures !HasComposedName(schema) ==> r == schema.name || r + SchemaSuffix == schema.name
    ensures schema.name != "" ==> r != ""
  {
    var name := schema.name;
    if HasComposedName(schema) then
      ComposedName(schema.meta.value)
    else if EndsWith(name, SchemaSuffix) then
      var stripped := name[..|name| - |SchemaSuffix|];
      if stripped != "" then stripped else name
    else
      name
  }

  /**
   A composed name always holds the '.' separator, so it never equals the
   class name `MetaSchema` it was composed for.
   */
  lemma ComposedNameHasDot(meta: Meta)
    ensures '.' in ComposedName(meta)
    ensures ComposedName(meta) != MetaSchemaName
  {
  }

  /**
   Stripping is the inverse of appending the suffix: any non-empty base name
   comes back from `base + "Schema"`, whatever `Meta` the class carries,
   except for the composed `MetaSchema` (base "Meta" with a `Meta`).
   */
  lemma ResolveStripsSuffix(base: string, meta: Option<Meta>)
    requires base != "" && (base == "Meta" ==> meta.None?)
    ensures Resolve(SchemaClass(base + SchemaSuffix, meta)) == base
  {
  }

  /** The class named exactly "Schema" keeps its name instead of resolving to "". */
  lemma ResolveBareSchema(meta: Option<Meta>)
    ensures Resolve(SchemaClass(SchemaSuffix, meta)) == SchemaSuffix
  {
  }

  /** A name that does not end in "Schema" is returned unchanged. */
  lemma ResolveKeepsOtherNames(schema: SchemaClass)
    requires !EndsWith(schema.name, SchemaSuffix)
    ensures Resolve(schema) == schema.name
  {
  }

  /** A `MetaSchema` with `Meta` resolves to the parent and model names joined by '.'. */
  lemma ResolveMetaSchema(parent: string, model: string)
    ensures Resolve(SchemaClass(MetaSchemaName, Some(Meta(parent, model)))) == parent + "." + model
  {
  }

  /** A `MetaSchema` without `Meta` falls through to suffix stripping and resolves to "Meta". */
  lemma ResolveMetaSchemaWithoutMeta()
    ensures Resolve(SchemaClass(MetaSchemaName, None)) == "Meta"
  {
  }

  /**
   The resolver leaves a class name untouched exactly when the name does not
   end in "Schema" or is "Schema" itself.
   */
  lemma ResolveFixedPoint(schema: SchemaClass)
    ensures Resolve(schema) == schema.name <==>
            !EndsWith(schema.name, SchemaSuffix) || schema.name == SchemaSuffix
  {
    if HasComposedName(schema) {
      ComposedNameHasDot(schema.meta.value);
    }
  }
}
