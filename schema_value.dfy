/**
 * The OpenRPC value objects that carry behaviour. Of these, only
 * `SchemaValue` does anything beyond holding its fields: it renders itself
 * as the one-member map `{name: data}` used under `components.schemas`.
 */
module ValueObject {
  import opened Json

  /**
   * A named, reusable JSON Schema; both fields are read-only once
   * constructed, and `data` is declared `array`.
   */
  datatype SchemaValue = SchemaValue(name: string, data: PhpArray)
  {
    /** `toArray()`: exactly one key, the schema's name, holding its data unchanged. */
    function ToArray(): (r: Json)
      ensures r.JObj? && Keys(r.members) == [name]
      ensures Get(r, name) == Some(data)
    {
      JObj([(name, data)])
    }
  }

  /** Nothing is lost in rendering: two schemas render alike only when they are equal. */
  lemma ToArrayInjective(a: SchemaValue, b: SchemaValue)
    ensures a.ToArray() == b.ToArray() <==> a == b
  {
  }
}
