/**
 * Schemaless documents: a stored address or a list-cart item is an object whose
 * fields are named by strings. Only the kinds of field values the storefront
 * writes are distinguished.
 */
module Records {

  datatype Value = Str(s: string) | Num(n: int) | Time(t: int)

  /** A document or a JSON object: field name to value. */
  type Record = map<string, Value>

  /** `record.field === text`: the field is present and is that string. */
  predicate FieldIs(r: Record, field: string, text: string) {
    field in r && r[field] == Str(text)
  }
}
