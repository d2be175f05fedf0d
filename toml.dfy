/**
 * The structured manifest document, abstracted from its text.
 * A document is a map from top-level keys to items; a table item holds a key
 * map of its own. Key order, comments and formatting are not part of the model.
 */
module Toml {

  import opened Wrappers

  /** A TOML value. Floats and date-times are kept as their literal text. */
  datatype Value =
    | Str(s: string)
    | Integer(i: int)
    | Boolean(b: bool)
    | Scalar(literal: string)
    | Array(elems: seq<Value>)
    | InlineTable(fields: map<string, Value>)

  /** An entry of a table: a plain value, a `[section]` table, or an array of `[[section]]` tables. */
  datatype Item =
    | Val(v: Value)
    | Table(entries: map<string, Item>)
    | ArrayOfTables(tables: seq<map<string, Item>>)

  /** A whole document is its root table. */
  type Entries = map<string, Item>

  /** The string a value holds, as `as_str` reads it. */
  function AsStr(item: Item): Option<string>
  {
    if item.Val? && item.v.Str? then Some(item.v.s) else None
  }
}
