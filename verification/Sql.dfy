/** Nullable SQL values, JSON values and the way PostgreSQL renders one as the other. */
module Sql {

  datatype Option<+T> = None | Some(value: T)

  /** A JSON value. Everything but `null` is kept by its text, a string or a timestamp. */
  datatype Json = JNull | JStr(s: string) | JTime(t: int) | JInt(n: int) | JDoc(text: string)

  /** A nullable column: `None` is SQL NULL, `Some(JNull)` is the JSON value `null` in a JSONB column. */
  type Cell = Option<Json>

  /** What `jsonb_build_object` writes for a column: SQL NULL and JSON null print alike. */
  function Render(c: Cell): Json {
    match c
    case None => JNull
    case Some(j) => j
  }

  function RenderTime(t: Option<int>): Json {
    match t
    case None => JNull
    case Some(v) => JTime(v)
  }

  function RenderText(t: Option<string>): Json {
    match t
    case None => JNull
    case Some(v) => JStr(v)
  }
}
