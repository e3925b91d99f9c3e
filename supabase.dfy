/** The hosted backend as the dashboard pages use it: each call is modelled by
    the request the page issues and by an already-settled result (rows, a
    count or an error), not by I/O. */
module Supabase {
  import opened Js

  /** The structured error the client returns; an absent `message`, `hint`
      or `code` is the empty string. */
  datatype BackendError = BackendError(message: string, hint: string, code: string)

  /** `{ data, error }` of a `select`, `insert(...).select()`,
      `update(...).select()` or `delete().select()`; `data` may be null. */
  datatype RowsResult = RowsResult(data: Option<seq<Row>>, error: Option<BackendError>)

  /** `{ count, error }` of a `select('*', { count: 'exact', head: true })`;
      `count` may be null. */
  datatype CountResult = CountResult(count: Option<nat>, error: Option<BackendError>)

  /** `.order(column, { ascending })` */
  datatype Order = Order(column: string, ascending: bool)

  /** `from(table).select('*').order(...)` with an optional `.eq(column, value)`. */
  datatype Select = Select(table: string, order: Order, eq: Option<(string, string)>)

  /** The write requests the pages issue, each followed by `.select()`
      except the report status update. */
  datatype Write =
    | Insert(table: string, rows: seq<Row>)
    | Update(table: string, patch: Row, id: Value)
    | Delete(table: string, id: Value)
}
