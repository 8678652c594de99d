/**
 * The audit trail store: the `AuditTrail` Eloquent model, whose only content
 * is its list of fillable columns. Rows are created, never updated or deleted.
 */
module AuditTrail {
  import opened Wrappers

  /**
   * An attribute value of an Eloquent model. No operation inspects a value, so
   * these few shapes stand for any value; `Null` is PHP's null.
   */
  datatype Value = Null | Int(i: int) | Str(s: string) | Bool(b: bool)

  /** A model's attribute array: attribute name to value. */
  type Attrs = map<string, Value>

  /** The `changes` column: the `before` and `after` snapshots, either of which may be null. */
  datatype Changes = Changes(before: Option<Attrs>, after: Option<Attrs>)

  /** One row of the audit trail, one field per fillable column. */
  datatype Entry = Entry(
    entityName: string,
    entityId: Value,
    action: string,
    userId: Value,  // Auth::id(), `Null` when nobody is authenticated
    changes: Changes,
    ipAddress: Option<string>)

  /** The `audit_trails` table, seen as the sequence of rows created so far. */
  class Table {
    var rows: seq<Entry>

    constructor ()
      ensures rows == []
    {
      rows := [];
    }

    /** `AuditTrail::create`: appends exactly one row and touches nothing else. */
    method Create(entry: Entry)
      modifies this
      ensures rows == old(rows) + [entry]
    {
      rows := rows + [entry];
    }
  }
}
