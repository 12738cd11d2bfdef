/**
 * The `bulk_import_batches` record of one import attempt. The upload route
 * creates it in status `pending`; the workflows then overwrite its status and
 * result fields step by step.
 */
module BatchRecord {
  import opened JsText

  datatype Status = Pending | Processing | Completed | ValidationFailed | Failed

  predicate IsTerminal(s: Status) {
    s == Completed || s == ValidationFailed || s == Failed
  }

  datatype ImportType = Customers | Purchases

  /** One row-level rejection reported by the customer upsert procedure. */
  datatype RowError = RowError(row: int, reason: string)

  /** The `metadata` column as the customer workflow writes it. */
  datatype Metadata = Metadata(totalErrorCount: Option<int>)

  class Batch {
    const importType: ImportType
    const totalRows: nat
    var status: Status
    var startedAt: Option<nat>
    var completedAt: Option<nat>
    var errorMessage: Option<string>
    var validationErrors: Option<seq<RowError>>
    var metadata: Option<Metadata>
    var importedPurchases: Option<int>
    var importedItems: Option<int>
    var importedUsers: Option<int>

    /** Every status the workflows have written, oldest first. */
    ghost var statusWrites: seq<Status>

    /** The stored status is the last one written, or `pending` if none was. */
    ghost predicate Valid()
      reads this
    {
      if statusWrites == [] then status == Pending else status == statusWrites[|statusWrites| - 1]
    }

    /** The insert done by the upload route: a `pending` batch with its row count. */
    constructor (importType: ImportType, totalRows: nat)
      ensures Valid() && statusWrites == []
      ensures this.importType == importType && this.totalRows == totalRows
      ensures status == Pending && startedAt == None && completedAt == None
      ensures errorMessage == None && validationErrors == None && metadata == None
      ensures importedPurchases == None && importedItems == None && importedUsers == None
    {
      this.importType := importType;
      this.totalRows := totalRows;
      status := Pending;
      startedAt, completedAt := None, None;
      errorMessage, validationErrors, metadata := None, None, None;
      importedPurchases, importedItems, importedUsers := None, None, None;
      statusWrites := [];
    }

    /** `update({ status: "processing", started_at })` */
    method MarkProcessing(now: nat)
      requires Valid()
      modifies this
      ensures Valid() && statusWrites == old(statusWrites) + [Processing]
      ensures status == Processing && startedAt == Some(now)
      ensures completedAt == old(completedAt) && errorMessage == old(errorMessage)
      ensures validationErrors == old(validationErrors) && metadata == old(metadata)
      ensures importedPurchases == old(importedPurchases) && importedItems == old(importedItems)
      ensures importedUsers == old(importedUsers)
    {
      status := Processing;
      startedAt := Some(now);
      statusWrites := statusWrites + [Processing];
    }

    /** `update({ status: "completed", imported_purchases, imported_items, completed_at })` */
    method MarkPurchasesCompleted(purchases: int, items: int, now: nat)
      requires Valid()
      modifies this
      ensures Valid() && statusWrites == old(statusWrites) + [Completed]
      ensures status == Completed && completedAt == Some(now)
      ensures importedPurchases == Some(purchases) && importedItems == Some(items)
      ensures startedAt == old(startedAt) && errorMessage == old(errorMessage)
      ensures validationErrors == old(validationErrors) && metadata == old(metadata)
      ensures importedUsers == old(importedUsers)
    {
      status := Completed;
      importedPurchases, importedItems := Some(purchases), Some(items);
      completedAt := Some(now);
      statusWrites := statusWrites + [Completed];
    }

    /** `update({ status: "completed", imported_users, completed_at })` */
    method MarkCustomersCompleted(users: int, now: nat)
      requires Valid()
      modifies this
      ensures Valid() && statusWrites == old(statusWrites) + [Completed]
      ensures status == Completed && completedAt == Some(now) && importedUsers == Some(users)
      ensures startedAt == old(startedAt) && errorMessage == old(errorMessage)
      ensures validationErrors == old(validationErrors) && metadata == old(metadata)
      ensures importedPurchases == old(importedPurchases) && importedItems == old(importedItems)
    {
      status := Completed;
      importedUsers := Some(users);
      completedAt := Some(now);
      statusWrites := statusWrites + [Completed];
    }

    /** `update({ status: "validation_failed", validation_errors, metadata: { total_error_count }, completed_at })` */
    method MarkValidationFailed(errors: seq<RowError>, totalErrorCount: Option<int>, now: nat)
      requires Valid()
      modifies this
      ensures Valid() && statusWrites == old(statusWrites) + [ValidationFailed]
      ensures status == ValidationFailed && completedAt == Some(now)
      ensures validationErrors == Some(errors) && metadata == Some(Metadata(totalErrorCount))
      ensures startedAt == old(startedAt) && errorMessage == old(errorMessage)
      ensures importedPurchases == old(importedPurchases) && importedItems == old(importedItems)
      ensures importedUsers == old(importedUsers)
    {
      status := ValidationFailed;
      validationErrors := Some(errors);
      metadata := Some(Metadata(totalErrorCount));
      completedAt := Some(now);
      statusWrites := statusWrites + [ValidationFailed];
    }

    /** `update({ status: "failed", error_message, completed_at })` */
    method MarkFailed(message: string, now: nat)
      requires Valid()
      modifies this
      ensures Valid() && statusWrites == old(statusWrites) + [Failed]
      ensures status == Failed && errorMessage == Some(message) && completedAt == Some(now)
      ensures startedAt == old(startedAt)
      ensures validationErrors == old(validationErrors) && metadata == old(metadata)
      ensures importedPurchases == old(importedPurchases) && importedItems == old(importedItems)
      ensures importedUsers == old(importedUsers)
    {
      status := Failed;
      errorMessage := Some(message);
      completedAt := Some(now);
      statusWrites := statusWrites + [Failed];
    }
  }
}
