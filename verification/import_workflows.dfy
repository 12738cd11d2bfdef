/**
 * The two bulk-import workflows and their failure wrappers. Each workflow
 * marks its batch `processing`, runs its steps, and records its terminal
 * status; a thrown error is a `Failure` here, which the wrapper records as
 * `failed` before handing it on.
 *
 * The database queries and procedures are parameters: `lookupUsers` and
 * `lookupSkus` stand for the two existence queries, `insertPurchases` and
 * `upsertCustomers` for the two stored procedures. Timestamps are parameters.
 */
module ImportWorkflows {
  import opened JsText
  import opened PurchaseGrouping
  import opened ReferenceValidation
  import opened BatchRecord

  /** The parser's output as the purchase workflow sees it; each error is kept as its JSON text. */
  datatype ParsedCsv = ParsedCsv(data: seq<Row>, errors: seq<string>)

  /** `{ data, error }` of a procedure call; `error` holds `error.message`. */
  datatype RpcResponse<+T> = RpcResponse(error: Option<string>, data: T)

  /** One row returned by `bulk_insert_purchases_with_items`. */
  datatype InsertResultRow = InsertResultRow(
    success: bool,
    errorMessage: Option<string>,
    importedPurchases: int,
    importedItems: int)

  datatype InsertCounts = InsertCounts(purchases: int, items: int)

  /** Every error the two workflows can throw. */
  datatype ImportError =
    | CsvParsingErrors(errors: seq<string>)
    | Reference(reason: ReferenceError)
    | DatabaseInsertFailed(message: string)
    | NoInsertResult                 // `insertResult` is undefined: reading `.success` throws
    | TransactionFailed(errorMessage: Option<string>)
    | RpcFailed(message: string)
    | RpcReturnedNoRow

  /** A nullable string as a template literal renders it. */
  function Render(s: Option<string>): string
  {
    if s.Some? then s.value else "null"
  }

  /** The kinds of thrown error, told apart by the fixed text each message begins with. */
  datatype ErrorKind =
    | ParsingKind | UserIdsKind | SkuIdsKind | NullLookupKind | InsertKind
    | NoResultKind | TransactionKind | RpcKind | NoRowKind

  function KindOf(e: ImportError): ErrorKind
  {
    match e
    case CsvParsingErrors(_) => ParsingKind
    case Reference(InvalidUserIds(_, _)) => UserIdsKind
    case Reference(InvalidSkuIds(_, _)) => SkuIdsKind
    case Reference(NullLookupData) => NullLookupKind
    case DatabaseInsertFailed(_) => InsertKind
    case NoInsertResult => NoResultKind
    case TransactionFailed(_) => TransactionKind
    case RpcFailed(_) => RpcKind
    case RpcReturnedNoRow => NoRowKind
  }

  /** How V8 begins the TypeError for a property read on null or undefined. */
  const CannotRead := "Cannot read properties of "

  /** The fixed text each thrown message begins with. */
  function Headline(k: ErrorKind): string
  {
    match k
    case ParsingKind => "CSV parsing errors: ["
    case UserIdsKind => "Invalid user_ids found. Expected "
    case SkuIdsKind => "Invalid sku_ids found. Expected "
    case NullLookupKind => CannotRead + "null (reading 'length')"
    case InsertKind => "Database insert failed: "
    case NoResultKind => CannotRead + "undefined (reading 'success')"
    case TransactionKind => "Transaction failed: "
    case RpcKind => "RPC failed: "
    case NoRowKind => "RPC returned no row"
  }

  /** What the template literal interpolates after the headline. */
  function Details(e: ImportError): string
  {
    match e
    case CsvParsingErrors(errors) => Join(errors, ",") + "]"
    case Reference(InvalidUserIds(expected, found)) => NatToString(expected) + ", found " + NatToString(found)
    case Reference(InvalidSkuIds(expected, found)) => NatToString(expected) + ", found " + NatToString(found)
    case Reference(NullLookupData) => ""
    case DatabaseInsertFailed(message) => message
    case NoInsertResult => ""
    case TransactionFailed(message) => Render(message)
    case RpcFailed(message) => message
    case RpcReturnedNoRow => ""
  }

  /** `error.message` of each thrown error: its headline, then its details. */
  function Message(e: ImportError): (m: string)
    ensures StartsWith(m, Headline(KindOf(e)))
    ensures m[|Headline(KindOf(e))|..] == Details(e)
  {
    var h, d := Headline(KindOf(e)), Details(e);
    assert (h + d)[..|h|] == h && (h + d)[|h|..] == d;
    h + d
  }

  /**
   * Reads the kind of error back from a message, by the characters at
   * positions 0, 1, 4, 8 and 26 of its headline.
   */
  function KindOfMessage(m: string): Option<ErrorKind>
  {
    if |m| < 12 then None
    else if m[0] == 'C' then
      if m[1] == 'S' then Some(ParsingKind)
      else if |m| > 26 && m[26] == 'n' then Some(NullLookupKind)
      else Some(NoResultKind)
    else if m[0] == 'I' then (if m[8] == 'u' then Some(UserIdsKind) else Some(SkuIdsKind))
    else if m[0] == 'D' then Some(InsertKind)
    else if m[0] == 'T' then Some(TransactionKind)
    else if m[0] == 'R' then (if m[4] == 'f' then Some(RpcKind) else Some(NoRowKind))
    else None
  }

  /** Every message names its kind of error, so errors of different kinds never share a message. */
  lemma MessageNamesKind(e: ImportError)
    ensures KindOfMessage(Message(e)) == Some(KindOf(e))
  {
    HeadlineDecodes(Message(e), KindOf(e));
  }

  lemma HeadlineDecodes(m: string, k: ErrorKind)
    requires StartsWith(m, Headline(k))
    ensures KindOfMessage(m) == Some(k)
  {
    var h := Headline(k);
    match k
    case ParsingKind => SameAt(m, h, 0); SameAt(m, h, 1);
    case UserIdsKind => SameAt(m, h, 0); SameAt(m, h, 8);
    case SkuIdsKind => SameAt(m, h, 0); SameAt(m, h, 8);
    case NullLookupKind => SameAt(m, h, 0); SameAt(m, h, 1); SameAt(m, h, 26);
    case InsertKind => SameAt(m, h, 0);
    case NoResultKind => SameAt(m, h, 0); SameAt(m, h, 1); SameAt(m, h, 26);
    case TransactionKind => SameAt(m, h, 0);
    case RpcKind => SameAt(m, h, 0); SameAt(m, h, 4);
    case NoRowKind => SameAt(m, h, 0); SameAt(m, h, 4);
  }

  lemma SameAt(m: string, h: string, j: nat)
    requires StartsWith(m, h) && j < |h|
    ensures m[j] == h[j]
  {
    assert m[j] == m[..|h|][j];
  }

  // ---------------------------------------------------------------------
  // Purchase import

  datatype PurchaseImportEvent = PurchaseImportEvent(batchId: string, merchantId: string)

  datatype PurchaseImportSummary = PurchaseImportSummary(
    batchId: string,
    purchasesImported: int,
    itemsImported: int)

  /** The atomic-insert step's reading of the procedure's answer. */
  function InsertOutcome(response: RpcResponse<seq<InsertResultRow>>): (r: Result<InsertCounts, ImportError>)
    ensures response.error.Some? ==> r == Failure(DatabaseInsertFailed(response.error.value))
    ensures response.error.None? && response.data == [] ==> r == Failure(NoInsertResult)
    ensures (response.error.None? && response.data != [] && !response.data[0].success)
              ==> r == Failure(TransactionFailed(response.data[0].errorMessage))
    ensures r.Success? <==> response.error.None? && response.data != [] && response.data[0].success
    ensures r.Success? ==>
              r.value == InsertCounts(response.data[0].importedPurchases, response.data[0].importedItems)
  {
    if response.error.Some? then Failure(DatabaseInsertFailed(response.error.value))
    else if response.data == [] then Failure(NoInsertResult)
    else
      var insertResult := response.data[0];
      if !insertResult.success then Failure(TransactionFailed(insertResult.errorMessage))
      else Success(InsertCounts(insertResult.importedPurchases, insertResult.importedItems))
  }

  /**
   * What the purchase workflow returns or throws, step by step: the CSV
   * errors, then the reference check, then the insert procedure's answer.
   */
  function PurchaseImportOutcome(
    event: PurchaseImportEvent, csv: ParsedCsv,
    lookupUsers: (string, set<Option<string>>) -> Lookup,
    lookupSkus: set<Option<string>> -> Lookup,
    insertPurchases: (map<string, Purchase>, string) -> RpcResponse<seq<InsertResultRow>>
  ): (r: Result<PurchaseImportSummary, ImportError>)
    ensures csv.errors != [] ==> r == Failure(CsvParsingErrors(csv.errors))
    ensures var grouped := Grouped(csv.data);
      var userIds, skuIds := UserIdsOf(grouped), SkuIdsOf(grouped);
      var refError := CheckReferences(userIds, skuIds, lookupUsers(event.merchantId, userIds), lookupSkus(skuIds));
      var response := insertPurchases(grouped, event.merchantId);
      csv.errors == [] ==>
        && (refError.Some? ==> r == Failure(Reference(refError.value)))
        && (refError.None? && InsertOutcome(response).Failure? ==> r == Failure(InsertOutcome(response).error))
        && (refError.None? && InsertOutcome(response).Success? ==>
              r == Success(PurchaseImportSummary(event.batchId, response.data[0].importedPurchases, response.data[0].importedItems)))
  {
    if |csv.errors| > 0 then Failure(CsvParsingErrors(csv.errors))
    else
      var grouped := Grouped(csv.data);
      var userIds, skuIds := UserIdsOf(grouped), SkuIdsOf(grouped);
      var refError := CheckReferences(userIds, skuIds, lookupUsers(event.merchantId, userIds), lookupSkus(skuIds));
      if refError.Some? then Failure(Reference(refError.value))
      else
        match InsertOutcome(insertPurchases(grouped, event.merchantId))
        case Failure(e) => Failure(e)
        case Success(counts) => Success(PurchaseImportSummary(event.batchId, counts.purchases, counts.items))
  }

  /** The purchase workflow proper, without its failure wrapper. */
  method BulkImportPurchases(
    batch: Batch, event: PurchaseImportEvent, csv: ParsedCsv,
    lookupUsers: (string, set<Option<string>>) -> Lookup,
    lookupSkus: set<Option<string>> -> Lookup,
    insertPurchases: (map<string, Purchase>, string) -> RpcResponse<seq<InsertResultRow>>,
    startedAt: nat, finishedAt: nat
  ) returns (r: Result<PurchaseImportSummary, ImportError>)
    requires batch.Valid()
    modifies batch
    ensures batch.Valid()
    ensures r == PurchaseImportOutcome(event, csv, lookupUsers, lookupSkus, insertPurchases)
    ensures batch.statusWrites == old(batch.statusWrites) + [Processing] + (if r.Success? then [Completed] else [])
    ensures batch.startedAt == Some(startedAt)
    ensures r.Success? ==>
              && batch.importedPurchases == Some(r.value.purchasesImported)
              && batch.importedItems == Some(r.value.itemsImported)
              && batch.completedAt == Some(finishedAt)
    ensures r.Success? ==> batch.status == Completed
    ensures r.Failure? ==>
              && batch.status == Processing
              && batch.completedAt == old(batch.completedAt)
              && batch.importedPurchases == old(batch.importedPurchases)
              && batch.importedItems == old(batch.importedItems)
    ensures batch.errorMessage == old(batch.errorMessage)
    ensures batch.validationErrors == old(batch.validationErrors) && batch.metadata == old(batch.metadata)
    ensures batch.importedUsers == old(batch.importedUsers)
  {
    batch.MarkProcessing(startedAt);
    if |csv.errors| > 0 {
      return Failure(CsvParsingErrors(csv.errors));
    }
    var grouped := GroupByTransaction(csv.data);
    var userIds, skuIds := UserIdsOf(grouped), SkuIdsOf(grouped);
    var refError := CheckReferences(userIds, skuIds, lookupUsers(event.merchantId, userIds), lookupSkus(skuIds));
    if refError.Some? {
      return Failure(Reference(refError.value));
    }
    var inserted := InsertOutcome(insertPurchases(grouped, event.merchantId));
    if inserted.Failure? {
      return Failure(inserted.error);
    }
    batch.MarkPurchasesCompleted(inserted.value.purchases, inserted.value.items, finishedAt);
    r := Success(PurchaseImportSummary(event.batchId, inserted.value.purchases, inserted.value.items));
  }

  /** The purchase workflow inside its failure wrapper: a thrown error is recorded as `failed`, then rethrown. */
  method BulkImportPurchasesWithErrorHandling(
    batch: Batch, event: PurchaseImportEvent, csv: ParsedCsv,
    lookupUsers: (string, set<Option<string>>) -> Lookup,
    lookupSkus: set<Option<string>> -> Lookup,
    insertPurchases: (map<string, Purchase>, string) -> RpcResponse<seq<InsertResultRow>>,
    startedAt: nat, finishedAt: nat
  ) returns (r: Result<PurchaseImportSummary, ImportError>)
    requires batch.Valid()
    modifies batch
    ensures batch.Valid()
    ensures r == PurchaseImportOutcome(event, csv, lookupUsers, lookupSkus, insertPurchases)
    ensures batch.statusWrites == old(batch.statusWrites) + [Processing, if r.Success? then Completed else Failed]
    ensures batch.startedAt == Some(startedAt) && batch.completedAt == Some(finishedAt)
    ensures r.Success? ==>
              && batch.status == Completed
              && batch.errorMessage == old(batch.errorMessage)
              && batch.importedPurchases == Some(r.value.purchasesImported)
              && batch.importedItems == Some(r.value.itemsImported)
    ensures r.Failure? ==>
              && batch.status == Failed
              && batch.errorMessage == Some(Message(r.error))
              && batch.importedPurchases == old(batch.importedPurchases)
              && batch.importedItems == old(batch.importedItems)
    ensures batch.validationErrors == old(batch.validationErrors) && batch.metadata == old(batch.metadata)
    ensures batch.importedUsers == old(batch.importedUsers)
  {
    r := BulkImportPurchases(batch, event, csv, lookupUsers, lookupSkus, insertPurchases, startedAt, finishedAt);
    if r.Failure? {
      batch.MarkFailed(Message(r.error), finishedAt);
    }
  }

  /** The purchase workflow completes only when every step passed and the procedure reported success. */
  lemma PurchaseCompletedIff(
    event: PurchaseImportEvent, csv: ParsedCsv,
    lookupUsers: (string, set<Option<string>>) -> Lookup,
    lookupSkus: set<Option<string>> -> Lookup,
    insertPurchases: (map<string, Purchase>, string) -> RpcResponse<seq<InsertResultRow>>)
    ensures var grouped := Grouped(csv.data);
      var userIds, skuIds := UserIdsOf(grouped), SkuIdsOf(grouped);
      var response := insertPurchases(grouped, event.merchantId);
      PurchaseImportOutcome(event, csv, lookupUsers, lookupSkus, insertPurchases).Success?
      <==> && csv.errors == []
           && CheckReferences(userIds, skuIds, lookupUsers(event.merchantId, userIds), lookupSkus(skuIds)).None?
           && response.error.None? && response.data != [] && response.data[0].success
  {
  }

  /** A parse error or a reference mismatch throws before the insert procedure is called. */
  lemma FailureBeforeInsertIgnoresInsert(
    event: PurchaseImportEvent, csv: ParsedCsv,
    lookupUsers: (string, set<Option<string>>) -> Lookup,
    lookupSkus: set<Option<string>> -> Lookup,
    insert1: (map<string, Purchase>, string) -> RpcResponse<seq<InsertResultRow>>,
    insert2: (map<string, Purchase>, string) -> RpcResponse<seq<InsertResultRow>>)
    requires var grouped := Grouped(csv.data);
      var userIds, skuIds := UserIdsOf(grouped), SkuIdsOf(grouped);
      csv.errors != [] || CheckReferences(userIds, skuIds, lookupUsers(event.merchantId, userIds), lookupSkus(skuIds)).Some?
    ensures PurchaseImportOutcome(event, csv, lookupUsers, lookupSkus, insert1).Failure?
    ensures PurchaseImportOutcome(event, csv, lookupUsers, lookupSkus, insert1)
         == PurchaseImportOutcome(event, csv, lookupUsers, lookupSkus, insert2)
  {
  }

  // ---------------------------------------------------------------------
  // Customer import

  datatype CustomerImportEvent = CustomerImportEvent(
    batchId: string,
    merchantId: string,
    createWalletLedgerEntry: JsValue,
    csvData: seq<map<string, string>>)

  /** The arguments of `bulk_upsert_customers_from_import`. */
  datatype CustomerRpcRequest = CustomerRpcRequest(
    rows: seq<map<string, string>>,
    merchantId: string,
    createWalletLedgerEntry: bool,
    batchId: string,
    maxErrors: nat)

  const MaxErrors: nat := 100

  function CustomerRequest(event: CustomerImportEvent): (req: CustomerRpcRequest)
    ensures req.rows == event.csvData && req.merchantId == event.merchantId && req.batchId == event.batchId
    ensures req.createWalletLedgerEntry <==> IsTrue(event.createWalletLedgerEntry)
    ensures req.maxErrors == 100
  {
    CustomerRpcRequest(event.csvData, event.merchantId, IsTrue(event.createWalletLedgerEntry), event.batchId, MaxErrors)
  }

  /** One row returned by `bulk_upsert_customers_from_import`. */
  datatype CustomerResultRow = CustomerResultRow(
    success: bool,
    valid: Option<bool>,
    importedCount: Option<int>,
    updatedCount: Option<int>,
    errorMessage: Option<string>,
    errors: Option<seq<RowError>>,
    totalErrorCount: Option<int>)

  /** `data` of the customer procedure: an array of rows, a single row, or nothing. */
  datatype CustomerRpcData = ResultRows(rows: seq<CustomerResultRow>) | ResultRow(row: CustomerResultRow) | NoData

  /** The validate-and-insert step's reading of the procedure's answer. */
  function CustomerResultOf(response: RpcResponse<CustomerRpcData>): (r: Result<CustomerResultRow, ImportError>)
    ensures response.error.Some? ==> r == Failure(RpcFailed(response.error.value))
    ensures r.Success? <==> response.error.None? && (response.data.ResultRow? || (response.data.ResultRows? && response.data.rows != []))
    ensures r.Failure? && response.error.None? ==> r.error == RpcReturnedNoRow
    ensures r.Success? && response.data.ResultRow? ==> r.value == response.data.row
    ensures r.Success? && response.data.ResultRows? ==> r.value == response.data.rows[0]
  {
    if response.error.Some? then Failure(RpcFailed(response.error.value))
    else
      match response.data
      case ResultRows(rows) => if rows == [] then Failure(RpcReturnedNoRow) else Success(rows[0])
      case ResultRow(row) => Success(row)
      case NoData => Failure(RpcReturnedNoRow)
  }

  /** How a customer import ends when the procedure answered with a row. */
  datatype CustomerImportOutcome =
    | CustomersImported(importedCount: Option<int>, updatedCount: Option<int>)
    | CustomersInvalid(errors: seq<RowError>, totalErrorCount: Option<int>)
    | CustomersNotInserted(errorMessage: Option<string>)

  /** `(imported_count ?? 0) + (updated_count ?? 0)` */
  function ImportedUsers(importedCount: Option<int>, updatedCount: Option<int>): (n: int)
    ensures importedCount.None? && updatedCount.None? ==> n == 0
    ensures importedCount.Some? && updatedCount.Some? ==> n == importedCount.value + updatedCount.value
    ensures importedCount.Some? && updatedCount.None? ==> n == importedCount.value
    ensures importedCount.None? && updatedCount.Some? ==> n == updatedCount.value
  {
    (if importedCount.Some? then importedCount.value else 0) + (if updatedCount.Some? then updatedCount.value else 0)
  }

  /** The branches after the procedure returned a row. */
  function CustomerDisposition(row: CustomerResultRow): (o: CustomerImportOutcome)
    ensures o.CustomersImported? <==> row.success
    ensures o.CustomersInvalid? <==> !row.success && row.valid == Some(false) && row.errors.Some?
    ensures o.CustomersNotInserted? <==> !row.success && !(row.valid == Some(false) && row.errors.Some?)
    ensures o.CustomersImported? ==> o.importedCount == row.importedCount && o.updatedCount == row.updatedCount
    ensures o.CustomersInvalid? ==> Some(o.errors) == row.errors && o.totalErrorCount == row.totalErrorCount
    ensures o.CustomersNotInserted? ==> o.errorMessage == row.errorMessage
  {
    if !row.success then
      if row.valid == Some(false) && row.errors.Some? then CustomersInvalid(row.errors.value, row.totalErrorCount)
      else CustomersNotInserted(row.errorMessage)
    else CustomersImported(row.importedCount, row.updatedCount)
  }

  /** The status each normal ending writes. */
  function StatusFor(o: CustomerImportOutcome): (s: Status)
    ensures IsTerminal(s)
    ensures s == Completed <==> o.CustomersImported?
    ensures s == ValidationFailed <==> o.CustomersInvalid?
    ensures s == Failed <==> o.CustomersNotInserted?
  {
    match o
    case CustomersImported(_, _) => Completed
    case CustomersInvalid(_, _) => ValidationFailed
    case CustomersNotInserted(_) => Failed
  }

  /**
   * What the customer workflow returns or throws: the procedure's error or
   * missing row is thrown, and a returned row decides the ending.
   */
  function CustomerImportResult(
    event: CustomerImportEvent,
    upsertCustomers: CustomerRpcRequest -> RpcResponse<CustomerRpcData>
  ): (r: Result<CustomerImportOutcome, ImportError>)
    ensures var res := CustomerResultOf(upsertCustomers(CustomerRequest(event)));
      && (res.Failure? ==> r == Failure(res.error))
      && (res.Success? ==> r == Success(CustomerDisposition(res.value)))
  {
    match CustomerResultOf(upsertCustomers(CustomerRequest(event)))
    case Failure(e) => Failure(e)
    case Success(row) => Success(CustomerDisposition(row))
  }

  /** The customer workflow proper, without its failure wrapper. */
  method BulkImportCustomers(
    batch: Batch, event: CustomerImportEvent,
    upsertCustomers: CustomerRpcRequest -> RpcResponse<CustomerRpcData>,
    startedAt: nat, finishedAt: nat
  ) returns (r: Result<CustomerImportOutcome, ImportError>)
    requires batch.Valid()
    modifies batch
    ensures batch.Valid()
    ensures r == CustomerImportResult(event, upsertCustomers)
    ensures batch.statusWrites == old(batch.statusWrites) + [Processing] + (if r.Success? then [StatusFor(r.value)] else [])
    ensures batch.startedAt == Some(startedAt)
    ensures r.Success? ==> batch.status == StatusFor(r.value) && batch.completedAt == Some(finishedAt)
    ensures r.Success? && r.value.CustomersImported? ==>
              && batch.importedUsers == Some(ImportedUsers(r.value.importedCount, r.value.updatedCount))
              && batch.errorMessage == old(batch.errorMessage)
              && batch.validationErrors == old(batch.validationErrors) && batch.metadata == old(batch.metadata)
    ensures r.Success? && r.value.CustomersInvalid? ==>
              && batch.validationErrors == Some(r.value.errors)
              && batch.metadata == Some(Metadata(r.value.totalErrorCount))
              && batch.errorMessage == old(batch.errorMessage)
              && batch.importedUsers == old(batch.importedUsers)
    ensures r.Success? && r.value.CustomersNotInserted? ==>
              && batch.errorMessage == Some(OrElse(r.value.errorMessage, "Insert failed"))
              && batch.validationErrors == old(batch.validationErrors) && batch.metadata == old(batch.metadata)
              && batch.importedUsers == old(batch.importedUsers)
    ensures r.Failure? ==>
              && batch.status == Processing
              && batch.errorMessage == old(batch.errorMessage) && batch.completedAt == old(batch.completedAt)
              && batch.validationErrors == old(batch.validationErrors) && batch.metadata == old(batch.metadata)
              && batch.importedUsers == old(batch.importedUsers)
    ensures batch.importedPurchases == old(batch.importedPurchases) && batch.importedItems == old(batch.importedItems)
  {
    batch.MarkProcessing(startedAt);
    var result := CustomerResultOf(upsertCustomers(CustomerRequest(event)));
    if result.Failure? {
      return Failure(result.error);
    }
    var row := result.value;
    if !row.success {
      if row.valid == Some(false) && row.errors.Some? {
        batch.MarkValidationFailed(row.errors.value, row.totalErrorCount, finishedAt);
        return Success(CustomersInvalid(row.errors.value, row.totalErrorCount));
      }
      batch.MarkFailed(OrElse(row.errorMessage, "Insert failed"), finishedAt);
      return Success(CustomersNotInserted(row.errorMessage));
    }
    batch.MarkCustomersCompleted(ImportedUsers(row.importedCount, row.updatedCount), finishedAt);
    r := Success(CustomersImported(row.importedCount, row.updatedCount));
  }

  /**
   * The customer workflow inside its failure wrapper. The `validation_failed`
   * and in-line `failed` endings return normally, so the wrapper leaves them alone.
   */
  method BulkImportCustomersWithErrorHandling(
    batch: Batch, event: CustomerImportEvent,
    upsertCustomers: CustomerRpcRequest -> RpcResponse<CustomerRpcData>,
    startedAt: nat, finishedAt: nat
  ) returns (r: Result<CustomerImportOutcome, ImportError>)
    requires batch.Valid()
    modifies batch
    ensures batch.Valid()
    ensures r == CustomerImportResult(event, upsertCustomers)
    ensures batch.statusWrites == old(batch.statusWrites) + [Processing, if r.Success? then StatusFor(r.value) else Failed]
    ensures batch.startedAt == Some(startedAt) && batch.completedAt == Some(finishedAt)
    ensures r.Success? ==> batch.status == StatusFor(r.value)
    ensures r.Success? && r.value.CustomersImported? ==>
              && batch.importedUsers == Some(ImportedUsers(r.value.importedCount, r.value.updatedCount))
              && batch.errorMessage == old(batch.errorMessage)
              && batch.validationErrors == old(batch.validationErrors) && batch.metadata == old(batch.metadata)
    ensures r.Success? && r.value.CustomersInvalid? ==>
              && batch.validationErrors == Some(r.value.errors)
              && batch.metadata == Some(Metadata(r.value.totalErrorCount))
              && batch.errorMessage == old(batch.errorMessage)
              && batch.importedUsers == old(batch.importedUsers)
    ensures r.Success? && r.value.CustomersNotInserted? ==>
              && batch.errorMessage == Some(OrElse(r.value.errorMessage, "Insert failed"))
              && batch.validationErrors == old(batch.validationErrors) && batch.metadata == old(batch.metadata)
              && batch.importedUsers == old(batch.importedUsers)
    ensures r.Failure? ==>
              && batch.status == Failed
              && batch.errorMessage == Some(Message(r.error))
              && batch.validationErrors == old(batch.validationErrors) && batch.metadata == old(batch.metadata)
              && batch.importedUsers == old(batch.importedUsers)
    ensures batch.importedPurchases == old(batch.importedPurchases) && batch.importedItems == old(batch.importedItems)
  {
    r := BulkImportCustomers(batch, event, upsertCustomers, startedAt, finishedAt);
    if r.Failure? {
      batch.MarkFailed(Message(r.error), finishedAt);
    }
  }

  /**
   * The batch status a customer import ends in: `validation_failed` exactly
   * when the procedure reported `valid === false` with an error list, and
   * `completed` exactly when it reported success.
   */
  lemma CustomerTerminalStatus(event: CustomerImportEvent, upsertCustomers: CustomerRpcRequest -> RpcResponse<CustomerRpcData>)
    ensures var r := CustomerImportResult(event, upsertCustomers);
      var res := CustomerResultOf(upsertCustomers(CustomerRequest(event)));
      var final := if r.Success? then StatusFor(r.value) else Failed;
      && (final == ValidationFailed <==> res.Success? && !res.value.success && res.value.valid == Some(false) && res.value.errors.Some?)
      && (final == Completed <==> res.Success? && res.value.success)
      && (r.Failure? <==> res.Failure?)
  {
  }
}
