/**
 * The "validate-data" step of the purchase import workflow: the distinct
 * user ids and sku ids the purchases refer to are looked up in one query
 * each, and the step fails when a query returns fewer rows than ids asked for.
 */
module ReferenceValidation {
  import opened JsText
  import opened PurchaseGrouping

  /**
   * What an existence query hands back in `data`: the ids of the matching
   * rows (primary keys, so distinct), or null when the query failed.
   */
  datatype Lookup = Rows(ids: set<string>) | NullData

  datatype ReferenceError =
    | InvalidUserIds(expected: nat, found: nat)
    | InvalidSkuIds(expected: nat, found: nat)
    | NullLookupData   // `users!.length` / `skus!.length` on null

  /** `new Set(grouped.map(p => p.user_id))` */
  function UserIdsOf(purchases: map<string, Purchase>): set<Option<string>>
  {
    set k | k in purchases :: purchases[k].header.userId
  }

  /** `new Set(grouped.flatMap(p => p.items.map(i => i.sku_id)))` */
  function SkuIdsOf(purchases: map<string, Purchase>): set<Option<string>>
  {
    set k, j | k in purchases && 0 <= j < |purchases[k].items| :: purchases[k].items[j].skuId
  }

  /**
   * The step's decision from the two query results: user ids are checked
   * first, and only then sku ids; None means the step passed.
   */
  function CheckReferences(userIds: set<Option<string>>, skuIds: set<Option<string>>,
                           users: Lookup, skus: Lookup): (r: Option<ReferenceError>)
    ensures users.NullData? ==> r == Some(NullLookupData)
    ensures users.Rows? && |users.ids| != |userIds| ==> r == Some(InvalidUserIds(|userIds|, |users.ids|))
    ensures users.Rows? && |users.ids| == |userIds| && skus.NullData? ==> r == Some(NullLookupData)
    ensures (users.Rows? && |users.ids| == |userIds| && skus.Rows? && |skus.ids| != |skuIds|)
              ==> r == Some(InvalidSkuIds(|skuIds|, |skus.ids|))
    ensures r.None? <==> users.Rows? && |users.ids| == |userIds| && skus.Rows? && |skus.ids| == |skuIds|
  {
    match users
    case NullData => Some(NullLookupData)
    case Rows(found) =>
      if |found| != |userIds| then Some(InvalidUserIds(|userIds|, |found|))
      else
        match skus
        case NullData => Some(NullLookupData)
        case Rows(foundSkus) =>
          if |foundSkus| != |skuIds| then Some(InvalidSkuIds(|skuIds|, |foundSkus|)) else None
  }

  /** What a faithful store returns for `.in("id", ids)`: the requested ids that exist. */
  function StoreLookup(requested: set<Option<string>>, existing: set<string>): Lookup
  {
    Rows(set s | s in existing && Some(s) in requested)
  }

  /** Every requested id is a real string that exists in the store. */
  predicate AllExist(requested: set<Option<string>>, existing: set<string>)
  {
    forall id :: id in requested ==> id.Some? && id.value in existing
  }

  /** Against a faithful store the check passes iff every referenced id exists. */
  lemma ReferencesValidIff(purchases: map<string, Purchase>, existingUsers: set<string>, existingSkus: set<string>)
    ensures var userIds, skuIds := UserIdsOf(purchases), SkuIdsOf(purchases);
      CheckReferences(userIds, skuIds, StoreLookup(userIds, existingUsers), StoreLookup(skuIds, existingSkus)).None?
      <==> AllExist(userIds, existingUsers) && AllExist(skuIds, existingSkus)
  {
    FoundAllIff(UserIdsOf(purchases), existingUsers);
    FoundAllIff(SkuIdsOf(purchases), existingSkus);
  }

  /** Against a faithful store a missing user id is reported first, with its counts. */
  lemma MissingUserReportedFirst(purchases: map<string, Purchase>, existingUsers: set<string>, skus: Lookup)
    requires !AllExist(UserIdsOf(purchases), existingUsers)
    ensures var userIds := UserIdsOf(purchases);
      var found := StoreLookup(userIds, existingUsers).ids;
      && |found| < |userIds|
      && CheckReferences(userIds, SkuIdsOf(purchases), StoreLookup(userIds, existingUsers), skus)
         == Some(InvalidUserIds(|userIds|, |found|))
  {
    FoundAllIff(UserIdsOf(purchases), existingUsers);
  }

  /** The query returns as many rows as ids asked for iff every id exists. */
  lemma FoundAllIff(requested: set<Option<string>>, existing: set<string>)
    ensures |StoreLookup(requested, existing).ids| <= |requested|
    ensures |StoreLookup(requested, existing).ids| == |requested| <==> AllExist(requested, existing)
  {
    var found := StoreLookup(requested, existing).ids;
    var image := set s | s in found :: Some(s);
    SomeImageSize(found);
    assert image <= requested;
    SubsetSize(image, requested);
    if AllExist(requested, existing) {
      assert requested <= image by {
        forall id | id in requested ensures id in image {
          assert id.value in found;
        }
      }
      assert image == requested;
    }
    if |found| == |requested| {
      assert image == requested;
    }
  }

  lemma {:induction false} SomeImageSize(found: set<string>)
    ensures |set s | s in found :: Some(s)| == |found|
  {
    if found != {} {
      var x :| x in found;
      var rest := found - {x};
      SomeImageSize(rest);
      assert (set s | s in found :: Some(s)) == (set s | s in rest :: Some(s)) + {Some(x)};
    }
  }

  /** A subset is no larger, and equally large only when it is the whole set. */
  lemma {:induction false} SubsetSize<T>(a: set<T>, b: set<T>)
    requires a <= b
    ensures |a| <= |b|
    ensures |a| == |b| ==> a == b
  {
    SubsetIsNoLarger(a, b);
    if a != b {
      assert exists y :: y in b && y !in a;
      var x :| x in b && x !in a;
      assert a <= b - {x};
      assert |b - {x}| == |b| - 1;
      SubsetIsNoLarger(a, b - {x});
    }
  }

  lemma {:induction false} SubsetIsNoLarger<T>(a: set<T>, b: set<T>)
    requires a <= b
    ensures |a| <= |b|
  {
    assert b == a + (b - a);
  }
}
