/**
 * The audit policy's outcome on an `Order` model with a `total`, a `password`
 * and the two timestamps, under the default ignore list.
 */
module OrderScenarios {
  import opened Wrappers
  import opened AuditTrail
  import opened Auditable

  /** An `Order` model just saved: its key, a total, a password and a creation time. */
  function NewOrder(id: int, total: int, password: string, createdAt: string): Model
  {
    Model("App\\Models\\Order", "Order", Int(id),
          map["id" := Int(id), "total" := Int(total), "password" := Str(password), "created_at" := Str(createdAt)],
          map[], map[], None)
  }

  /** Creating an order logs its attributes less `password` and `created_at`. */
  lemma OrderCreatedPayload(id: int, total: int, password: string, createdAt: string)
    ensures Payload(NewOrder(id, total, password, createdAt), Created)
      == Some(Changes(None, Some(map["id" := Int(id), "total" := Int(total)])))
  {
    var order := NewOrder(id, total, password, createdAt);
    DefaultIgnoreSet(order);
    CreatedOrRestoredPayload(order, Created);
    assert order.attributes - {"password", "remember_token", "updated_at", "created_at"}
      == map["id" := Int(id), "total" := Int(total)];
  }

  /** Creating an order appends one row whose `after` is that payload. */
  lemma OrderCreated(id: int, total: int, password: string, createdAt: string,
                     userId: Value, ip: Option<string>)
    ensures AuditEffect(NewOrder(id, total, password, createdAt), Created, userId, ip, None)
      == Appended(Entry("Order", Int(id), Created, userId,
                        Changes(None, Some(map["id" := Int(id), "total" := Int(total)])), ip))
  {
    OrderCreatedPayload(id, total, password, createdAt);
    AppendedEntry(NewOrder(id, total, password, createdAt), Created, userId, ip);
  }

  /** The same order once its total has moved from `total` to `newTotal` and `updated_at` was touched. */
  function UpdatedOrder(id: int, total: int, newTotal: int, password: string, createdAt: string,
                        updatedAt: string): Model
  {
    var order := NewOrder(id, total, password, createdAt);
    order.(
      attributes := order.attributes["total" := Int(newTotal)]["updated_at" := Str(updatedAt)],
      original := order.attributes,
      dirty := map["total" := Int(newTotal), "updated_at" := Str(updatedAt)])
  }

  /** The update logs only `total`, although `updated_at` changed too. */
  lemma OrderUpdated(id: int, total: int, newTotal: int, password: string, createdAt: string,
                     updatedAt: string, userId: Value, ip: Option<string>)
    ensures AuditEffect(UpdatedOrder(id, total, newTotal, password, createdAt, updatedAt),
                        Updated, userId, ip, None)
      == Appended(Entry("Order", Int(id), Updated, userId,
                        Changes(Some(map["total" := Int(total)]), Some(map["total" := Int(newTotal)])),
                        ip))
  {
    var order := UpdatedOrder(id, total, newTotal, password, createdAt, updatedAt);
    DefaultIgnoreSet(order);
    assert order.dirty.Keys - KeySet(IgnoreList(order)) == {"total"};
    SingleFieldUpdate(order, "total");
  }
}
