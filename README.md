# Auditable: a verified model of the audit-payload policy

The `Auditable` trait hooks into an Eloquent model's lifecycle. After a model is
created, updated, deleted or restored, it writes one row to the `audit_trails`
table. The row records the model's short class name, its key, the action, the
acting user, the request IP, and a `changes` payload with a `before` and an
`after` snapshot of the attributes.

The payload depends on the action:

- `created` and `restored`: `before` is null and `after` is the current attributes.
- `deleted`: `before` is the current attributes and `after` is null.
- `updated`: `before` holds the original values and `after` the current values,
  both narrowed to the dirty keys. When nothing is dirty, no row is written.

Both snapshots are stripped of an ignore list. That list is the model's own
`$auditIgnore` when it declares one, and otherwise the trait's default
`password, remember_token, updated_at, created_at`. A declared list replaces the
default; the two are never merged. Anything that throws while the payload is
built or the row is created is caught, and a warning is logged in place of the
row.

Files:

- `wrappers.dfy`: the `Option` type used for null.
- `audit_trail.dfy`: module `AuditTrail`. It holds the attribute values, the
  `changes` payload, the row (one field per fillable column of
  `app/Models/AuditTrail.php`), and the table as a class whose rows only grow.
- `auditable.dfy`: module `Auditable`. It holds the ignore list in force, the
  filtering function `Filtered` and the loop `FilterAuditableAttributes` proved
  equal to it, the payload case analysis `Payload`, and the outcome of a call
  `AuditEffect`. It also holds the `Logger` class and the `WriteAuditLog` method,
  which updates the table and the logger exactly as `AuditEffect` says. The
  properties of each step are proved as lemmas.
- `order_scenarios.dfy`: module `OrderScenarios`. It states the policy's
  outcome on an `Order` model, for any id, total, password and timestamps:
  creating it, then changing its total.

The values the trait takes from the framework are inputs of the model. They
are `static::class`, `class_basename($this)`, `getKey()`, `getAttributes()`,
`getOriginal()`, `getDirty()`, `Auth::id()` and `Request::ip()`. They appear as
fields of `Auditable.Model` and as the `userId` and `ip` parameters (`userId`
is `Null` when nobody is authenticated). An exception
on the audit path is the `fault` parameter: `Some(message)` means something
threw with that message.

Three consequences of the code that are easy to get wrong:

- An update that changes only ignored keys, such as only `updated_at`, still
  writes a row. Both snapshots of that row are empty. The early exit tests the
  unfiltered dirty map (`IgnoredOnlyUpdateStillLogged`).
- The model's key attribute (`id`) is not ignored, so it appears in the `after`
  of a creation (`OrderScenarios.OrderCreated`).
- The warning names the fully qualified class (`static::class`). The row names
  the short class (`class_basename`).

## Model

| member | source | states |
|---|---|---|
| `Auditable.IgnoreList` | app/Traits/Auditable.php:105 | the ignore list in force is the model's declared `$auditIgnore` when there is one, else the default list |
| `Auditable.Filtered` | app/Traits/Auditable.php:103-112 | the filtered map holds exactly the input's keys minus every key of the ignore list, each with its input value (a sub-map of the input) |
| `Auditable.FilterAuditableAttributes` | app/Traits/Auditable.php:103-112 | the `foreach`/`unset` loop over the ignore list in force leaves exactly the non-ignored keys with their values, and equals `Filtered` |
| `Auditable.DefaultIgnoreSet` | app/Traits/Auditable.php:23-28 | without a declared `$auditIgnore`, the keys ignored are exactly `password`, `remember_token`, `updated_at`, `created_at` |
| `Auditable.OverrideReplacesDefault` | app/Traits/Auditable.php:105 | a declared `$auditIgnore` is the whole ignore set, with nothing merged from the default, so `password` survives filtering when the override omits it |
| `Auditable.FilterIdempotent` | app/Traits/Auditable.php:106-111 | filtering a filtered map again gives the same map |
| `Auditable.FilterAbsentKeysNoop` | app/Traits/Auditable.php:106-110 | ignore keys the input does not hold change nothing |
| `Auditable.FilterAbsentKeyNoop` | app/Traits/Auditable.php:106-110 | one ignore key the input does not hold, wherever it sits in the list, can be dropped without changing the result |
| `Auditable.IntersectKey` | app/Traits/Auditable.php:70-71 | `array_intersect_key` keeps exactly the keys common to both maps, with the values of the first |
| `Auditable.Payload` | app/Traits/Auditable.php:59-79 | there is no payload (early exit) exactly when the action is `updated` and the dirty map is empty; no snapshot holds an ignored key; `after` is a sub-map of the current attributes, and `before` is a sub-map of the original attributes for an update and of the current attributes otherwise |
| `Auditable.CreatedOrRestoredPayload` | app/Traits/Auditable.php:63-64 | for `created` and `restored`, `before` is null and `after` is the current attributes minus the ignore set |
| `Auditable.DeletedPayload` | app/Traits/Auditable.php:72-73 | for `deleted`, `after` is null and `before` is the current attributes minus the ignore set |
| `Auditable.UpdatedPayload` | app/Traits/Auditable.php:65-71 | for `updated` with a non-empty dirty map, `before` has keys (original ∩ dirty) minus the ignore set with the original values, and `after` has keys (current ∩ dirty) minus the ignore set with the current values |
| `Auditable.UpdatedAfterKeys` | app/Traits/Auditable.php:71 | when every dirty key is a current attribute, `after` holds exactly the non-ignored dirty keys |
| `Auditable.IgnoredOnlyUpdateStillLogged` | app/Traits/Auditable.php:66-71 | an update whose dirty keys are all ignored does not exit early; it yields empty `before` and `after` |
| `Auditable.SingleFieldUpdate` | app/Traits/Auditable.php:70-71 | an update whose one non-ignored dirty key is `x` logs `{x: original}` before and `{x: current}` after |
| `Auditable.OtherActionPayload` | app/Traits/Auditable.php:60-74 | an action none of the four branches matches leaves both snapshots null |
| `Auditable.AuditEffect` | app/Traits/Auditable.php:59-96 | nothing on the early exit (an update with an empty dirty map); otherwise one warning naming the class, key, action and message exactly when a fault is set, else one row with the short class name, key, action, user id, ip and the payload |
| `Auditable.ExactlyOneRecord` | app/Traits/Auditable.php:66-96 | a call records nothing on the early exit and otherwise exactly one thing: a row or a warning |
| `Auditable.AppendedEntry` | app/Traits/Auditable.php:81-88 | without a failure, the row has the short class name, the model key, the action, the given user id and ip, and the payload |
| `Auditable.FailureBecomesWarning` | app/Traits/Auditable.php:89-96 | with a failure, no row is added and exactly one warning with the class, key, action and message is logged |
| `Auditable.WriteAuditLog` | app/Traits/Auditable.php:57-98 | the table's rows and the logger's warnings are the old ones extended by exactly what `AuditEffect` prescribes, and nothing else changes |
| `Auditable.Logger.Warn` | app/Traits/Auditable.php:91-96 | appends exactly one warning to the log |
| `AuditTrail.Table.Create` | app/Traits/Auditable.php:81-88 | appends exactly one row and keeps every earlier row |
| `Auditable.ObservedActions` | app/Traits/Auditable.php:33-52 | hooks exist for `created`, `updated` and `deleted`, and for `restored` exactly when the model can be restored |
| `Auditable.ObservedActionsFillASnapshot` | app/Traits/Auditable.php:35-74 | every action a hook registers fills `before` or `after` unless it is an update with an empty dirty map, so the all-null fall-through is unreachable through a hook |
| `OrderScenarios.OrderCreatedPayload` | app/Traits/Auditable.php:63-64 | creating an `Order` with an id, total, password and creation time yields `after = {id, total}` |
| `OrderScenarios.OrderCreated` | app/Traits/Auditable.php:81-88 | that creation appends one row `Order`, the id, `created`, the user, `before` null, `after {id, total}`, the ip |
| `OrderScenarios.OrderUpdated` | app/Traits/Auditable.php:65-88 | changing the total (and `updated_at`) appends one row with `before {total: old}` and `after {total: new}` |

## Left out

- Hook registration in `bootAuditable` goes through Laravel's event system and a reflective `method_exists` test. It is modelled only as the list of observed actions, with a flag for restore support.
- `Auth::id()`, `Request::ip()`, `class_basename`, `static::class` and `getKey()` are framework calls. Their results are inputs.
- `getAttributes`, `getOriginal` and `getDirty` are Eloquent internals. Their results are input maps. Only the keys of the dirty map matter.
- `fault` stands for an exception thrown after the early-exit test, by `getAttributes`, `getOriginal`, `Auth::id()`, `Request::ip()` or `AuditTrail::create`; it excludes a failing `getKey()`. An exception thrown by `getDirty` itself, before that test, is not modelled.
- A model that declares `$auditIgnore` with a value that is not a list is not modelled. The override is a list of strings.
- PHP array keys that are integers, and PHP's conversion of numeric strings to integer keys, are not modelled. Attribute names are strings.
- Persistence of rows and the table's own id and timestamps belong to the framework. `AuditTrail` declares no cast for `changes`; whether the array can be stored is left to the `fault` input.
- The format and destination of `logger()` output are not modelled. A warning is a record appended to `Logger.warnings`.
- WriteAuditLog: a throw inside the catch block (`getKey()` at line 93, `logger()` at line 91) propagates to the caller and is not modelled; the warning path is taken never to throw, and `fault` excludes a failing `getKey`.
- The unused `AuditLog` import has no behaviour.
