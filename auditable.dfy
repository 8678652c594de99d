/**
 * The `Auditable` trait: on each lifecycle action of an Eloquent model it picks
 * the `before` and `after` snapshots, narrows updates to the dirty keys, strips
 * the ignored attributes, and creates one audit trail row, turning any failure
 * into a logged warning.
 *
 * What the trait reads from the framework (`static::class`, `class_basename`,
 * `getKey`, `getAttributes`, `getOriginal`, `getDirty`, `Auth::id`,
 * `Request::ip`) is passed in as values.
 */
module Auditable {
  import opened Wrappers
  import opened AuditTrail

  const Created: string := "created"
  const Updated: string := "updated"
  const Deleted: string := "deleted"
  const Restored: string := "restored"

  /** The trait's default `$auditIgnored` list. */
  const DefaultIgnored: seq<string> := ["password", "remember_token", "updated_at", "created_at"]

  /** What `writeAuditLog` reads from the model instance it is attached to. */
  datatype Model = Model(
    modelClass: string,                // static::class, the fully qualified class name
    baseName: string,                  // class_basename($this)
    key: Value,                        // $this->getKey()
    attributes: Attrs,                 // $this->getAttributes()
    original: Attrs,                   // $this->getOriginal()
    dirty: Attrs,                      // $this->getDirty()
    auditIgnore: Option<seq<string>>)  // the model's own `$auditIgnore`, when it declares one

  /** The diagnostic logged instead of a row when auditing fails. */
  datatype Warning = Warning(model: string, id: Value, action: string, message: string)

  /** What one call of `writeAuditLog` leaves behind. */
  datatype Effect = Skipped | Appended(entry: Entry) | Warned(warning: Warning)

  /** Every key listed in an ignore list. */
  function KeySet(keys: seq<string>): set<string>
  {
    set k | k in keys
  }

  /** `sub` holds some of the keys of `m`, each with the value it has in `m`. */
  predicate IsSubMap(sub: Attrs, m: Attrs)
  {
    sub.Keys <= m.Keys && forall k :: k in sub ==> sub[k] == m[k]
  }

  /** The ignore list in force: the model's own `$auditIgnore` if it declares one, else the default. */
  function IgnoreList(m: Model): (r: seq<string>)
    ensures m.auditIgnore.Some? ==> r == m.auditIgnore.value
    ensures m.auditIgnore.None? ==> r == DefaultIgnored
  {
    match m.auditIgnore
    case Some(list) => list
    case None => DefaultIgnored
  }

  /**
   * The result of unsetting, one after the other, every key of `ignore` that is
   * present: no ignored key is left and every other key keeps its value.
   */
  function Filtered(attributes: Attrs, ignore: seq<string>): (r: Attrs)
    ensures r.Keys == attributes.Keys - KeySet(ignore)
    ensures IsSubMap(r, attributes)
    decreases |ignore|
  {
    if ignore == [] then attributes
    else
      var key := ignore[0];
      assert KeySet(ignore) == {key} + KeySet(ignore[1..]);
      Filtered(if key in attributes then attributes - {key} else attributes, ignore[1..])
  }

  /** `array_intersect_key($a, $b)`: the entries of `a` whose key is also a key of `b`. */
  function IntersectKey(a: Attrs, b: Attrs): (r: Attrs)
    ensures r.Keys == a.Keys * b.Keys
    ensures IsSubMap(r, a)
  {
    map k | k in a && k in b :: a[k]
  }

  /** `filterAuditableAttributes`: a loop over the ignore list in force that unsets each present key. */
  method FilterAuditableAttributes(m: Model, attributes: Attrs) returns (r: Attrs)
    ensures r.Keys == attributes.Keys - KeySet(IgnoreList(m))
    ensures IsSubMap(r, attributes)
    ensures r == Filtered(attributes, IgnoreList(m))
  {
    var ignore := IgnoreList(m);
    r := attributes;
    for i := 0 to |ignore|
      invariant r.Keys == attributes.Keys - KeySet(ignore[..i])
      invariant IsSubMap(r, attributes)
    {
      var key := ignore[i];
      if key in r {
        r := r - {key};
      }
      assert ignore[..i + 1] == ignore[..i] + [key];
    }
    assert ignore[..|ignore|] == ignore;
  }

  /**
   * The `changes` payload `writeAuditLog` builds for `action`, or None when it
   * returns early: an update whose dirty map is empty.
   */
  function Payload(m: Model, action: string): (r: Option<Changes>)
    ensures r.None? <==> action == Updated && m.dirty == map[]
    ensures r.Some? && r.value.before.Some? ==>
      r.value.before.value.Keys !! KeySet(IgnoreList(m)) && IsSubMap(r.value.before.value, if action == Updated then m.original else m.attributes)
    ensures r.Some? && r.value.after.Some? ==>
      r.value.after.value.Keys !! KeySet(IgnoreList(m)) && IsSubMap(r.value.after.value, m.attributes)
  {
    var ignore := IgnoreList(m);
    if action == Created || action == Restored then
      Some(Changes(None, Some(Filtered(m.attributes, ignore))))
    else if action == Updated then
      if m.dirty == map[] then None
      else
        Some(Changes(Some(Filtered(IntersectKey(m.original, m.dirty), ignore)),
                     Some(Filtered(IntersectKey(m.attributes, m.dirty), ignore))))
    else if action == Deleted then
      Some(Changes(Some(Filtered(m.attributes, ignore)), None))
    else
      Some(Changes(None, None))
  }

  /**
   * The outcome of one `writeAuditLog` call: nothing on an early exit, else one
   * row, or one warning when something on the way (`fault`) throws.
   */
  function AuditEffect(m: Model, action: string, userId: Value, ip: Option<string>,
                       fault: Option<string>): (r: Effect)
    ensures r.Skipped? <==> action == Updated && m.dirty == map[]
    ensures r.Warned? <==> fault.Some? && !(action == Updated && m.dirty == map[])
    ensures r.Warned? ==> r.warning == Warning(m.modelClass, m.key, action, fault.value)
    ensures r.Appended? ==>
      && r.entry.entityName == m.baseName && r.entry.entityId == m.key && r.entry.action == action
      && r.entry.userId == userId && r.entry.ipAddress == ip
      && Payload(m, action) == Some(r.entry.changes)
  {
    match Payload(m, action)
    case None => Skipped
    case Some(changes) =>
      match fault
      case Some(message) => Warned(Warning(m.modelClass, m.key, action, message))
      case None => Appended(Entry(m.baseName, m.key, action, userId, changes, ip))
  }

  /** The rows an effect adds to the audit trail. */
  function RowsOf(e: Effect): seq<Entry>
  {
    if e.Appended? then [e.entry] else []
  }

  /** The warnings an effect adds to the log. */
  function WarningsOf(e: Effect): seq<Warning>
  {
    if e.Warned? then [e.warning] else []
  }

  /** The warning channel of `logger()`, seen as the sequence of warnings logged so far. */
  class Logger {
    var warnings: seq<Warning>

    constructor ()
      ensures warnings == []
    {
      warnings := [];
    }

    /** `logger()->warning(...)`: records exactly one warning. */
    method Warn(w: Warning)
      modifies this
      ensures warnings == old(warnings) + [w]
    {
      warnings := warnings + [w];
    }
  }

  /**
   * `writeAuditLog`: computes the payload, then creates one row, or logs one
   * warning when `fault` says the audit path threw; its warning path is assumed
   * not to throw.
   */
  method WriteAuditLog(m: Model, action: string, userId: Value, ip: Option<string>,
                       fault: Option<string>, table: Table, logger: Logger)
    modifies table, logger
    ensures table.rows == old(table.rows) + RowsOf(AuditEffect(m, action, userId, ip, fault))
    ensures logger.warnings == old(logger.warnings) + WarningsOf(AuditEffect(m, action, userId, ip, fault))
  {
    var before: Option<Attrs> := None;
    var after: Option<Attrs> := None;
    if action == Created || action == Restored {
      var filtered := FilterAuditableAttributes(m, m.attributes);
      after := Some(filtered);
    } else if action == Updated {
      if m.dirty == map[] {
        return;
      }
      var filteredBefore := FilterAuditableAttributes(m, IntersectKey(m.original, m.dirty));
      var filteredAfter := FilterAuditableAttributes(m, IntersectKey(m.attributes, m.dirty));
      before, after := Some(filteredBefore), Some(filteredAfter);
    } else if action == Deleted {
      var filtered := FilterAuditableAttributes(m, m.attributes);
      before := Some(filtered);
    }
    var changes := Changes(before, after);
    assert Payload(m, action) == Some(changes);
    if fault.Some? {
      logger.Warn(Warning(m.modelClass, m.key, action, fault.value));
    } else {
      table.Create(Entry(m.baseName, m.key, action, userId, changes, ip));
    }
  }

  /** The actions `bootAuditable` registers a hook for; `restored` only when the model can be restored. */
  function ObservedActions(canRestore: bool): (r: seq<string>)
    ensures Created in r && Updated in r && Deleted in r
    ensures Restored in r <==> canRestore
    ensures |r| == if canRestore then 4 else 3
  {
    [Created, Updated, Deleted] + (if canRestore then [Restored] else [])
  }

  // Properties of the ignore-set and of filtering

  /** Without an override, exactly the four default keys are ignored. */
  lemma DefaultIgnoreSet(m: Model)
    requires m.auditIgnore.None?
    ensures KeySet(IgnoreList(m)) == {"password", "remember_token", "updated_at", "created_at"}
  {
    var ignore := IgnoreList(m);
    assert ignore[0] == "password" && ignore[1] == "remember_token";
    assert ignore[2] == "updated_at" && ignore[3] == "created_at";
  }

  /** A declared `$auditIgnore` replaces the default list entirely; nothing of the default is merged in. */
  lemma OverrideReplacesDefault(m: Model, list: seq<string>)
    requires m.auditIgnore == Some(list)
    ensures KeySet(IgnoreList(m)) == KeySet(list)
    ensures forall attributes: Attrs :: "password" in attributes && "password" !in list ==>
      "password" in Filtered(attributes, IgnoreList(m))
  {
  }

  /** Filtering an already filtered map changes nothing. */
  lemma FilterIdempotent(attributes: Attrs, ignore: seq<string>)
    ensures Filtered(Filtered(attributes, ignore), ignore) == Filtered(attributes, ignore)
  {
  }

  /** Ignored keys that the input does not hold are no-ops. */
  lemma FilterAbsentKeysNoop(attributes: Attrs, ignore: seq<string>)
    requires attributes.Keys !! KeySet(ignore)
    ensures Filtered(attributes, ignore) == attributes
  {
  }

  /** An ignored key the input does not hold can be dropped from the ignore list without effect. */
  lemma FilterAbsentKeyNoop(attributes: Attrs, ig1: seq<string>, k: string, ig2: seq<string>)
    requires k !in attributes
    ensures Filtered(attributes, ig1 + [k] + ig2) == Filtered(attributes, ig1 + ig2)
  {
    assert KeySet(ig1 + [k] + ig2) == KeySet(ig1 + ig2) + {k};
  }

  // Properties of the payload, action by action

  /** `created` and `restored`: no `before`; `after` is the current attributes less the ignored keys. */
  lemma CreatedOrRestoredPayload(m: Model, action: string)
    requires action == Created || action == Restored
    ensures Payload(m, action) == Some(Changes(None, Some(m.attributes - KeySet(IgnoreList(m)))))
  {
    var after := Filtered(m.attributes, IgnoreList(m));
    assert after == m.attributes - KeySet(IgnoreList(m));
  }

  /** `deleted`: no `after`; `before` is the current attributes less the ignored keys. */
  lemma DeletedPayload(m: Model)
    ensures Payload(m, Deleted) == Some(Changes(Some(m.attributes - KeySet(IgnoreList(m))), None))
  {
    var before := Filtered(m.attributes, IgnoreList(m));
    assert before == m.attributes - KeySet(IgnoreList(m));
  }

  /**
   * `updated` with a non-empty dirty map: `before` holds the original values and
   * `after` the current values of the changed keys, less the ignored ones.
   */
  lemma UpdatedPayload(m: Model)
    requires m.dirty != map[]
    ensures Payload(m, Updated).Some?
    ensures Payload(m, Updated).value.before.Some? && Payload(m, Updated).value.after.Some?
    ensures Payload(m, Updated).value.before.value.Keys == (m.original.Keys * m.dirty.Keys) - KeySet(IgnoreList(m))
    ensures IsSubMap(Payload(m, Updated).value.before.value, m.original)
    ensures Payload(m, Updated).value.after.value.Keys == (m.attributes.Keys * m.dirty.Keys) - KeySet(IgnoreList(m))
    ensures IsSubMap(Payload(m, Updated).value.after.value, m.attributes)
  {
  }

  /** When the dirty keys are current attributes, `after` holds exactly the non-ignored dirty keys. */
  lemma UpdatedAfterKeys(m: Model)
    requires m.dirty != map[] && m.dirty.Keys <= m.attributes.Keys
    ensures Payload(m, Updated).Some? && Payload(m, Updated).value.after.Some?
    ensures Payload(m, Updated).value.after.value.Keys == m.dirty.Keys - KeySet(IgnoreList(m))
  {
    UpdatedPayload(m);
    assert m.attributes.Keys * m.dirty.Keys == m.dirty.Keys;
  }

  /**
   * The early exit tests the unfiltered dirty map: an update confined to ignored
   * keys still yields a payload, with empty `before` and `after`.
   */
  lemma IgnoredOnlyUpdateStillLogged(m: Model)
    requires m.dirty != map[] && m.dirty.Keys <= KeySet(IgnoreList(m))
    ensures Payload(m, Updated) == Some(Changes(Some(map[]), Some(map[])))
  {
    UpdatedPayload(m);
  }

  /**
   * An update whose only non-ignored dirty key is `x` logs `x` alone: its
   * original value before and its current value after.
   */
  lemma SingleFieldUpdate(m: Model, x: string)
    requires m.dirty.Keys - KeySet(IgnoreList(m)) == {x}
    requires x in m.original && x in m.attributes
    ensures Payload(m, Updated)
      == Some(Changes(Some(map[x := m.original[x]]), Some(map[x := m.attributes[x]])))
  {
    UpdatedPayload(m);
    var changes := Payload(m, Updated).value;
    assert changes.before.value.Keys == {x};
    assert changes.after.value.Keys == {x};
    assert changes.before.value == map[x := m.original[x]];
    assert changes.after.value == map[x := m.attributes[x]];
  }

  /** An action none of the hooks passes falls through with both snapshots null. */
  lemma OtherActionPayload(m: Model, action: string)
    requires action != Created && action != Updated && action != Deleted && action != Restored
    ensures Payload(m, action) == Some(Changes(None, None))
  {
  }

  // Properties of one call of writeAuditLog

  /** Nothing is recorded on the early exit; otherwise exactly one row or one warning. */
  lemma ExactlyOneRecord(m: Model, action: string, userId: Value, ip: Option<string>,
                         fault: Option<string>)
    ensures |RowsOf(AuditEffect(m, action, userId, ip, fault))| + |WarningsOf(AuditEffect(m, action, userId, ip, fault))|
      == if action == Updated && m.dirty == map[] then 0 else 1
  {
  }

  /** Without a failure, the one row carries the action, the model's key, the caller's user and ip, and the payload. */
  lemma AppendedEntry(m: Model, action: string, userId: Value, ip: Option<string>)
    requires !(action == Updated && m.dirty == map[])
    ensures var e := AuditEffect(m, action, userId, ip, None);
      && e.Appended?
      && e.entry.entityName == m.baseName && e.entry.entityId == m.key && e.entry.action == action
      && e.entry.userId == userId && e.entry.ipAddress == ip
      && Some(e.entry.changes) == Payload(m, action)
  {
  }

  /** A failure leaves the trail unchanged and logs one warning naming the model class, key, action and message. */
  lemma FailureBecomesWarning(m: Model, action: string, userId: Value, ip: Option<string>,
                              message: string)
    requires !(action == Updated && m.dirty == map[])
    ensures RowsOf(AuditEffect(m, action, userId, ip, Some(message))) == []
    ensures WarningsOf(AuditEffect(m, action, userId, ip, Some(message)))
      == [Warning(m.modelClass, m.key, action, message)]
  {
  }

  /**
   * Every action a hook passes fills at least one snapshot, unless it is an
   * update with nothing dirty: the all-null fall-through is never reached
   * through a hook.
   */
  lemma ObservedActionsFillASnapshot(m: Model, canRestore: bool, action: string)
    requires action in ObservedActions(canRestore)
    ensures Payload(m, action).None?
      || Payload(m, action).value.before.Some? || Payload(m, action).value.after.Some?
  {
    assert action == Created || action == Updated || action == Deleted || action == Restored;
  }
}
