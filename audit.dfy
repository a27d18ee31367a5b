/** The audit trail (app/models/__init__.py, `AuditMixin.create_audit_log`):
    a field-level diff between the old and the new values of a record. A
    missing dict of values is the empty map. */
module Audit {
  import opened Common

  /** One changed field: `{'old': old_val, 'new': new_val}`. */
  function DiffEntry(oldVal: Json, newVal: Json): Json
  {
    JObj(map["old" := oldVal, "new" := newVal])
  }

  /** The field `key` of `newValues` differs from what `oldValues` holds (a
      missing old field reads as null). */
  predicate Changed(oldValues: map<string, Json>, newValues: map<string, Json>, key: string)
    requires key in newValues
  {
    !PyEq(Get(oldValues, key), newValues[key])
  }

  /** The diff `create_audit_log` records: nothing unless both dicts are
      non-empty; then one entry per changed key of `newValues`. */
  ghost function ExpectedDiff(oldValues: map<string, Json>, newValues: map<string, Json>): map<string, Json>
  {
    if oldValues == map[] || newValues == map[] then map[]
    else
      map k | k in newValues && Changed(oldValues, newValues, k) :: DiffEntry(Get(oldValues, k), newValues[k])
  }

  /** The audit log row. */
  datatype AuditLog = AuditLog(actorUserId: Option<int>, action: string, entity: string,
                               entityId: int, diff: map<string, Json>)

  /** The diff loop of `create_audit_log`: every key of `newValues` is visited
      once, and a changed one gets an entry. */
  method ComputeDiff(oldValues: map<string, Json>, newValues: map<string, Json>)
    returns (diff: map<string, Json>)
    ensures diff == ExpectedDiff(oldValues, newValues)
    ensures oldValues == map[] || newValues == map[] ==> diff == map[]
    ensures forall k :: k in diff ==> k in newValues && Changed(oldValues, newValues, k)
    ensures oldValues != map[] ==>
              forall k :: k in newValues && Changed(oldValues, newValues, k) ==> k in diff
    ensures forall k :: k in diff ==> diff[k] == DiffEntry(Get(oldValues, k), newValues[k])
    ensures forall k :: k in oldValues && k !in newValues ==> k !in diff
  {
    diff := map[];
    if oldValues != map[] && newValues != map[] {
      var todo := newValues;
      while exists k :: k in todo
        invariant DiffProgress(oldValues, newValues, todo, diff)
        decreases |todo.Keys|
      {
        var key :| key in todo;
        var newVal := todo[key];
        var oldVal := Get(oldValues, key);
        DiffStep(oldValues, newValues, todo, diff, key);
        if !PyEq(oldVal, newVal) {
          diff := diff[key := DiffEntry(oldVal, newVal)];
        }
        todo := todo - {key};
      }
      DiffDone(oldValues, newValues, todo, diff);
    } else {
      forall k | k in ExpectedDiff(oldValues, newValues) ensures false { }
    }
  }

  /** The loop state: `todo` is what is left of `newValues`, and `diff` holds
      exactly the changed keys already visited. */
  ghost predicate DiffProgress(oldValues: map<string, Json>, newValues: map<string, Json>,
                               todo: map<string, Json>, diff: map<string, Json>)
  {
    && (forall k :: k in todo ==> k in newValues && todo[k] == newValues[k])
    && (forall k :: k in diff ==> k in newValues && k !in todo && Changed(oldValues, newValues, k))
    && (forall k :: k in newValues && k !in todo && Changed(oldValues, newValues, k) ==> k in diff)
    && (forall k :: k in diff ==> diff[k] == DiffEntry(Get(oldValues, k), newValues[k]))
  }

  /** Visiting one more key keeps the loop state. */
  lemma DiffStep(oldValues: map<string, Json>, newValues: map<string, Json>,
                 todo: map<string, Json>, diff: map<string, Json>, key: string)
    requires DiffProgress(oldValues, newValues, todo, diff)
    requires key in todo
    ensures key in newValues && todo[key] == newValues[key]
    ensures DiffProgress(oldValues, newValues, todo - {key},
              if !PyEq(Get(oldValues, key), todo[key]) then diff[key := DiffEntry(Get(oldValues, key), todo[key])] else diff)
    ensures |(todo - {key}).Keys| < |todo.Keys|
  {
    var rest := todo - {key};
    assert rest.Keys == todo.Keys - {key};
    if !PyEq(Get(oldValues, key), todo[key]) {
      DiffStepChanged(oldValues, newValues, todo, diff, key);
    } else {
      DiffStepUnchanged(oldValues, newValues, todo, diff, key);
    }
  }

  lemma DiffStepChanged(oldValues: map<string, Json>, newValues: map<string, Json>,
                        todo: map<string, Json>, diff: map<string, Json>, key: string)
    requires DiffProgress(oldValues, newValues, todo, diff)
    requires key in todo && !PyEq(Get(oldValues, key), todo[key])
    ensures DiffProgress(oldValues, newValues, todo - {key}, diff[key := DiffEntry(Get(oldValues, key), todo[key])])
  {
    var rest, next := todo - {key}, diff[key := DiffEntry(Get(oldValues, key), todo[key])];
    forall k | k in rest ensures k in newValues && rest[k] == newValues[k] {
      assert k in todo;
    }
    forall k | k in next ensures k in newValues && k !in rest && Changed(oldValues, newValues, k) {
      if k != key { assert k in diff; }
    }
    forall k | k in newValues && k !in rest && Changed(oldValues, newValues, k) ensures k in next {
      if k != key { assert k !in todo; }
    }
    forall k | k in next ensures next[k] == DiffEntry(Get(oldValues, k), newValues[k]) {
      if k != key { assert k in diff; }
    }
  }

  lemma DiffStepUnchanged(oldValues: map<string, Json>, newValues: map<string, Json>,
                          todo: map<string, Json>, diff: map<string, Json>, key: string)
    requires DiffProgress(oldValues, newValues, todo, diff)
    requires key in todo && PyEq(Get(oldValues, key), todo[key])
    ensures DiffProgress(oldValues, newValues, todo - {key}, diff)
  {
    var rest := todo - {key};
    forall k | k in rest ensures k in newValues && rest[k] == newValues[k] {
      assert k in todo;
    }
    forall k | k in diff ensures k !in rest {
      assert k !in todo;
    }
    forall k | k in newValues && k !in rest && Changed(oldValues, newValues, k) ensures k in diff {
      if k != key { assert k !in todo; }
    }
  }

  lemma DiffDone(oldValues: map<string, Json>, newValues: map<string, Json>,
                 todo: map<string, Json>, diff: map<string, Json>)
    requires oldValues != map[] && newValues != map[]
    requires DiffProgress(oldValues, newValues, todo, diff)
    requires !exists k :: k in todo
    ensures diff == ExpectedDiff(oldValues, newValues)
  {
    var e := ExpectedDiff(oldValues, newValues);
    forall k | k in diff ensures k in e && diff[k] == e[k] { }
    forall k | k in e ensures k in diff { }
  }

  /** `create_audit_log`: records the action, the actor, the entity's class
      name and id, and the diff. */
  method CreateAuditLog(entity: string, entityId: int, action: string, actorUserId: Option<int>,
                        oldValues: map<string, Json>, newValues: map<string, Json>)
    returns (log: AuditLog)
    ensures log.entity == entity && log.entityId == entityId
    ensures log.action == action && log.actorUserId == actorUserId
    ensures log.diff == ExpectedDiff(oldValues, newValues)
    ensures log.diff.Keys <= newValues.Keys
  {
    var diff := ComputeDiff(oldValues, newValues);
    log := AuditLog(actorUserId, action, entity, entityId, diff);
  }

  /** Saving values identical to the old ones records no change. */
  lemma {:induction false} UnchangedNoDiff(values: map<string, Json>)
    ensures ExpectedDiff(values, values) == map[]
  {
    forall k | k in values ensures !Changed(values, values, k) {
      PyEqReflexive(values[k]);
    }
    forall k | k in ExpectedDiff(values, values) ensures false { }
  }

  /** The diff is enough to bring the old values up to date: writing each
      entry's new value over the old values agrees with the new values on
      every key they hold. */
  lemma {:induction false} DiffReplays(oldValues: map<string, Json>, newValues: map<string, Json>)
    requires oldValues != map[]
    ensures var d := ExpectedDiff(oldValues, newValues);
            var replayed := oldValues + map k | k in d :: newValues[k];
            forall k :: k in newValues ==> PyEq(Get(replayed, k), newValues[k])
  {
    var d := ExpectedDiff(oldValues, newValues);
    var replayed := oldValues + map k | k in d :: newValues[k];
    forall k | k in newValues ensures PyEq(Get(replayed, k), newValues[k]) {
      if k in d {
        PyEqReflexive(newValues[k]);
      } else {
        assert newValues != map[] by { assert k in newValues.Keys; }
        assert !Changed(oldValues, newValues, k);
      }
    }
  }
}
