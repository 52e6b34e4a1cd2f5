/**
 * The audit signal handlers for users and groups: the field-by-field
 * difference between a stored original and the saved instance, the store
 * of originals filled before a save and emptied after it, and the record
 * written when a user is activated or deactivated.
 *
 * Source: audit_system/signals.py.
 */
module AuditSignals {
  import opened Common
  import opened AuditModels

  // ---------------------------------------------------------------------
  // Field differences
  // ---------------------------------------------------------------------

  /** Timestamp fields that are never reported as changed. */
  const EXCLUDED_FIELDS: seq<string> := ["created_at", "updated_at", "last_login", "date_joined"]

  /** A saved instance of a model, with its primary key, its `str()` and its field values. */
  datatype Instance = Instance(pk: Option<int>, repr: string, values: map<string, PyValue>)

  /** `getattr(instance, name, None)` */
  function Attr(inst: Instance, name: string): (v: PyValue)
    ensures name !in inst.values ==> v == PyNone
  {
    if name in inst.values then inst.values[name] else PyNone
  }

  /** The number a boolean or integer stands for in Python comparisons. */
  function NumberOf(v: PyValue): Option<int>
  {
    match v
    case PyBool(b) => Some(if b then 1 else 0)
    case PyInt(i) => Some(i)
    case _ => None
  }

  /** Python's `==` on field values: booleans compare as 0 and 1. */
  predicate PyEq(a: PyValue, b: PyValue)
  {
    if NumberOf(a).Some? && NumberOf(b).Some? then NumberOf(a) == NumberOf(b) else a == b
  }

  /** `str(value) if value is not None else None`, as it is stored in the JSON. */
  function Stored(v: PyValue): (r: PyValue)
    ensures r.PyNone? <==> v.PyNone?
    ensures !v.PyNone? ==> r == PyText(PyStr(v))
  {
    match StrOrNone(v)
    case None => PyNone
    case Some(s) => PyText(s)
  }

  /** The entry recorded for a field that changed. */
  function ChangeOf(field: string, oldInst: Instance, inst: Instance): Entry
  {
    Entry(field, OldNew(Stored(Attr(oldInst, field)), Stored(Attr(inst, field))))
  }

  predicate Reported(field: string, oldInst: Instance, inst: Instance)
  {
    field !in EXCLUDED_FIELDS && !PyEq(Attr(oldInst, field), Attr(inst, field))
  }

  /** The changes between two instances over the model's fields, in field order. */
  function FieldChanges(fields: seq<string>, oldInst: Instance, inst: Instance): seq<Entry>
  {
    if fields == [] then []
    else
      var f := fields[|fields| - 1];
      FieldChanges(fields[..|fields| - 1], oldInst, inst)
      + (if Reported(f, oldInst, inst) then [ChangeOf(f, oldInst, inst)] else [])
  }

  predicate Distinct(fields: seq<string>)
  {
    forall i, j :: 0 <= i < j < |fields| ==> fields[i] != fields[j]
  }

  /**
   * `get_field_changes`: nothing without an original; otherwise one entry
   * per field whose value changed, timestamp fields aside. A model's
   * field names are distinct.
   */
  method GetFieldChanges(fields: seq<string>, oldInstance: Option<Instance>, instance: Instance)
    returns (changes: seq<Entry>)
    requires Distinct(fields)
    ensures oldInstance.None? ==> changes == []
    ensures oldInstance.Some? ==> changes == FieldChanges(fields, oldInstance.value, instance)
  {
    if oldInstance.None? {
      return [];
    }
    var original := oldInstance.value;
    changes := [];
    var i := 0;
    while i < |fields|
      invariant 0 <= i <= |fields|
      invariant changes == FieldChanges(fields[..i], original, instance)
    {
      var fieldName := fields[i];
      var oldValue := Attr(original, fieldName);
      var newValue := Attr(instance, fieldName);
      assert fields[..i + 1][..i] == fields[..i];
      if fieldName in EXCLUDED_FIELDS {
        i := i + 1;
        continue;
      }
      if !PyEq(oldValue, newValue) {
        changes := changes + [Entry(fieldName, OldNew(Stored(oldValue), Stored(newValue)))];
      }
      i := i + 1;
    }
    assert fields[..i] == fields;
  }

  /** Every entry is a reported field of the list, recorded as its stored old and new values. */
  lemma {:induction false} FieldChangesEntries(fields: seq<string>, oldInst: Instance, inst: Instance)
    ensures forall e :: e in FieldChanges(fields, oldInst, inst) ==>
              e.field in fields && Reported(e.field, oldInst, inst) && e == ChangeOf(e.field, oldInst, inst)
  {
    if fields != [] {
      var init := fields[..|fields| - 1];
      FieldChangesEntries(init, oldInst, inst);
      assert forall f :: f in init ==> f in fields;
    }
  }

  /** A field of the model is reported exactly when it is not a timestamp and its value changed. */
  lemma {:induction false} FieldReportedIffChanged(fields: seq<string>, oldInst: Instance, inst: Instance, f: string)
    requires f in fields
    ensures (exists e :: e in FieldChanges(fields, oldInst, inst) && e.field == f) <==> Reported(f, oldInst, inst)
  {
    FieldChangesEntries(fields, oldInst, inst);
    if Reported(f, oldInst, inst) {
      ReportedFieldHasEntry(fields, oldInst, inst, f);
    }
  }

  lemma {:induction false} ReportedFieldHasEntry(fields: seq<string>, oldInst: Instance, inst: Instance, f: string)
    requires f in fields && Reported(f, oldInst, inst)
    ensures ChangeOf(f, oldInst, inst) in FieldChanges(fields, oldInst, inst)
  {
    var init := fields[..|fields| - 1];
    if fields[|fields| - 1] != f {
      assert f in init by {
        var k :| 0 <= k < |fields| && fields[k] == f;
        assert init[k] == f;
      }
      ReportedFieldHasEntry(init, oldInst, inst, f);
    }
  }

  /** Timestamp fields never appear among the changes. */
  lemma TimestampsNeverReported(fields: seq<string>, oldInst: Instance, inst: Instance)
    ensures forall e :: e in FieldChanges(fields, oldInst, inst) ==> e.field !in EXCLUDED_FIELDS
  {
    FieldChangesEntries(fields, oldInst, inst);
  }

  /** An instance compared with itself has no changes. */
  lemma {:induction false} NoChangesAgainstItself(fields: seq<string>, inst: Instance)
    ensures FieldChanges(fields, inst, inst) == []
  {
    if fields != [] {
      NoChangesAgainstItself(fields[..|fields| - 1], inst);
    }
  }

  /** The changes form an object: no field is recorded twice. */
  lemma {:induction false} FieldChangesAreKeyed(fields: seq<string>, oldInst: Instance, inst: Instance)
    requires Distinct(fields)
    ensures forall i, j :: 0 <= i < j < |FieldChanges(fields, oldInst, inst)| ==>
              FieldChanges(fields, oldInst, inst)[i].field != FieldChanges(fields, oldInst, inst)[j].field
  {
    if fields != [] {
      var init := fields[..|fields| - 1];
      var last := fields[|fields| - 1];
      FieldChangesAreKeyed(init, oldInst, inst);
      FieldChangesEntries(init, oldInst, inst);
      assert last !in init by {
        forall k | 0 <= k < |init|
          ensures init[k] != last
        {
          assert init[k] == fields[k];
        }
      }
      var before := FieldChanges(init, oldInst, inst);
      forall e | e in before
        ensures e.field != last
      {
      }
    }
  }

  /** An entry that was a real value before and after is shown as "field: old → new". */
  lemma ChangedTextFieldDisplay(f: string, a: string, b: string)
    requires a != "" && b != ""
    ensures ChangesDisplay([Entry(f, OldNew(Stored(PyText(a)), Stored(PyText(b))))]) == f + ": " + a + " \U{2192} " + b
  {
    SingleEntryDisplay(Entry(f, OldNew(PyText(a), PyText(b))));
  }

  /** A field that was empty is shown as "(vazio)" on that side. */
  lemma ClearedFieldDisplay(f: string, a: string)
    requires a != ""
    ensures ChangesDisplay([Entry(f, OldNew(Stored(PyText(a)), Stored(PyNone)))]) == f + ": " + a + " \U{2192} (vazio)"
  {
    SingleEntryDisplay(Entry(f, OldNew(PyText(a), PyNone)));
  }

  // ---------------------------------------------------------------------
  // The store of originals and the save handlers
  // ---------------------------------------------------------------------

  /** Users and groups, the two senders with handlers. */
  datatype Kind = UserKind | GroupKind

  function KeyPrefix(kind: Kind): string
  {
    match kind
    case UserKind => "user_"
    case GroupKind => "group_"
  }

  /** `f"user_{pk}"` / `f"group_{pk}"` */
  function OriginalKey(kind: Kind, pk: int): (key: string)
    ensures |key| > |KeyPrefix(kind)| && key[..|KeyPrefix(kind)|] == KeyPrefix(kind)
  {
    KeyPrefix(kind) + IntToString(pk)
  }

  /** Different instances never share a key. */
  lemma OriginalKeysDiffer(k1: Kind, pk1: int, k2: Kind, pk2: int)
    requires k1 != k2 || pk1 != pk2
    ensures OriginalKey(k1, pk1) != OriginalKey(k2, pk2)
  {
    if k1 == k2 {
      var p := KeyPrefix(k1);
      if OriginalKey(k1, pk1) == OriginalKey(k2, pk2) {
        assert IntToString(pk1) == OriginalKey(k1, pk1)[|p|..];
        assert IntToString(pk2) == OriginalKey(k2, pk2)[|p|..];
        PyParseIntToString(pk1);
        PyParseIntToString(pk2);
        assert false;
      }
    } else {
      assert OriginalKey(k1, pk1)[0] != OriginalKey(k2, pk2)[0];
    }
  }

  function CreatedAction(kind: Kind): string
  {
    match kind
    case UserKind => "USER_CREATED"
    case GroupKind => "GROUP_CREATED"
  }

  function UpdatedAction(kind: Kind): string
  {
    match kind
    case UserKind => "USER_UPDATED"
    case GroupKind => "GROUP_UPDATED"
  }

  function ContentTypeOf(kind: Kind): string
  {
    match kind
    case UserKind => "auth.user"
    case GroupKind => "auth.group"
  }

  /** `if instance.pk:` */
  predicate HasTruthyPk(inst: Instance)
  {
    inst.pk.Some? && inst.pk.value != 0
  }

  /** The changes an update reports, given the store before the post-save handler runs. */
  function UpdateChanges(kind: Kind, fields: seq<string>, store: map<string, Instance>, inst: Instance): seq<Entry>
    requires inst.pk.Some?
  {
    var key := OriginalKey(kind, inst.pk.value);
    if key in store then FieldChanges(fields, store[key], inst) else []
  }

  /**
   * The signal handlers' shared state: the module-level store of originals
   * and the audit records written so far.
   */
  class AuditTrail {
    var originalInstances: map<string, Instance>
    var logs: seq<AuditRecord>

    constructor()
      ensures originalInstances == map[] && logs == []
    {
      originalInstances := map[];
      logs := [];
    }

    /**
     * `store_original_user` / `store_original_group`: before a save of an
     * instance with a primary key, remember the row as the database holds
     * it (`stored`, absent when the row does not exist).
     */
    method StoreOriginal(kind: Kind, instance: Instance, stored: Option<Instance>)
      modifies this`originalInstances
      ensures HasTruthyPk(instance) && stored.Some? ==>
                originalInstances == old(originalInstances)[OriginalKey(kind, instance.pk.value) := stored.value]
      ensures !(HasTruthyPk(instance) && stored.Some?) ==> originalInstances == old(originalInstances)
    {
      if HasTruthyPk(instance) {
        if stored.Some? {
          originalInstances := originalInstances[OriginalKey(kind, instance.pk.value) := stored.value];
        }
      }
    }

    /**
     * `log_user_changes` / `log_group_changes`: a creation is always
     * logged with no changes; an update takes its original out of the
     * store and is logged only when some field changed.
     */
    method LogChanges(kind: Kind, fields: seq<string>, instance: Instance, created: bool, request: Option<Request>)
      requires instance.pk.Some? && Distinct(fields)
      modifies this
      ensures created ==> originalInstances == old(originalInstances)
      ensures created ==> |logs| == |old(logs)| + 1 && logs[..|old(logs)|] == old(logs)
      ensures created ==> logs[|old(logs)|].action == CreatedAction(kind) && logs[|old(logs)|].changes == []
      ensures !created ==> originalInstances == old(originalInstances) - {OriginalKey(kind, instance.pk.value)}
      ensures !created && UpdateChanges(kind, fields, old(originalInstances), instance) == [] ==> logs == old(logs)
      ensures !created && UpdateChanges(kind, fields, old(originalInstances), instance) != [] ==>
                |logs| == |old(logs)| + 1 && logs[..|old(logs)|] == old(logs)
                && logs[|old(logs)|].action == UpdatedAction(kind)
                && logs[|old(logs)|].changes == UpdateChanges(kind, fields, old(originalInstances), instance)
    {
      var obj := Some(ObjectRef(ContentTypeOf(kind), IntToString(instance.pk.value), instance.repr));
      var action: string;
      var changes: seq<Entry>;
      if created {
        action := CreatedAction(kind);
        changes := [];
      } else {
        action := UpdatedAction(kind);
        var key := OriginalKey(kind, instance.pk.value);
        var original: Option<Instance> := if key in originalInstances then Some(originalInstances[key]) else None;
        originalInstances := originalInstances - {key};
        changes := GetFieldChanges(fields, original, instance);
        if changes == [] {
          return;
        }
      }
      var record := LogAction(action, obj, None, Some(changes), None, request, true, None);
      logs := logs + [record];
    }

    /**
     * A whole save as the two handlers see it: the original is stored
     * before and taken out after, so an update leaves no entry behind.
     * A row that is being created does not exist yet when it is looked up.
     */
    method Save(kind: Kind, fields: seq<string>, instance: Instance, stored: Option<Instance>,
                created: bool, request: Option<Request>)
      requires instance.pk.Some? && Distinct(fields)
      requires created ==> stored.None?
      modifies this
      ensures !created ==> originalInstances == old(originalInstances) - {OriginalKey(kind, instance.pk.value)}
      ensures created ==> originalInstances == old(originalInstances)
      ensures !created && HasTruthyPk(instance) && stored.Some? ==>
                (logs == old(logs) <==> FieldChanges(fields, stored.value, instance) == [])
    {
      StoreOriginal(kind, instance, stored);
      LogChanges(kind, fields, instance, created, request);
    }

    /** `log_user_activation`: the change of `is_active` is recorded as booleans. */
    method LogUserActivation(user: Instance, activated: bool, request: Option<Request>)
      requires user.pk.Some?
      modifies this`logs
      ensures |logs| == |old(logs)| + 1 && logs[..|old(logs)|] == old(logs)
      ensures logs[|old(logs)|].action == (if activated then "USER_ACTIVATED" else "USER_DEACTIVATED")
      ensures logs[|old(logs)|].changes == [Entry("is_active", OldNew(PyBool(!activated), PyBool(activated)))]
      ensures logs[|old(logs)|].objectRepr == user.repr
    {
      var action := if activated then "USER_ACTIVATED" else "USER_DEACTIVATED";
      var obj := Some(ObjectRef(ContentTypeOf(UserKind), IntToString(user.pk.value), user.repr));
      var changes := [Entry("is_active", OldNew(PyBool(!activated), PyBool(activated)))];
      var record := LogAction(action, obj, None, Some(changes), None, request, true, None);
      logs := logs + [record];
    }
  }

  /**
   * The recorded `False` is falsy, so the display shows it as "(vazio)":
   * an activation reads "is_active: (vazio) → True" and a deactivation
   * "is_active: True → (vazio)".
   */
  lemma ActivationDisplay(activated: bool)
    ensures ChangesDisplay([Entry("is_active", OldNew(PyBool(!activated), PyBool(activated)))])
            == if activated then "is_active: (vazio) \U{2192} True" else "is_active: True \U{2192} (vazio)"
  {
    SingleEntryDisplay(Entry("is_active", OldNew(PyBool(!activated), PyBool(activated))));
  }

  /** A boolean field changed through a save is stored as text, so both sides are shown. */
  lemma SavedBooleanDisplay(f: string, before: bool)
    ensures ChangesDisplay([Entry(f, OldNew(Stored(PyBool(before)), Stored(PyBool(!before))))])
            == f + ": " + (if before then "True" else "False") + " \U{2192} " + (if before then "False" else "True")
  {
    SingleEntryDisplay(Entry(f, OldNew(Stored(PyBool(before)), Stored(PyBool(!before)))));
  }
}
