/**
 WriteStatus: the per-device outcome of a write, a status object mapping each
 device key to `{success, device_state, message}`, with success tests,
 failure reasons and lifecycle filters.
 */
module WriteStatuses {
  import opened JsValues

  datatype WriteStatus = WriteStatus(status: JsValue)

  /** The entries `for (deviceKey in this.status)` visits. */
  function Entries(w: WriteStatus): (entries: map<string, JsValue>) {
    ForIn(w.status)
  }

  /** `entry.success === false`; strict, so a missing or non-boolean flag is not a failure. */
  predicate Failed(entry: JsValue) {
    GetProp(entry, "success") == Normal(Bool(false))
  }

  /** `entry.device_state === state`. */
  predicate InState(entry: JsValue, state: string) {
    GetProp(entry, "device_state") == Normal(Str(state))
  }

  predicate HasFailedEntry(w: WriteStatus) {
    exists k :: k in Entries(w) && Failed(Entries(w)[k])
  }

  /** Some entry is undefined or null, so reading a field of it throws. */
  predicate HasUnreadableEntry(w: WriteStatus) {
    exists k :: k in Entries(w) && Nullish(Entries(w)[k])
  }

  /**
   `isSuccess()`, independently of enumeration order: false when an entry
   failed, a TypeError when an entry cannot be read, true otherwise. With
   both kinds of entry present the answer depends on which one the loop
   visits first, and the statement here leaves that case out.
   */
  function IsSuccess(w: WriteStatus): (r: Completion<bool>)
    requires !(HasFailedEntry(w) && HasUnreadableEntry(w))
    ensures r.Throw? <==> exists k :: k in Entries(w) && GetProp(Entries(w)[k], "success").Throw?
    ensures r.Throw? ==> r.error == TypeError("success")
    ensures r == Normal(true) <==>
      forall k :: k in Entries(w) ==> GetProp(Entries(w)[k], "success").Normal? && GetProp(Entries(w)[k], "success") != Normal(Bool(false))
  {
    if HasFailedEntry(w) then Normal(false)
    else if HasUnreadableEntry(w) then Throw(TypeError("success"))
    else Normal(true)
  }

  /** `isPartialSuccess()`: the negation of `isSuccess()`. */
  function IsPartialSuccess(w: WriteStatus): (r: Completion<bool>)
    requires !(HasFailedEntry(w) && HasUnreadableEntry(w))
    ensures r.Normal? <==> IsSuccess(w).Normal?
    ensures r.Normal? ==> r.value == !IsSuccess(w).value
    ensures r.Throw? ==> r == IsSuccess(w)
  {
    match IsSuccess(w)
    case Normal(b) => Normal(!b)
    case Throw(e) => Throw(e)
  }

  /**
   The `isSuccess()` loop itself: it visits the entries in any order and
   returns false at the first whose `success` is `false`.
   */
  method IsSuccessByEnumeration(w: WriteStatus) returns (r: Completion<bool>)
    ensures !(HasFailedEntry(w) && HasUnreadableEntry(w)) ==> r == IsSuccess(w)
    ensures HasFailedEntry(w) && HasUnreadableEntry(w) ==>
      r == Normal(false) || r == Throw(TypeError("success"))
  {
    var entries := Entries(w);
    var pending := entries.Keys;
    while pending != {}
      invariant pending <= entries.Keys
      invariant forall k :: k in entries && k !in pending ==> !Failed(entries[k]) && !Nullish(entries[k])
      decreases pending
    {
      var k :| k in pending;
      match GetProp(entries[k], "success")
      case Throw(e) =>
        return Throw(e);
      case Normal(success) =>
        if success == Bool(false) {
          return Normal(false);
        }
      pending := pending - {k};
    }
    return Normal(true);
  }

  /** The `message` of an entry that can be read. */
  function Message(entry: JsValue): JsValue
    requires !Nullish(entry)
  {
    Prop(entry, "message")
  }

  /** `failures()`: `deviceKey -> message` for the failed entries. */
  function Failures(w: WriteStatus): (r: Completion<map<string, JsValue>>)
    ensures r.Throw? <==> HasUnreadableEntry(w)
  {
    var entries := Entries(w);
    if HasUnreadableEntry(w) then Throw(TypeError("success"))
    else Normal(map k | k in entries && Failed(entries[k]) :: Message(entries[k]))
  }

  /** `_filterBy(state)`: the whole entries whose `device_state` is strictly `state`. */
  function FilterBy(w: WriteStatus, state: string): (r: Completion<map<string, JsValue>>)
    ensures r.Throw? <==> HasUnreadableEntry(w)
  {
    var entries := Entries(w);
    if HasUnreadableEntry(w) then Throw(TypeError("device_state"))
    else Normal(map k | k in entries && InState(entries[k], state) :: entries[k])
  }

  /** `existing()`: the entries whose `device_state` is "existing". */
  function Existing(w: WriteStatus): (r: Completion<map<string, JsValue>>)
    ensures r.Throw? <==> HasUnreadableEntry(w)
    ensures r.Normal? ==> forall k :: k in r.value <==> k in Entries(w) && InState(Entries(w)[k], "existing")
    ensures r.Normal? ==> forall k :: k in r.value ==> r.value[k] == Entries(w)[k]
  {
    FilterBy(w, "existing")
  }

  /** `modified()`: the entries whose `device_state` is "modified". */
  function Modified(w: WriteStatus): (r: Completion<map<string, JsValue>>)
    ensures r.Throw? <==> HasUnreadableEntry(w)
    ensures r.Normal? ==> forall k :: k in r.value <==> k in Entries(w) && InState(Entries(w)[k], "modified")
    ensures r.Normal? ==> forall k :: k in r.value ==> r.value[k] == Entries(w)[k]
  {
    FilterBy(w, "modified")
  }

  /** `created()`: the entries whose `device_state` is "created". */
  function Created(w: WriteStatus): (r: Completion<map<string, JsValue>>)
    ensures r.Throw? <==> HasUnreadableEntry(w)
    ensures r.Normal? ==> forall k :: k in r.value <==> k in Entries(w) && InState(Entries(w)[k], "created")
    ensures r.Normal? ==> forall k :: k in r.value ==> r.value[k] == Entries(w)[k]
  {
    FilterBy(w, "created")
  }

  /** With nothing to enumerate (no status at all, or an empty one) the write is a total success. */
  lemma NoEntriesIsSuccess(w: WriteStatus)
    requires Entries(w) == map[]
    ensures IsSuccess(w) == Normal(true)
    ensures Failures(w) == Normal(map[])
  {
  }

  /** An entry whose flag is missing or anything but `false` counts as a success. */
  lemma SuccessIffNoFalseFlag(w: WriteStatus)
    requires !HasUnreadableEntry(w)
    ensures IsSuccess(w) == Normal(true) <==>
      forall k :: k in Entries(w) ==> GetProp(Entries(w)[k], "success") != Normal(Bool(false))
  {
  }

  /** The failures are exactly the entries with `success === false`, each with its message. */
  lemma FailuresAreFailedEntries(w: WriteStatus)
    requires !HasUnreadableEntry(w)
    ensures Failures(w).Normal?
    ensures forall k :: k in Failures(w).value <==> k in Entries(w) && Failed(Entries(w)[k])
    ensures forall k :: k in Failures(w).value ==> Failures(w).value[k] == Prop(Entries(w)[k], "message")
  {
  }

  /** `failures()` is empty exactly when `isSuccess()` is true. */
  lemma FailuresEmptyIffSuccess(w: WriteStatus)
    requires !(HasFailedEntry(w) && HasUnreadableEntry(w))
    ensures Failures(w).Normal? <==> IsSuccess(w).Normal?
    ensures Failures(w).Normal? ==> (Failures(w).value == map[] <==> IsSuccess(w).value)
  {
    if HasFailedEntry(w) {
      var k :| k in Entries(w) && Failed(Entries(w)[k]);
      assert k in Failures(w).value;
    }
  }

  /** `_filterBy(state)` keeps exactly the entries in that state, unchanged. */
  lemma FilterByExactly(w: WriteStatus, state: string)
    requires !HasUnreadableEntry(w)
    ensures FilterBy(w, state).Normal?
    ensures forall k :: k in FilterBy(w, state).value <==> k in Entries(w) && InState(Entries(w)[k], state)
    ensures forall k :: k in FilterBy(w, state).value ==> FilterBy(w, state).value[k] == Entries(w)[k]
  {
  }

  /**
   The lifecycle filters are pairwise disjoint, and an entry without a
   `device_state` appears in none of them.
   */
  lemma LifecyclesDisjoint(w: WriteStatus)
    requires !HasUnreadableEntry(w)
    ensures Existing(w).value.Keys !! Modified(w).value.Keys
    ensures Existing(w).value.Keys !! Created(w).value.Keys
    ensures Modified(w).value.Keys !! Created(w).value.Keys
    ensures forall k :: k in Entries(w) && GetProp(Entries(w)[k], "device_state") == Normal(Undefined) ==>
      k !in Existing(w).value && k !in Modified(w).value && k !in Created(w).value
  {
  }
}
