/**
 MultiStatus: the result `writeBulk` hands back. Unlike WriteStatus, its
 success test only asks whether any status object is present at all, and its
 failures list every enumerated key whatever its `success` flag says.
 */
module MultiStatuses {
  import opened JsValues
  import WriteStatuses

  datatype MultiStatus = MultiStatus(status: JsValue)

  /** `new MultiStatus` with no argument: the status is undefined. */
  const NoStatus := MultiStatus(Undefined)

  /**
   `isSuccess()`: `!this.status`, true exactly for JavaScript's falsy
   values; a successful status has no failures to report.
   */
  function IsSuccess(m: MultiStatus): (r: bool)
    ensures r <==> m.status in {Undefined, Null, Bool(false), Num(0), Str("")}
    ensures r ==> Failures(m) == Normal(map[])
  {
    if Truthy(m.status) then false else FalsyEnumeratesNothing(m.status); true
  }

  /** `isPartialSuccess()`: `!this.isSuccess()`; any object, array or date status counts. */
  function IsPartialSuccess(m: MultiStatus): (r: bool)
    ensures r <==> m.status !in {Undefined, Null, Bool(false), Num(0), Str("")}
    ensures m.status.Obj? || m.status.Arr? || m.status.Date? ==> r
  {
    !IsSuccess(m)
  }

  /** `failures()`: every enumerated key mapped to its entry's `message`. */
  function Failures(m: MultiStatus): (r: Completion<map<string, JsValue>>)
    ensures r.Throw? <==> exists k :: k in ForIn(m.status) && Nullish(ForIn(m.status)[k])
    ensures r.Normal? ==> r.value.Keys == ForIn(m.status).Keys
  {
    var entries := ForIn(m.status);
    if exists k :: k in entries && Nullish(entries[k]) then Throw(TypeError("message"))
    else Normal(map k | k in entries :: Prop(entries[k], "message"))
  }

  /** Success means the status is absent or falsy, and then there is nothing to report. */
  lemma SuccessIffNoStatus(m: MultiStatus)
    ensures IsSuccess(m) <==> m.status in {Undefined, Null, Bool(false), Num(0), Str("")}
    ensures IsSuccess(m) ==> Failures(m) == Normal(map[])
    ensures IsPartialSuccess(m) <==> !IsSuccess(m)
  {
    if IsSuccess(m) {
      FalsyEnumeratesNothing(m.status);
    }
  }

  /** The status `writeBulk` builds for a 200 reply is a total success with no failures. */
  lemma NoStatusIsSuccess()
    ensures IsSuccess(NoStatus) && !IsPartialSuccess(NoStatus)
    ensures Failures(NoStatus) == Normal(map[])
  {
  }

  /** Any status object at all, `{}` included, makes the write a partial success. */
  lemma AnyObjectIsPartial(props: map<string, JsValue>)
    ensures !IsSuccess(MultiStatus(Obj(props)))
    ensures IsPartialSuccess(MultiStatus(Obj(props)))
  {
  }

  /**
   `failures()` ignores the `success` flag: every key of a readable status
   object appears, mapped to its message.
   */
  lemma FailuresIgnoreSuccessFlag(props: map<string, JsValue>)
    requires forall k :: k in props ==> !Nullish(props[k])
    ensures Failures(MultiStatus(Obj(props))).Normal?
    ensures Failures(MultiStatus(Obj(props))).value.Keys == props.Keys
    ensures forall k :: k in props ==> Failures(MultiStatus(Obj(props))).value[k] == Prop(props[k], "message")
  {
  }

  /**
   A status object whose entries all report `success: true` is a total
   success as a WriteStatus, yet a partial success as a MultiStatus, whose
   failures list every one of its keys.
   */
  lemma AllSucceededDisagree(props: map<string, JsValue>)
    requires props != map[]
    requires forall k :: k in props ==> props[k].Obj? && props[k].props == map["success" := Bool(true)]
    ensures WriteStatuses.IsSuccess(WriteStatuses.WriteStatus(Obj(props))) == Normal(true)
    ensures IsPartialSuccess(MultiStatus(Obj(props)))
    ensures Failures(MultiStatus(Obj(props))).Normal?
    ensures Failures(MultiStatus(Obj(props))).value.Keys == props.Keys
  {
    var w := WriteStatuses.WriteStatus(Obj(props));
    assert !WriteStatuses.HasFailedEntry(w);
    assert !WriteStatuses.HasUnreadableEntry(w);
  }
}
