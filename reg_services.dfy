/**
  The booking serializers' own logic: the strictly-future rule on the
  scheduled date, the rule that the paid status may not change, and the
  update that drops `status_paid` before assigning the remaining validated
  fields onto the model instance.
 */
module BookingSerializers {
  import opened Wrappers
  import opened Users
  import opened Bookings

  datatype ValidationError = DateNotInFuture | StatusPaidChanged

  /**
    `validate_date_services` of the create serializer and, identically, of
    the update serializer: a date at or before `now` is refused, a later one
    is returned unchanged.
   */
  function ValidateDateServices(value: int, now: int): (r: Result<int, ValidationError>)
    ensures r.Success? <==> now < value
    ensures r.Success? ==> r.value == value
    ensures r.Failure? ==> r.error == DateNotInFuture
  {
    if value <= now then Failure(DateNotInFuture) else Success(value)
  }

  /**
    `validate_status_paid`: with an existing instance, a value different from
    the stored one is refused; without an instance anything passes.
   */
  function ValidateStatusPaid(instance: Option<Booking>, value: Option<bool>): (r: Result<Option<bool>, ValidationError>)
    ensures r.Success? <==> instance.None? || value == instance.value.statusPaid
    ensures r.Success? ==> r.value == value
    ensures r.Failure? ==> r.error == StatusPaidChanged
  {
    if instance.Some? && value != instance.value.statusPaid then Failure(StatusPaidChanged) else Success(value)
  }

  /**
    Validated data of a booking serializer: each writable field is either
    absent from the dict or present with its value.
   */
  datatype Patch = Patch(
    client: Option<ClientId>,
    service: Option<ServiceId>,
    dateServices: Option<int>,
    doctor: Option<Option<EmployeeId>>,
    statusService: Option<string>,
    statusPaid: Option<Option<bool>>,
    isAnalyz: Option<Option<bool>>,
    isVizit: Option<Option<bool>>)

  /** The status length the serializer's field accepts. */
  predicate PatchWellFormed(p: Patch)
  {
    p.statusService.Some? ==> |p.statusService.value| <= StatusMaxLength
  }

  /** `validated_data.pop("status_paid", None)`. */
  function WithoutStatusPaid(p: Patch): (q: Patch)
    ensures q.statusPaid.None?
    ensures forall b {:trigger ApplyPatch(b, q)} :: ApplyPatch(b, q) == ApplyPatch(b, p).(statusPaid := b.statusPaid)
  {
    p.(statusPaid := None)
  }

  /**
    `setattr(instance, attr, value)` for every key of the validated data: a
    supplied field takes the supplied value, an absent one and the pk keep
    the row's.
   */
  function ApplyPatch(b: Booking, p: Patch): (r: Booking)
    ensures r.pk == b.pk
    ensures r.client == (if p.client.Some? then p.client.value else b.client)
    ensures r.service == (if p.service.Some? then p.service.value else b.service)
    ensures r.dateServices == (if p.dateServices.Some? then p.dateServices.value else b.dateServices)
    ensures r.doctor == (if p.doctor.Some? then p.doctor.value else b.doctor)
    ensures r.statusService == (if p.statusService.Some? then p.statusService.value else b.statusService)
    ensures r.statusPaid == (if p.statusPaid.Some? then p.statusPaid.value else b.statusPaid)
    ensures r.isAnalyz == (if p.isAnalyz.Some? then p.isAnalyz.value else b.isAnalyz)
    ensures r.isVizit == (if p.isVizit.Some? then p.isVizit.value else b.isVizit)
  {
    Booking(
      b.pk,
      if p.client.Some? then p.client.value else b.client,
      if p.service.Some? then p.service.value else b.service,
      if p.dateServices.Some? then p.dateServices.value else b.dateServices,
      if p.doctor.Some? then p.doctor.value else b.doctor,
      if p.statusService.Some? then p.statusService.value else b.statusService,
      if p.statusPaid.Some? then p.statusPaid.value else b.statusPaid,
      if p.isAnalyz.Some? then p.isAnalyz.value else b.isAnalyz,
      if p.isVizit.Some? then p.isVizit.value else b.isVizit)
  }

  /** A patch with every field absent. */
  const EmptyPatch := Patch(None, None, None, None, None, None, None, None)

  /** Absent fields keep their values: the empty patch changes nothing. */
  lemma EmptyPatchIsIdentity(b: Booking)
    ensures ApplyPatch(b, EmptyPatch) == b
  {
  }

  /** A well-formed row stays well formed under a well-formed patch. */
  lemma ApplyPatchWellFormed(b: Booking, p: Patch)
    requires WellFormed(b) && PatchWellFormed(p)
    ensures WellFormed(ApplyPatch(b, p))
  {
  }

  /**
    Once `status_paid` is popped, no patch changes it, whatever else it
    sets, while a supplied status is written as given.
   */
  lemma PoppedPatchKeepsStatusPaid(b: Booking, p: Patch)
    ensures ApplyPatch(b, WithoutStatusPaid(p)).statusPaid == b.statusPaid
    ensures p.statusService.Some? ==> ApplyPatch(b, WithoutStatusPaid(p)).statusService == p.statusService.value
  {
  }

  /**
    `UpdateRegistredServiceSerializer.update`: pop `status_paid` from the
    validated data, then assign every remaining supplied field onto the
    instance; fields absent from a partial payload keep their values.
   */
  method Update(instance: RegisteredService, validatedData: Patch)
    modifies instance
    ensures instance.Snapshot() == ApplyPatch(old(instance.Snapshot()), WithoutStatusPaid(validatedData))
    ensures instance.statusPaid == old(instance.statusPaid) && instance.pk == old(instance.pk)
  {
    var data := validatedData;
    data := data.(statusPaid := None);
    if data.client.Some? {
      instance.client := data.client.value;
    }
    if data.service.Some? {
      instance.service := data.service.value;
    }
    if data.dateServices.Some? {
      instance.dateServices := data.dateServices.value;
    }
    if data.doctor.Some? {
      instance.doctor := data.doctor.value;
    }
    if data.statusService.Some? {
      instance.statusService := data.statusService.value;
    }
    if data.isAnalyz.Some? {
      instance.isAnalyz := data.isAnalyz.value;
    }
    if data.isVizit.Some? {
      instance.isVizit := data.isVizit.value;
    }
  }

  /**
    The update serializer as a whole on a request payload: `status_paid` is a
    read-only field, so an incoming value is dropped before validation; a
    supplied date must lie strictly after `now`; then `update` applies the
    rest to the stored row.
   */
  function ValidatedUpdate(b: Booking, payload: Patch, now: int): (r: Result<Booking, ValidationError>)
    ensures r.Failure? <==> payload.dateServices.Some? && payload.dateServices.value <= now
    ensures r.Failure? ==> r.error == DateNotInFuture
    ensures r.Success? ==> r.value.statusPaid == b.statusPaid && r.value.pk == b.pk
    ensures r.Success? ==> r.value == ApplyPatch(b, WithoutStatusPaid(payload))
  {
    var data := WithoutStatusPaid(payload);
    if data.dateServices.Some? && ValidateDateServices(data.dateServices.value, now).Failure? then
      Failure(DateNotInFuture)
    else
      Success(ApplyPatch(b, data))
  }

  /**
    A payload that supplies only the analysis flag (no date, so nothing to
    refuse) succeeds and leaves every other field as it was.
   */
  lemma OnlyAnalysisFlagChanges(b: Booking, flag: Option<bool>, now: int)
    ensures var r := ValidatedUpdate(b, EmptyPatch.(isAnalyz := Some(flag)), now);
            r == Success(b.(isAnalyz := flag))
  {
  }

  /**
    No transition rule: from any prior status, including a terminal one, an
    update may set any status, here "DO" or back to "CR".
   */
  lemma AnyStatusReachable(b: Booking, now: int)
    ensures ValidatedUpdate(b, EmptyPatch.(statusService := Some(Done.Code())), now) == Success(b.(statusService := "DO"))
    ensures ValidatedUpdate(b, EmptyPatch.(statusService := Some(Created.Code())), now) == Success(b.(statusService := "CR"))
  {
  }
}
