/**
  The registered-service (booking) record, its status codes and defaults, the
  client and doctor profiles it points at, and the mutable model instance that
  serializers update in place.
 */
module Bookings {
  import opened Wrappers
  import opened Users

  type ServiceId = nat

  /** `StatusServices`: the four status codes a booking is meant to carry. */
  datatype StatusServices = Created | Processed | Done | Canceled {
    function Code(): (c: string)
      ensures |c| == 2
    {
      match this
      case Created => "CR"
      case Processed => "PR"
      case Done => "DO"
      case Canceled => "CA"
    }
  }

  /** Length bound of the `status_service` column. */
  const StatusMaxLength := 15

  /** The column default of `status_service`. */
  const DefaultStatus := Created.Code()

  /** The four codes are distinct and each fits the column. */
  lemma StatusCodesDistinct(s: StatusServices, t: StatusServices)
    ensures s.Code() == t.Code() <==> s == t
    ensures |s.Code()| <= StatusMaxLength
  {
  }

  /**
    A `RegistredServices` row as a value. `client`, `service` and
    `date_services` are required; `doctor` is nullable; the status is a free
    string; the paid, analysis and visit flags are nullable booleans.
    Time is an integer.
   */
  datatype Booking = Booking(
    pk: nat,
    client: ClientId,
    service: ServiceId,
    dateServices: int,
    doctor: Option<EmployeeId>,
    statusService: string,
    statusPaid: Option<bool>,
    isAnalyz: Option<bool>,
    isVizit: Option<bool>)

  /** The only constraint the model places on a row: the status fits its column. */
  predicate WellFormed(b: Booking)
  {
    |b.statusService| <= StatusMaxLength
  }

  /** A row created with only its required fields (and the optional doctor) given. */
  function NewBooking(pk: nat, client: ClientId, service: ServiceId, date: int, doctor: Option<EmployeeId>): (b: Booking)
    ensures WellFormed(b)
  {
    Booking(pk, client, service, date, doctor, DefaultStatus, None, None, None)
  }

  lemma NewBookingDefaults(pk: nat, client: ClientId, service: ServiceId, date: int, doctor: Option<EmployeeId>)
    ensures var b := NewBooking(pk, client, service, date, doctor);
            && b.statusService == "CR"
            && b.statusPaid == None && b.isAnalyz == None && b.isVizit == None
            && b.client == client && b.service == service && b.dateServices == date && b.doctor == doctor
  {
  }

  /**
    The `user` columns of the client and employee profiles: each profile
    points at no user or at one user.
   */
  datatype Directory = Directory(clientUser: map<ClientId, Option<UserId>>, employeeUser: map<EmployeeId, Option<UserId>>)

  /** `client.user` of a profile pk; a pk with no row reads as no user. */
  function ClientUserOf(dir: Directory, c: ClientId): Option<UserId>
  {
    if c in dir.clientUser then dir.clientUser[c] else None
  }

  /** `doctor.user` of a profile pk. */
  function EmployeeUserOf(dir: Directory, e: EmployeeId): Option<UserId>
  {
    if e in dir.employeeUser then dir.employeeUser[e] else None
  }

  /**
    The one-to-one link between a user and its profiles: the user's reverse
    accessor names a profile exactly when that profile's `user` is this user.
   */
  ghost predicate Consistent(dir: Directory, u: User)
  {
    && (forall c: ClientId :: ClientUserOf(dir, c) == Some(u.id) <==> u.client == Some(c))
    && (forall e: EmployeeId :: EmployeeUserOf(dir, e) == Some(u.id) <==> u.employee == Some(e))
  }

  /** The model instance a serializer's `update` assigns onto. */
  class RegisteredService {
    var pk: nat
    var client: ClientId
    var service: ServiceId
    var dateServices: int
    var doctor: Option<EmployeeId>
    var statusService: string
    var statusPaid: Option<bool>
    var isAnalyz: Option<bool>
    var isVizit: Option<bool>

    /** The row this instance currently holds. */
    function Snapshot(): Booking
      reads this
    {
      Booking(pk, client, service, dateServices, doctor, statusService, statusPaid, isAnalyz, isVizit)
    }

    constructor (b: Booking)
      ensures Snapshot() == b
    {
      pk, client, service, dateServices, doctor := b.pk, b.client, b.service, b.dateServices, b.doctor;
      statusService, statusPaid, isAnalyz, isVizit := b.statusService, b.statusPaid, b.isAnalyz, b.isVizit;
    }
  }
}
