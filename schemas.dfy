/** Request-body validation run before the auth, property and reservation handlers.
    A Joi string rule refuses the empty string unless it says otherwise, a
    `required()` rule refuses an absent field, and `valid(...)` restricts a field
    to a list of names.  E-mail syntax is decided by the validation library and
    is a parameter here. */
module Schemas {
  import opened Common
  import opened Models

  /** `Joi.string()` (optionally `.required()`): absent is allowed only when optional. */
  predicate JoiString(v: Option<string>, required: bool)
  {
    if v.None? then !required else v.value != ""
  }

  /** `Joi.string().valid(...)` (optionally `.required()`). */
  predicate JoiOneOf(v: Option<string>, allowed: set<string>, required: bool)
  {
    if v.None? then !required else v.value in allowed
  }

  // ---- Authentication ---------------------------------------------------------

  datatype RegisterBody = RegisterBody(
    name: Option<string>, email: Option<string>, password: Option<string>, role: Option<string>)

  const Roles: set<string> := {"client", "admin"}

  predicate ValidRegister(b: RegisterBody, isEmail: string -> bool)
  {
    && JoiString(b.name, true) && |b.name.value| >= 3
    && JoiString(b.email, true) && isEmail(b.email.value)
    && JoiString(b.password, true) && |b.password.value| >= 6
    && JoiOneOf(b.role, Roles, false)
  }

  /** The role a valid registration body carries once Joi applies its default. */
  function RegisterRole(b: RegisterBody): (role: string)
    ensures b.role.Some? ==> role == b.role.value
  {
    if b.role.Some? then b.role.value else "client"
  }

  /** A body the registration schema accepts names a role of `client` or `admin`,
      and `client` when it names none. */
  lemma RegisterRoleIsClientOrAdmin(b: RegisterBody, isEmail: string -> bool)
    requires ValidRegister(b, isEmail)
    ensures RegisterRole(b) in Roles
    ensures b.role.None? ==> RegisterRole(b) == "client"
  {
  }

  datatype LoginBody = LoginBody(email: Option<string>, password: Option<string>)

  predicate ValidLogin(b: LoginBody, isEmail: string -> bool)
  {
    && JoiString(b.email, true) && isEmail(b.email.value)
    && JoiString(b.password, true)
  }

  // ---- Properties -------------------------------------------------------------

  datatype PropertyBody = PropertyBody(
    title: Option<string>, description: Option<string>, price: Option<int>,
    address: Option<string>, propertyType: Option<string>, status: Option<string>)

  const PropertyTypes: set<string> := {"Apartment", "House", "Villa", "Commercial"}
  const PropertyStatuses: set<string> := {"available", "sold", "rented"}

  predicate ValidPropertyCreate(b: PropertyBody)
  {
    && JoiString(b.title, true)
    && b.price.Some?
    && JoiString(b.address, true)
    && JoiOneOf(b.propertyType, PropertyTypes, true)
    && JoiOneOf(b.status, PropertyStatuses, false)
  }

  /** The update schema: every field optional, the same enumerations. */
  predicate ValidPropertyUpdate(b: PropertyBody)
  {
    && JoiString(b.title, false)
    && JoiString(b.address, false)
    && JoiOneOf(b.propertyType, PropertyTypes, false)
    && JoiOneOf(b.status, PropertyStatuses, false)
  }

  /** The status default of the create schema. */
  function CreateStatus(b: PropertyBody): (s: string)
    ensures b.status.Some? ==> s == b.status.value
  {
    if b.status.Some? then b.status.value else "available"
  }

  /** What the property schemas admit: create implies update; a created body
      carries title, address, price and a listed type; the status it leaves, after
      the default, is a name the ENUM column accepts. */
  lemma {:induction false} PropertySchemasAgree(b: PropertyBody)
    ensures ValidPropertyCreate(b) ==> ValidPropertyUpdate(b)
    ensures ValidPropertyCreate(b) ==>
              b.title.Some? && b.address.Some? && b.price.Some? && b.propertyType.Some?
              && b.propertyType.value in PropertyTypes
              && ParsePropertyStatus(CreateStatus(b)).Some?
    ensures ValidPropertyUpdate(b) && b.status.Some? ==> ParsePropertyStatus(b.status.value).Some?
    ensures ValidPropertyCreate(b) && b.status.None? ==> ParsePropertyStatus(CreateStatus(b)) == Some(Available)
  {
    if ValidPropertyCreate(b) {
      assert CreateStatus(b) in PropertyStatuses;
    }
  }

  // ---- Reservations -----------------------------------------------------------

  /** A reservation request: the property id as the JSON number it is, the two
      instants already read from their ISO strings. */
  datatype ReservationBody = ReservationBody(
    propertyId: Option<real>, startDate: Option<int>, endDate: Option<int>)

  predicate IsInteger(x: real)
  {
    x == x.Floor as real
  }

  predicate ValidReservationCreate(b: ReservationBody)
  {
    && b.propertyId.Some? && IsInteger(b.propertyId.value)
    && b.startDate.Some?
    && b.endDate.Some? && b.endDate.value > b.startDate.value
  }

  predicate ValidStatusUpdate(status: Option<string>)
  {
    JoiOneOf(status, {"pending", "confirmed", "cancelled"}, true)
  }

  /** The status-update schema admits exactly the names of the reservation ENUM. */
  lemma StatusUpdateMatchesEnum(status: Option<string>)
    ensures ValidStatusUpdate(status) <==> status.Some? && ParseReservationStatus(status.value).Some?
  {
  }

  /** The schema refuses a zero-length or reversed stay, and accepts any later end
      with an integral property id. */
  lemma ReservationSchemaDates(pid: real, s: int, e: int)
    requires IsInteger(pid)
    ensures ValidReservationCreate(ReservationBody(Some(pid), Some(s), Some(e))) <==> e > s
    ensures !ValidReservationCreate(ReservationBody(Some(pid), Some(s), None))
    ensures !ValidReservationCreate(ReservationBody(Some(pid + 0.5), Some(s), Some(e)))
  {
    assert (pid + 0.5).Floor == pid.Floor;
  }
}
