/** The parcel HTTP handlers, as far as they decide anything themselves: the admin
    listing's filter built from the query string, and the check that an authenticated
    user is attached to the request. Each handler either fails with 401 or hands the
    request to one parcel-service call, whose outcome is not part of this model. */
module ParcelController {
  import opened Common

  /** The authenticated user attached to a request (the decoded token). `id` and
      `objectId` are its `id` and `_id` claims, either of which may be missing. */
  datatype Principal = Principal(id: Option<string>, objectId: Option<string>, role: Option<string>)

  /** The JSON body, which the handlers forward without looking into it. */
  type Body = map<string, string>

  /** The query-string parameters of the admin listing. */
  datatype Query = Query(
    status: Option<string>,
    isCancelled: Option<string>,
    isDelivered: Option<string>,
    isBlocked: Option<string>)

  /** A request: the attached user, the `:id` route parameter, the body and the query. */
  datatype Request = Request(user: Option<Principal>, id: string, body: Body, query: Query)

  /** The listing filter; an absent field filters nothing. */
  datatype Filters = Filters(
    status: Option<string>,
    isCancelled: Option<bool>,
    isDelivered: Option<bool>,
    isBlocked: Option<bool>)

  /** The parcel-service call a handler makes, with its arguments. */
  datatype ServiceCall =
    | CreateParcelCall(body: Body, senderId: string)
    | GetAllParcelsCall(filters: Filters)
    | GetMyParcelsCall(ownerId: Option<string>)
    | GetIncomingParcelsCall(receiverId: Option<string>)
    | GetSingleParcelCall(parcelId: string, user: Principal)
    | CancelParcelCall(parcelId: string, requesterId: Option<string>)
    | UpdateParcelStatusCall(parcelId: string, body: Body, actorId: Option<string>)
    | DeleteParcelCall(parcelId: string)
    | ConfirmDeliveryCall(parcelId: string, receiverId: Option<string>)

  /** A handler that got past its own checks: the service call it makes and the
      status code it answers with when that call succeeds. */
  datatype Dispatch = Dispatch(call: ServiceCall, successCode: int)

  const NO_USER := AppError("Unauthorized: No user found", UNAUTHORIZED)
  const NO_USER_DATA := AppError("Unauthorized: User data not found.", UNAUTHORIZED)

  /** One boolean query parameter: `"true"` filters on true, any other non-empty
      value on false, and an absent or empty value does not filter. */
  function QueryFlag(v: Option<string>): (r: Option<bool>)
    ensures r == Some(true) <==> v == Some("true")
    ensures r == Some(false) <==> Present(v) && v.value != "true"
    ensures r == None <==> !Present(v)
  {
    if Present(v) then Some(v.value == "true") else None
  }

  /** The filter of `getAllParcels`. */
  function BuildFilters(q: Query): (f: Filters)
    ensures f.status == q.status
    ensures f.isCancelled.Some? <==> Present(q.isCancelled)
    ensures f.isDelivered.Some? <==> Present(q.isDelivered)
    ensures f.isBlocked.Some? <==> Present(q.isBlocked)
    ensures f.isCancelled == Some(true) <==> q.isCancelled == Some("true")
    ensures f.isDelivered == Some(true) <==> q.isDelivered == Some("true")
    ensures f.isBlocked == Some(true) <==> q.isBlocked == Some("true")
  {
    Filters(q.status, QueryFlag(q.isCancelled), QueryFlag(q.isDelivered), QueryFlag(q.isBlocked))
  }

  /** How a client writes a boolean filter in the query string. */
  function FlagText(b: Option<bool>): Option<string>
  {
    match b
    case None => None
    case Some(true) => Some("true")
    case Some(false) => Some("false")
  }

  /** The query string a client sends to ask for filter `f`. */
  function QueryFor(f: Filters): Query
  {
    Query(f.status, FlagText(f.isCancelled), FlagText(f.isDelivered), FlagText(f.isBlocked))
  }

  /** Every filter can be asked for: parsing the query written for it gives it back. */
  lemma FiltersRoundTrip(f: Filters)
    ensures BuildFilters(QueryFor(f)) == f
  {
  }

  /** `createParcel`: requires a user with an `_id`, which becomes the sender. */
  function CreateParcel(req: Request): (r: Result<Dispatch, AppError>)
    ensures r.Failure? <==> req.user.None? || !Present(req.user.value.objectId)
    ensures r.Failure? ==> r.error == NO_USER
    ensures r.Success? ==> r.value == Dispatch(CreateParcelCall(req.body, req.user.value.objectId.value), CREATED)
  {
    if req.user.None? || !Present(req.user.value.objectId) then Failure(NO_USER)
    else Success(Dispatch(CreateParcelCall(req.body, req.user.value.objectId.value), CREATED))
  }

  /** `getAllParcels`: no check of its own; the filter comes from the query. */
  function GetAllParcels(req: Request): (r: Result<Dispatch, AppError>)
    ensures r.Success?
    ensures r.value.call.GetAllParcelsCall? && r.value.call.filters == BuildFilters(req.query)
    ensures r.value.successCode == OK
  {
    Success(Dispatch(GetAllParcelsCall(BuildFilters(req.query)), OK))
  }

  /** `getMyParcels`: requires a user; the sender is its `id` claim (not `_id`). */
  function GetMyParcels(req: Request): (r: Result<Dispatch, AppError>)
    ensures r.Failure? <==> req.user.None?
    ensures r.Failure? ==> r.error == NO_USER_DATA
    ensures r.Success? ==> r.value == Dispatch(GetMyParcelsCall(req.user.value.id), OK)
  {
    match req.user
    case None => Failure(NO_USER_DATA)
    case Some(u) => Success(Dispatch(GetMyParcelsCall(u.id), OK))
  }

  /** `getIncomingParcels`: requires a user; the receiver is its `_id`. */
  function GetIncomingParcels(req: Request): (r: Result<Dispatch, AppError>)
    ensures r.Failure? <==> req.user.None?
    ensures r.Failure? ==> r.error == NO_USER
    ensures r.Success? ==> r.value == Dispatch(GetIncomingParcelsCall(req.user.value.objectId), OK)
  {
    match req.user
    case None => Failure(NO_USER)
    case Some(u) => Success(Dispatch(GetIncomingParcelsCall(u.objectId), OK))
  }

  /** `getSingleParcel`: requires a user, which is passed whole for the service's
      ownership check. */
  function GetSingleParcel(req: Request): (r: Result<Dispatch, AppError>)
    ensures r.Failure? <==> req.user.None?
    ensures r.Failure? ==> r.error == NO_USER
    ensures r.Success? ==> r.value == Dispatch(GetSingleParcelCall(req.id, req.user.value), OK)
  {
    match req.user
    case None => Failure(NO_USER)
    case Some(u) => Success(Dispatch(GetSingleParcelCall(req.id, u), OK))
  }

  /** `cancelParcel`: requires a user; the requester is its `_id`. */
  function CancelParcel(req: Request): (r: Result<Dispatch, AppError>)
    ensures r.Failure? <==> req.user.None?
    ensures r.Failure? ==> r.error == NO_USER
    ensures r.Success? ==> r.value == Dispatch(CancelParcelCall(req.id, req.user.value.objectId), OK)
  {
    match req.user
    case None => Failure(NO_USER)
    case Some(u) => Success(Dispatch(CancelParcelCall(req.id, u.objectId), OK))
  }

  /** `updateParcelStatus`: requires a user; the body and the user's `_id` go to the
      service. */
  function UpdateParcelStatus(req: Request): (r: Result<Dispatch, AppError>)
    ensures r.Failure? <==> req.user.None?
    ensures r.Failure? ==> r.error == NO_USER
    ensures r.Success? ==> r.value == Dispatch(UpdateParcelStatusCall(req.id, req.body, req.user.value.objectId), OK)
  {
    match req.user
    case None => Failure(NO_USER)
    case Some(u) => Success(Dispatch(UpdateParcelStatusCall(req.id, req.body, u.objectId), OK))
  }

  /** `deleteParcel`: no check of its own; it deletes by the route parameter. */
  function DeleteParcel(req: Request): (r: Result<Dispatch, AppError>)
    ensures r.Success?
    ensures r.value.call.DeleteParcelCall? && r.value.call.parcelId == req.id
    ensures r.value.successCode == OK
  {
    Success(Dispatch(DeleteParcelCall(req.id), OK))
  }

  /** `confirmDelivery`: requires a user; the receiver is its `_id`. */
  function ConfirmDelivery(req: Request): (r: Result<Dispatch, AppError>)
    ensures r.Failure? <==> req.user.None?
    ensures r.Failure? ==> r.error == NO_USER
    ensures r.Success? ==> r.value == Dispatch(ConfirmDeliveryCall(req.id, req.user.value.objectId), OK)
  {
    match req.user
    case None => Failure(NO_USER)
    case Some(u) => Success(Dispatch(ConfirmDeliveryCall(req.id, u.objectId), OK))
  }

  /** The handlers of the parcel controller. */
  datatype Handler =
    | CreateParcelHandler | GetAllParcelsHandler | GetMyParcelsHandler | GetIncomingParcelsHandler
    | GetSingleParcelHandler | CancelParcelHandler | UpdateParcelStatusHandler
    | DeleteParcelHandler | ConfirmDeliveryHandler

  function Handle(h: Handler, req: Request): Result<Dispatch, AppError>
  {
    match h
    case CreateParcelHandler => CreateParcel(req)
    case GetAllParcelsHandler => GetAllParcels(req)
    case GetMyParcelsHandler => GetMyParcels(req)
    case GetIncomingParcelsHandler => GetIncomingParcels(req)
    case GetSingleParcelHandler => GetSingleParcel(req)
    case CancelParcelHandler => CancelParcel(req)
    case UpdateParcelStatusHandler => UpdateParcelStatus(req)
    case DeleteParcelHandler => DeleteParcel(req)
    case ConfirmDeliveryHandler => ConfirmDelivery(req)
  }

  /** The handlers that check for an attached user themselves. */
  predicate ChecksPrincipal(h: Handler)
  {
    !(h.GetAllParcelsHandler? || h.DeleteParcelHandler?)
  }

  /** A request without a user is refused with 401 by every handler that checks, before
      any service call; the two that do not check call the service whatever the user. */
  lemma AnonymousRequestRejected(h: Handler, req: Request)
    requires req.user.None?
    ensures ChecksPrincipal(h) <==> Handle(h, req).Failure?
    ensures ChecksPrincipal(h) ==> Handle(h, req).error.statusCode == UNAUTHORIZED
  {
  }

  /** What the two unchecked handlers do does not depend on the attached user: they
      always reach the service, `deleteParcel` with nothing but the route parameter. */
  lemma UncheckedHandlersIgnorePrincipal(h: Handler, req: Request, user: Option<Principal>)
    requires !ChecksPrincipal(h)
    ensures Handle(h, req.(user := user)) == Handle(h, req)
    ensures Handle(h, req).Success?
    ensures h.DeleteParcelHandler? ==> Handle(h, req).value == Dispatch(DeleteParcelCall(req.id), OK)
  {
  }
}
