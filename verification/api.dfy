/** The HTTP client layer: the two interceptors that read and clear the
    browser's persisted session, and the request parameters and bodies the
    client builds for meters, readings and bills. The transport itself is
    not modelled; a request is represented by the headers, query parameters
    or form it would carry, and the browser's local storage by a map. */
module Api {
  import opened Wrappers
  import opened Types
  import opened Text

  /** The browser's local storage. */
  type Store = map<string, string>

  const TokenKey := "auth-token"
  const UserKey := "user-data"
  const LoginPath := "/login"

  /** The stored session token, read as `getItem` would (`None` for a missing key). */
  function StoredToken(store: Store): Option<string>
  {
    if TokenKey in store then Some(store[TokenKey]) else None
  }

  /** The headers of an outgoing request after the request interceptor: the
      instance's content type, plus a bearer credential exactly when a
      non-empty token is stored. */
  function RequestHeaders(store: Store, contentType: string): (h: map<string, string>)
    ensures "Content-Type" in h && h["Content-Type"] == contentType
    ensures "Authorization" in h <==> Truthy(StoredToken(store))
    ensures "Authorization" in h ==> h["Authorization"] == "Bearer " + store[TokenKey]
    ensures h.Keys <= {"Content-Type", "Authorization"}
  {
    var base := map["Content-Type" := contentType];
    var token := StoredToken(store);
    if Truthy(token) then base["Authorization" := "Bearer " + token.value] else base
  }

  /** A failed response as the response interceptor sees it: the HTTP status
      when a response arrived at all, and the server's error text. */
  datatype HttpError = HttpError(status: Option<int>, serverMessage: Option<string>)

  /** What the response interceptor leaves behind: the storage afterwards,
      the page the browser is sent to (if any) and the error the caller's
      promise is rejected with. */
  datatype Rejection = Rejection(store: Store, redirect: Option<string>, error: HttpError)

  /** The response interceptor's error path. */
  function OnResponseError(store: Store, err: HttpError): (r: Rejection)
    ensures r.error == err
    ensures err.status == Some(401) ==>
              r.store == store - {TokenKey, UserKey} && r.redirect == Some(LoginPath)
    ensures err.status != Some(401) ==> r.store == store && r.redirect.None?
  {
    if err.status == Some(401) then
      Rejection(store - {TokenKey, UserKey}, Some(LoginPath), err)
    else Rejection(store, None, err)
  }

  /** After a 401 no later request carries a credential, the stored profile
      is gone, every other stored key is untouched, and handling a second
      401 changes nothing more. */
  lemma UnauthorizedEndsSession(store: Store, err: HttpError, contentType: string)
    requires err.status == Some(401)
    ensures "Authorization" !in RequestHeaders(OnResponseError(store, err).store, contentType)
    ensures UserKey !in OnResponseError(store, err).store
    ensures forall k :: k in store && k != TokenKey && k != UserKey ==>
              k in OnResponseError(store, err).store && OnResponseError(store, err).store[k] == store[k]
    ensures OnResponseError(OnResponseError(store, err).store, err) == OnResponseError(store, err)
  {
  }

  /** Any other failure leaves the session exactly as it was. */
  lemma OtherErrorsKeepSession(store: Store, err: HttpError, contentType: string)
    requires err.status != Some(401)
    ensures RequestHeaders(OnResponseError(store, err).store, contentType) == RequestHeaders(store, contentType)
  {
  }

  /** `landlordId ? { landlordId } : {}`. */
  function MetersQuery(landlordId: Option<string>): (q: map<string, string>)
    ensures q.Keys == if Truthy(landlordId) then {"landlordId"} else {}
    ensures "landlordId" in q ==> q["landlordId"] == landlordId.value
  {
    if Truthy(landlordId) then map["landlordId" := landlordId.value] else map[]
  }

  /** The page number sent when the caller gives none. */
  const DefaultPage := 1
  /** The page size sent when the caller gives none. */
  const DefaultLimit := 20

  /** The page and limit parameters every paginated list request carries. */
  function PageQuery(page: Option<int>, limit: Option<int>): map<string, string>
  {
    map["page" := Decimal(page.GetOr(DefaultPage)), "limit" := Decimal(limit.GetOr(DefaultLimit))]
  }

  /** The query of a readings list request. */
  function ReadingsQuery(meterId: Option<string>, page: Option<int>, limit: Option<int>): (q: map<string, string>)
    ensures q.Keys == {"page", "limit"} + (if Truthy(meterId) then {"meterId"} else {})
    ensures "meterId" in q ==> q["meterId"] == meterId.value
  {
    var paging := PageQuery(page, limit);
    if Truthy(meterId) then paging["meterId" := meterId.value] else paging
  }

  /** The query of a bills list request. */
  function BillsQuery(status: Option<string>, landlordId: Option<string>, page: Option<int>, limit: Option<int>)
    : (q: map<string, string>)
    ensures q.Keys == {"page", "limit"} + (if Truthy(status) then {"status"} else {})
                      + (if Truthy(landlordId) then {"landlordId"} else {})
    ensures "status" in q ==> q["status"] == status.value
    ensures "landlordId" in q ==> q["landlordId"] == landlordId.value
  {
    var paging := PageQuery(page, limit);
    var withStatus := if Truthy(status) then paging["status" := status.value] else paging;
    if Truthy(landlordId) then withStatus["landlordId" := landlordId.value] else withStatus
  }

  /** The meters list and the bills list filter by landlord alike: each
      carries the landlord parameter exactly when the other does, with the
      same value, whatever else the bills query holds. */
  lemma LandlordFilterShared(landlordId: Option<string>, status: Option<string>, page: Option<int>, limit: Option<int>)
    ensures ("landlordId" in MetersQuery(landlordId)) <==> ("landlordId" in BillsQuery(status, landlordId, page, limit))
    ensures "landlordId" in MetersQuery(landlordId) ==>
              MetersQuery(landlordId)["landlordId"] == BillsQuery(status, landlordId, page, limit)["landlordId"]
  {
  }

  /** The server reads back the page and limit the client meant, and reads
      1 and 20 when the caller gave none, for any page and limit a
      JavaScript number holds exactly. */
  lemma PagingRoundTrip(page: Option<int>, limit: Option<int>, meterId: Option<string>,
                        status: Option<string>, landlordId: Option<string>)
    requires Text.IsSafeInteger(page.GetOr(DefaultPage)) && Text.IsSafeInteger(limit.GetOr(DefaultLimit))
    ensures ParseDecimal(ReadingsQuery(meterId, page, limit)["page"]) == Some(page.GetOr(1))
    ensures ParseDecimal(ReadingsQuery(meterId, page, limit)["limit"]) == Some(limit.GetOr(20))
    ensures ParseDecimal(BillsQuery(status, landlordId, page, limit)["page"]) == Some(page.GetOr(1))
    ensures ParseDecimal(BillsQuery(status, landlordId, page, limit)["limit"]) == Some(limit.GetOr(20))
  {
    PagingEntries(page, limit, meterId, status, landlordId);
    DecimalRoundTrip(page.GetOr(DefaultPage));
    DecimalRoundTrip(limit.GetOr(DefaultLimit));
  }

  /** Both list queries carry the decimal page and limit, whatever filters
      they add. */
  lemma PagingEntries(page: Option<int>, limit: Option<int>, meterId: Option<string>,
                      status: Option<string>, landlordId: Option<string>)
    ensures ReadingsQuery(meterId, page, limit)["page"] == Decimal(page.GetOr(DefaultPage))
    ensures ReadingsQuery(meterId, page, limit)["limit"] == Decimal(limit.GetOr(DefaultLimit))
    ensures BillsQuery(status, landlordId, page, limit)["page"] == Decimal(page.GetOr(DefaultPage))
    ensures BillsQuery(status, landlordId, page, limit)["limit"] == Decimal(limit.GetOr(DefaultLimit))
  {
  }

  /** The readings list as the server sends it. */
  datatype ReadingsReply = ReadingsReply(readings: seq<MeterReading>, pagination: Pagination)

  /** The bills list as the server sends it. */
  datatype BillsReply = BillsReply(bills: seq<Bill>, pagination: Pagination)

  /** The readings list as the client hands it on: the list under `data`,
      the pagination untouched. */
  function ReadingsPage(reply: ReadingsReply): (p: PaginatedResponse<MeterReading>)
    ensures p.data == reply.readings && p.pagination == reply.pagination
  {
    PaginatedResponse(reply.readings, reply.pagination)
  }

  /** The bills list as the client hands it on. */
  function BillsPage(reply: BillsReply): (p: PaginatedResponse<Bill>)
    ensures p.data == reply.bills && p.pagination == reply.pagination
  {
    PaginatedResponse(reply.bills, reply.pagination)
  }

  /** The evidence photo attached to a reading; its content is opaque. */
  datatype Photo = Photo(fileName: string, size: nat)

  datatype FormPart = TextPart(name: string, text: string) | FilePart(name: string, file: Photo)

  /** The multipart body of a create-reading request. */
  function ReadingForm(meterId: string, reading: real, photo: Photo, fmt: Formats): (form: seq<FormPart>)
    ensures |form| == 3
    ensures form[0] == TextPart("meterId", meterId)
    ensures form[1] == TextPart("reading", fmt.number(reading))
    ensures form[2] == FilePart("photo", photo)
  {
    [TextPart("meterId", meterId), TextPart("reading", fmt.number(reading)), FilePart("photo", photo)]
  }
}
