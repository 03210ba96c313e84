/**
 * The request-level logic of the HTTP routes, all of it pure: the `auth`,
 * `validateId` and `validateEvent` middlewares and the order in which a route
 * runs them, the checks of `GET /events` with the filter and sort documents
 * built from its parameters, and the `$set` payloads of the two PATCH routes.
 */
module Requests {
  import opened Wrappers

  // The HTTP statuses the routes answer with.
  const OK: nat := 200
  const CREATED: nat := 201
  const BAD_REQUEST: nat := 400
  const UNAUTHORIZED: nat := 401
  const NOT_FOUND: nat := 404
  const CONFLICT: nat := 409

  /** JavaScript truthiness of an optional string field: present and not empty. */
  predicate Truthy(v: Option<string>)
  {
    v.Some? && v.value != ""
  }

  /** The canonical form `new ObjectId(id)` gives to a valid id; left abstract. */
  type ObjectId = string

  /**
   * The checks and conversions the model does not interpret: `!isNaN(x)`,
   * `!isNaN(Date.parse(x))`, `ObjectId.isValid(x)` and `new ObjectId(x)`.
   */
  datatype Oracles = Oracles(
    isNumeric: string -> bool,
    isDate: string -> bool,
    isObjectId: string -> bool,
    toObjectId: string -> ObjectId)

  /** What a middleware does: call `next()`, or answer with a status and stop. */
  datatype Gate = Next | Halt(status: nat)

  /** The middlewares of a route run in order; the first that answers ends the request. */
  function RunMiddlewares(gates: seq<Gate>): (g: Gate)
    ensures g == Next <==> forall i :: 0 <= i < |gates| ==> gates[i] == Next
    ensures g.Halt? ==>
      exists i :: 0 <= i < |gates| && gates[i] == g && forall j :: 0 <= j < i ==> gates[j] == Next
    decreases |gates|
  {
    if gates == [] then Next
    else if gates[0].Halt? then gates[0]
    else RunMiddlewares(gates[1..])
  }

  /** `auth`: only a session carrying a user goes on; otherwise 401. */
  function Auth(user: Option<string>): (g: Gate)
    ensures g == Next <==> user.Some? && |user.value| > 0
    ensures g != Next ==> g == Halt(UNAUTHORIZED)
  {
    if Truthy(user) then Next else Halt(UNAUTHORIZED)
  }

  /** `validateId`: an `:id` path parameter that is not an ObjectId is answered with 400. */
  function ValidateId(id: string, o: Oracles): (g: Gate)
    ensures g == Next <==> o.isObjectId(id)
    ensures g != Next ==> g == Halt(BAD_REQUEST)
  {
    if !o.isObjectId(id) then Halt(BAD_REQUEST) else Next
  }

  const THEMES: seq<string> := ["sport", "culture", "festif", "pro", "autres"]
  const DIRECTIONS: seq<string> := ["ascendent", "descendent"]

  /** The fields of an event as a request body carries them and as the store keeps them. */
  datatype EventBody = EventBody(
    title: Option<string>,
    theme: Option<string>,
    imageUrl: Option<string>,
    price: Option<string>,
    date: Option<string>)

  datatype EventField = Title | Theme | ImageUrl | Price | Date

  function EventGet(b: EventBody, f: EventField): Option<string>
  {
    match f
    case Title => b.title
    case Theme => b.theme
    case ImageUrl => b.imageUrl
    case Price => b.price
    case Date => b.date
  }

  /** `validateEvent`: a supplied theme, price or date that is not acceptable is answered with 400. */
  function ValidateEvent(body: EventBody, o: Oracles): (g: Gate)
    ensures g == Next <==>
      && (Truthy(body.theme) ==> body.theme.value in {"sport", "culture", "festif", "pro", "autres"})
      && (Truthy(body.price) ==> o.isNumeric(body.price.value))
      && (Truthy(body.date) ==> o.isDate(body.date.value))
    ensures g != Next ==> g == Halt(BAD_REQUEST)
  {
    if Truthy(body.theme) && body.theme.value !in THEMES then Halt(BAD_REQUEST)
    else if Truthy(body.price) && !o.isNumeric(body.price.value) then Halt(BAD_REQUEST)
    else if Truthy(body.date) && !o.isDate(body.date.value) then Halt(BAD_REQUEST)
    else Next
  }

  /** `...(v && { key: v })`: the field is kept exactly when it is truthy. */
  function Spread(v: Option<string>): (k: Option<string>)
    ensures k.Some? <==> Truthy(v)
    ensures k.Some? ==> k == v
  {
    if Truthy(v) then v else None
  }

  /** The `$set` payload of PATCH /event/:id: the truthy fields of the body and no others. */
  function EventPayload(body: EventBody): (patch: EventBody)
    ensures forall f :: EventGet(patch, f).Some? <==> Truthy(EventGet(body, f))
    ensures forall f :: EventGet(patch, f).Some? ==> EventGet(patch, f) == EventGet(body, f)
  {
    EventBody(Spread(body.title), Spread(body.theme), Spread(body.imageUrl), Spread(body.price), Spread(body.date))
  }

  /** `$set`: every field the payload carries replaces the stored one; the others stay as they were. */
  function EventSet(current: EventBody, patch: EventBody): (r: EventBody)
    ensures forall f ::
      EventGet(r, f) == if EventGet(patch, f).Some? then EventGet(patch, f) else EventGet(current, f)
  {
    EventBody(
      Overwrite(current.title, patch.title),
      Overwrite(current.theme, patch.theme),
      Overwrite(current.imageUrl, patch.imageUrl),
      Overwrite(current.price, patch.price),
      Overwrite(current.date, patch.date))
  }

  /** One key of a `$set`: the payload's value when it carries the key, the stored one otherwise. */
  function Overwrite(current: Option<string>, update: Option<string>): Option<string>
  {
    if update.Some? then update else current
  }

  /** The profile fields of a user, as PATCH /details carries them and as the store keeps them. */
  datatype Profile = Profile(
    firstname: Option<string>,
    lastname: Option<string>,
    birthdate: Option<string>,
    avatarUrl: Option<string>)

  datatype ProfileField = FirstName | LastName | BirthDate | AvatarUrl

  function ProfileGet(p: Profile, f: ProfileField): Option<string>
  {
    match f
    case FirstName => p.firstname
    case LastName => p.lastname
    case BirthDate => p.birthdate
    case AvatarUrl => p.avatarUrl
  }

  /** The `$set` payload of PATCH /details: the truthy fields of the body and no others. */
  function ProfilePayload(body: Profile): (patch: Profile)
    ensures forall f :: ProfileGet(patch, f).Some? <==> Truthy(ProfileGet(body, f))
    ensures forall f :: ProfileGet(patch, f).Some? ==> ProfileGet(patch, f) == ProfileGet(body, f)
  {
    Profile(Spread(body.firstname), Spread(body.lastname), Spread(body.birthdate), Spread(body.avatarUrl))
  }

  /** `$set` on a profile: every field the payload carries replaces the stored one; the others stay. */
  function ProfileSet(current: Profile, patch: Profile): (r: Profile)
    ensures forall f ::
      ProfileGet(r, f) == if ProfileGet(patch, f).Some? then ProfileGet(patch, f) else ProfileGet(current, f)
  {
    Profile(
      Overwrite(current.firstname, patch.firstname),
      Overwrite(current.lastname, patch.lastname),
      Overwrite(current.birthdate, patch.birthdate),
      Overwrite(current.avatarUrl, patch.avatarUrl))
  }

  // ---------------------------------------------------------------------
  // GET /events

  /** The query string of GET /events; every parameter is optional. */
  datatype EventsParams = EventsParams(
    name: Option<string>,
    lePrice: Option<string>,
    ltPrice: Option<string>,
    gePrice: Option<string>,
    gtPrice: Option<string>,
    theme: Option<string>,
    beforeDate: Option<string>,
    afterDate: Option<string>,
    sortPrice: Option<string>,
    sortDate: Option<string>)

  /** The comparison operators `$lte`, `$lt`, `$gte` and `$gt`. */
  datatype Op = Lte | Lt | Gte | Gt

  /** `{ $regex: pattern, $options: flags }`. */
  datatype Regex = Regex(pattern: string, flags: string)

  /**
   * The filter document given to `find`: each key present or absent. A bound
   * holds the parameter text that `parseFloat` (price) or `new Date` (date)
   * turns into the value compared against.
   */
  datatype Filter = Filter(
    title: Option<Regex>,
    price: Option<map<Op, string>>,
    theme: Option<string>,
    date: Option<map<Op, string>>)

  datatype SortField = ByPrice | ByDate

  /** One key of the sort document: the field and 1 (ascending) or -1 (descending). */
  datatype SortKey = SortKey(field: SortField, direction: int)

  /** The options of `find`: a sort document, in key order, when there is one. */
  datatype FindOptions = FindOptions(sort: Option<seq<SortKey>>)

  datatype FindRequest = FindRequest(query: Filter, options: FindOptions)

  /** The parameter that supplies the price bound with operator `op`. */
  function PriceParam(p: EventsParams, op: Op): Option<string>
  {
    match op
    case Lte => p.lePrice
    case Lt => p.ltPrice
    case Gte => p.gePrice
    case Gt => p.gtPrice
  }

  /** The parameter that supplies the date bound with operator `op` (only `$lte` and `$gte` exist). */
  function DateParam(p: EventsParams, op: Op): Option<string>
  {
    match op
    case Lte => p.beforeDate
    case Gte => p.afterDate
    case _ => None
  }

  /** The parameter that asks for a sort on `field`. */
  function SortParam(p: EventsParams, field: SortField): Option<string>
  {
    match field
    case ByPrice => p.sortPrice
    case ByDate => p.sortDate
  }

  /** A supplied parameter must pass `ok`; an absent one always passes. */
  predicate Acceptable(v: Option<string>, ok: string -> bool)
  {
    Truthy(v) ==> ok(v.value)
  }

  /** Every check of GET /events, stated independently of the order the route runs them in. */
  predicate EventsParamsValid(p: EventsParams, o: Oracles)
  {
    && (forall op :: Acceptable(PriceParam(p, op), o.isNumeric))
    && (forall op :: Acceptable(DateParam(p, op), o.isDate))
    && (forall field :: Acceptable(SortParam(p, field), s => s == "ascendent" || s == "descendent"))
    && Acceptable(p.theme, s => s in {"sport", "culture", "festif", "pro", "autres"})
  }

  /** EventsParamsValid, one parameter at a time. */
  lemma ParamsValidByField(p: EventsParams, o: Oracles)
    ensures EventsParamsValid(p, o) <==>
      && Acceptable(p.lePrice, o.isNumeric) && Acceptable(p.ltPrice, o.isNumeric)
      && Acceptable(p.gePrice, o.isNumeric) && Acceptable(p.gtPrice, o.isNumeric)
      && Acceptable(p.beforeDate, o.isDate) && Acceptable(p.afterDate, o.isDate)
      && (Truthy(p.sortPrice) ==> p.sortPrice.value in DIRECTIONS)
      && (Truthy(p.sortDate) ==> p.sortDate.value in DIRECTIONS)
      && (Truthy(p.theme) ==> p.theme.value in THEMES)
  {
    assert PriceParam(p, Lte) == p.lePrice && PriceParam(p, Lt) == p.ltPrice;
    assert PriceParam(p, Gte) == p.gePrice && PriceParam(p, Gt) == p.gtPrice;
    assert DateParam(p, Lte) == p.beforeDate && DateParam(p, Gte) == p.afterDate;
    assert SortParam(p, ByPrice) == p.sortPrice && SortParam(p, ByDate) == p.sortDate;
  }

  /** `{ ...(v && { op: v }) }` for one bound. */
  function Bound(op: Op, v: Option<string>): map<Op, string>
  {
    if Truthy(v) then map[op := v.value] else map[]
  }

  /** The spread of the four price bounds holds the bound of each supplied parameter, and nothing else. */
  lemma PriceBoundsByOp(p: EventsParams)
    ensures var bounds := Bound(Lte, p.lePrice) + Bound(Lt, p.ltPrice) + Bound(Gte, p.gePrice) + Bound(Gt, p.gtPrice);
      forall op ::
        (op in bounds <==> Truthy(PriceParam(p, op))) &&
        (op in bounds ==> bounds[op] == PriceParam(p, op).value)
  {
    var bounds := Bound(Lte, p.lePrice) + Bound(Lt, p.ltPrice) + Bound(Gte, p.gePrice) + Bound(Gt, p.gtPrice);
    forall op
      ensures op in bounds <==> Truthy(PriceParam(p, op))
      ensures op in bounds ==> bounds[op] == PriceParam(p, op).value
    {
      match op
      case Lte =>
      case Lt =>
      case Gte =>
      case Gt =>
    }
  }

  /** The spread of the two date bounds holds the bound of each supplied parameter, and nothing else. */
  lemma DateBoundsByOp(p: EventsParams)
    ensures var bounds := Bound(Lte, p.beforeDate) + Bound(Gte, p.afterDate);
      forall op ::
        (op in bounds <==> Truthy(DateParam(p, op))) &&
        (op in bounds ==> bounds[op] == DateParam(p, op).value)
  {
    var bounds := Bound(Lte, p.beforeDate) + Bound(Gte, p.afterDate);
    forall op
      ensures op in bounds <==> Truthy(DateParam(p, op))
      ensures op in bounds ==> bounds[op] == DateParam(p, op).value
    {
      match op
      case Lte =>
      case Lt =>
      case Gte =>
      case Gt =>
    }
  }

  /** The `price` key of the filter: one bound per price parameter supplied, present only if some was. */
  function PriceFilter(p: EventsParams): (price: Option<map<Op, string>>)
    ensures price.Some? <==> Truthy(p.lePrice) || Truthy(p.ltPrice) || Truthy(p.gePrice) || Truthy(p.gtPrice)
    ensures price.Some? ==> forall op ::
      (op in price.value <==> Truthy(PriceParam(p, op))) &&
      (op in price.value ==> price.value[op] == PriceParam(p, op).value)
  {
    var bounds := Bound(Lte, p.lePrice) + Bound(Lt, p.ltPrice) + Bound(Gte, p.gePrice) + Bound(Gt, p.gtPrice);
    PriceBoundsByOp(p);
    KeyCount(bounds);
    if |bounds| > 0 then Some(bounds) else None
  }

  /** The `date` key of the filter: `$lte` from beforeDate, `$gte` from afterDate, present only if either was. */
  function DateFilter(p: EventsParams): (date: Option<map<Op, string>>)
    ensures date.Some? <==> Truthy(p.beforeDate) || Truthy(p.afterDate)
    ensures date.Some? ==> forall op ::
      (op in date.value <==> Truthy(DateParam(p, op))) &&
      (op in date.value ==> date.value[op] == DateParam(p, op).value)
  {
    var bounds := Bound(Lte, p.beforeDate) + Bound(Gte, p.afterDate);
    DateBoundsByOp(p);
    KeyCount(bounds);
    if |bounds| > 0 then Some(bounds) else None
  }

  /** The filter document of GET /events. */
  function EventsFilter(p: EventsParams): (f: Filter)
    ensures f.title.Some? <==> Truthy(p.name)
    ensures f.title.Some? ==> f.title.value == Regex(p.name.value, "i")
    ensures f.theme.Some? <==> Truthy(p.theme)
    ensures f.theme.Some? ==> f.theme == p.theme
    ensures f.price == PriceFilter(p) && f.date == DateFilter(p)
  {
    Filter(
      if Truthy(p.name) then Some(Regex(p.name.value, "i")) else None,
      PriceFilter(p),
      if Truthy(p.theme) then Some(p.theme.value) else None,
      DateFilter(p))
  }

  /** `Object.keys(m).length > 0` holds exactly when some key is present. */
  lemma KeyCount<K, V>(m: map<K, V>)
    ensures |m| > 0 <==> exists k :: k in m
  {
    if k :| k in m {
      assert k in m.Keys;
      assert |m.Keys| > 0;
    } else {
      assert m.Keys == {};
    }
  }

  /** `sortX === "ascendent" ? 1 : -1`. */
  function Direction(s: string): (d: int)
    ensures d == 1 || d == -1
    ensures d == 1 <==> s == "ascendent"
  {
    if s == "ascendent" then 1 else -1
  }

  /** `{ ...(v && { field: Direction(v) }) }` for one sort key. */
  function SortEntry(field: SortField, v: Option<string>): seq<SortKey>
  {
    if Truthy(v) then [SortKey(field, Direction(v.value))] else []
  }

  /** Every sort parameter supplied has its key in the sort document. */
  lemma SortKeysCover(p: EventsParams)
    ensures var keys := SortEntry(ByPrice, p.sortPrice) + SortEntry(ByDate, p.sortDate);
      forall field :: Truthy(SortParam(p, field)) ==> exists i :: 0 <= i < |keys| && keys[i].field == field
  {
    var keys := SortEntry(ByPrice, p.sortPrice) + SortEntry(ByDate, p.sortDate);
    forall field | Truthy(SortParam(p, field))
      ensures exists i :: 0 <= i < |keys| && keys[i].field == field
    {
      var i := if field == ByPrice then 0 else |SortEntry(ByPrice, p.sortPrice)|;
      assert keys[i].field == field;
    }
  }

  /** The options of GET /events: a sort on price, then on date, each when asked for. */
  function EventsOptions(p: EventsParams): (opts: FindOptions)
    ensures opts.sort.Some? <==> Truthy(p.sortPrice) || Truthy(p.sortDate)
    ensures opts.sort.Some? ==>
      var keys := opts.sort.value;
      && (forall field :: Truthy(SortParam(p, field)) <==> exists i :: 0 <= i < |keys| && keys[i].field == field)
      && (forall i :: 0 <= i < |keys| ==>
            Truthy(SortParam(p, keys[i].field)) &&
            keys[i].direction == Direction(SortParam(p, keys[i].field).value))
      && (forall i, j :: 0 <= i < j < |keys| ==> keys[i].field == ByPrice && keys[j].field == ByDate)
  {
    var sort := SortEntry(ByPrice, p.sortPrice) + SortEntry(ByDate, p.sortDate);
    SortKeysCover(p);
    FindOptions(if |sort| > 0 then Some(sort) else None)
  }

  /** GET /events up to the store: 400 on the first failing check, otherwise the `find` request. */
  function EventsRequest(p: EventsParams, o: Oracles): (r: Result<FindRequest>)
    ensures r.Ok? <==> EventsParamsValid(p, o)
    ensures r.Fail? ==> r.status == BAD_REQUEST
    ensures r.Ok? ==> r.value == FindRequest(EventsFilter(p), EventsOptions(p))
  {
    ParamsValidByField(p, o);
    if Truthy(p.lePrice) && !o.isNumeric(p.lePrice.value) then Fail(BAD_REQUEST)
    else if Truthy(p.ltPrice) && !o.isNumeric(p.ltPrice.value) then Fail(BAD_REQUEST)
    else if Truthy(p.gePrice) && !o.isNumeric(p.gePrice.value) then Fail(BAD_REQUEST)
    else if Truthy(p.gtPrice) && !o.isNumeric(p.gtPrice.value) then Fail(BAD_REQUEST)
    else if Truthy(p.theme) && p.theme.value !in THEMES then Fail(BAD_REQUEST)
    else if Truthy(p.beforeDate) && !o.isDate(p.beforeDate.value) then Fail(BAD_REQUEST)
    else if Truthy(p.afterDate) && !o.isDate(p.afterDate.value) then Fail(BAD_REQUEST)
    else if Truthy(p.sortPrice) && p.sortPrice.value !in DIRECTIONS then Fail(BAD_REQUEST)
    else if Truthy(p.sortDate) && p.sortDate.value !in DIRECTIONS then Fail(BAD_REQUEST)
    else Ok(FindRequest(EventsFilter(p), EventsOptions(p)))
  }

  /** An accepted request sorts each field it names ascending (1) or descending (-1), never otherwise. */
  lemma AcceptedSortDirections(p: EventsParams, o: Oracles)
    requires EventsParamsValid(p, o)
    ensures EventsRequest(p, o).Ok?
    ensures EventsOptions(p).sort.Some? ==> forall k :: k in EventsOptions(p).sort.value ==>
      || (k.direction == 1 && SortParam(p, k.field) == Some("ascendent"))
      || (k.direction == -1 && SortParam(p, k.field) == Some("descendent"))
  {
    var opts := EventsOptions(p);
    if opts.sort.Some? {
      forall k | k in opts.sort.value
        ensures || (k.direction == 1 && SortParam(p, k.field) == Some("ascendent"))
                || (k.direction == -1 && SortParam(p, k.field) == Some("descendent"))
      {
        assert Acceptable(SortParam(p, k.field), s => s == "ascendent" || s == "descendent");
      }
    }
  }
}
