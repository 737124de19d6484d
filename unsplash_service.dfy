/** The photo-service client (`UnsplashService`): the query items and
    headers of its three requests, and how a response (or a transport
    failure) becomes a result or an `UnsplashAPIError`.

    The HTTP exchange itself is not modelled: each call takes what the
    session delivered for the request it sends as an input (`Transport`). */
module UnsplashService {
  import opened Wrappers
  import opened UnsplashModels

  const BaseURL: string := "https://api.unsplash.com"
  const RandomPhotoPath: string := "/photos/random"
  const PhotosPath: string := "/photos"

  // ---------------------------------------------------------------------------
  // Query items

  /** The query parameters the client sends; `ParamString` gives their names
      on the wire. */
  datatype ParamName = ClientId | Query | Orientation | Topics | Featured | Username | Count | Page | PerPage | OrderBy

  function ParamString(n: ParamName): string {
    match n
    case ClientId => "client_id"
    case Query => "query"
    case Orientation => "orientation"
    case Topics => "topics"
    case Featured => "featured"
    case Username => "username"
    case Count => "count"
    case Page => "page"
    case PerPage => "per_page"
    case OrderBy => "order_by"
  }

  datatype QueryItem = QueryItem(name: ParamName, value: string)

  /** The value of the first item called `n`, if there is one. */
  function Lookup(items: seq<QueryItem>, n: ParamName): Option<string>
    decreases |items|
  {
    if items == [] then None
    else if items[0].name == n then Some(items[0].value)
    else Lookup(items[1..], n)
  }

  lemma {:induction false} LookupAppend(a: seq<QueryItem>, b: seq<QueryItem>, n: ParamName)
    ensures Lookup(a + b, n) == if Lookup(a, n).Some? then Lookup(a, n) else Lookup(b, n)
    decreases |a|
  {
    if a == [] {
      assert a + b == b;
    } else {
      assert (a + b)[0] == a[0];
      assert (a + b)[1..] == a[1..] + b;
      LookupAppend(a[1..], b, n);
    }
  }

  /** `String(n)` for an `Int`: decimal digits, with a minus sign when negative. */
  function IntString(n: int): string {
    if n < 0 then "-" + NatString(-n) else NatString(n)
  }

  function NatString(n: nat): string
    decreases n
  {
    var digit := ['0' + (n % 10) as char];
    if n < 10 then digit else NatString(n / 10) + digit
  }

  /** `String(b)` for a `Bool`. */
  function BoolString(b: bool): string {
    if b then "true" else "false"
  }

  /** Position of an item in the order the random-photo request lists them. */
  function SearchRank(n: ParamName): nat {
    match n
    case ClientId => 0
    case Query => 1
    case Orientation => 2
    case Topics => 3
    case Featured => 4
    case Username => 5
    case Count => 6
    case _ => 7
  }

  /** Every earlier item ranks strictly below every later one, so no name
      occurs twice. */
  predicate Ascending(items: seq<QueryItem>) {
    forall i, j :: 0 <= i < j < |items| ==> SearchRank(items[i].name) < SearchRank(items[j].name)
  }

  // ---------------------------------------------------------------------------
  // Optional items: a slot per parameter, emitted only when set

  /** One `if let` of the request builder: the item it would append, present
      only when the parameter is set. */
  datatype Slot = Slot(name: ParamName, value: Option<string>)

  /** The items of the slots that are set, in slot order. */
  function Present(slots: seq<Slot>): (items: seq<QueryItem>)
    ensures |items| <= |slots|
    decreases |slots|
  {
    if slots == [] then []
    else
      (if slots[0].value.Some? then [QueryItem(slots[0].name, slots[0].value.value)] else [])
      + Present(slots[1..])
  }

  /** The value of the first slot called `n`, if there is one. */
  function SlotLookup(slots: seq<Slot>, n: ParamName): Option<string>
    decreases |slots|
  {
    if slots == [] then None
    else if slots[0].name == n then slots[0].value
    else SlotLookup(slots[1..], n)
  }

  predicate SlotsAscending(slots: seq<Slot>) {
    forall i, j :: 0 <= i < j < |slots| ==> SearchRank(slots[i].name) < SearchRank(slots[j].name)
  }

  /** Emitting only the set slots keeps, for every name, exactly the value of
      its slot. */
  lemma {:induction false} PresentLookup(slots: seq<Slot>, n: ParamName)
    requires SlotsAscending(slots)
    ensures Lookup(Present(slots), n) == SlotLookup(slots, n)
    decreases |slots|
  {
    if slots != [] {
      var head := if slots[0].value.Some? then [QueryItem(slots[0].name, slots[0].value.value)] else [];
      assert Present(slots) == head + Present(slots[1..]);
      LookupAppend(head, Present(slots[1..]), n);
      SlotsAscendingTail(slots);
      PresentLookup(slots[1..], n);
      if slots[0].name == n {
        FirstSlotShadows(slots);
      }
    }
  }

  /** The slots after the first of an ascending run are ascending. */
  lemma SlotsAscendingTail(slots: seq<Slot>)
    requires SlotsAscending(slots) && slots != []
    ensures SlotsAscending(slots[1..])
  {
    forall i, j | 0 <= i < j < |slots[1..]|
      ensures SearchRank(slots[1..][i].name) < SearchRank(slots[1..][j].name)
    {
      assert slots[1..][i] == slots[i + 1] && slots[1..][j] == slots[j + 1];
    }
  }

  /** In an ascending run, the first slot's name occurs nowhere after it,
      neither among the later slots nor among the items they emit. */
  lemma FirstSlotShadows(slots: seq<Slot>)
    requires SlotsAscending(slots) && slots != []
    ensures Lookup(Present(slots[1..]), slots[0].name) == None
    ensures SlotLookup(slots[1..], slots[0].name) == None
  {
    var n := slots[0].name;
    assert forall i :: 0 <= i < |slots[1..]| ==> slots[1..][i] == slots[i + 1];
    PresentRankAbove(slots[1..], SearchRank(n));
    LookupAbsent(Present(slots[1..]), n);
    NoSlotLookup(slots[1..], n);
  }

  lemma {:induction false} PresentRankAbove(slots: seq<Slot>, r: nat)
    requires forall i :: 0 <= i < |slots| ==> r < SearchRank(slots[i].name)
    ensures forall i :: 0 <= i < |Present(slots)| ==> r < SearchRank(Present(slots)[i].name)
    decreases |slots|
  {
    if slots != [] {
      PresentRankAbove(slots[1..], r);
      var head := if slots[0].value.Some? then [QueryItem(slots[0].name, slots[0].value.value)] else [];
      assert Present(slots) == head + Present(slots[1..]);
    }
  }

  lemma {:induction false} NoSlotLookup(slots: seq<Slot>, n: ParamName)
    requires forall i :: 0 <= i < |slots| ==> slots[i].name != n
    ensures SlotLookup(slots, n) == None
    decreases |slots|
  {
    if slots != [] {
      NoSlotLookup(slots[1..], n);
    }
  }

  /** The first slot called `n` decides its value. */
  lemma {:induction false} SlotLookupAt(slots: seq<Slot>, i: nat, n: ParamName)
    requires i < |slots| && slots[i].name == n
    requires forall j :: 0 <= j < i ==> slots[j].name != n
    ensures SlotLookup(slots, n) == slots[i].value
    decreases i
  {
    if i > 0 {
      SlotLookupAt(slots[1..], i - 1, n);
    }
  }

  /** The first item called `n` decides its value. */
  lemma {:induction false} LookupAt(items: seq<QueryItem>, i: nat, n: ParamName)
    requires i < |items| && items[i].name == n
    requires forall j :: 0 <= j < i ==> items[j].name != n
    ensures Lookup(items, n) == Some(items[i].value)
    decreases i
  {
    if i > 0 {
      LookupAt(items[1..], i - 1, n);
    }
  }

  /** A list without an item called `n` looks `n` up to nothing. */
  lemma {:induction false} LookupAbsent(items: seq<QueryItem>, n: ParamName)
    requires forall i :: 0 <= i < |items| ==> items[i].name != n
    ensures Lookup(items, n) == None
    decreases |items|
  {
    if items != [] {
      LookupAbsent(items[1..], n);
    }
  }

  /** An item ranked below an ascending list extends it. */
  lemma AscendingCons(x: QueryItem, items: seq<QueryItem>)
    requires Ascending(items)
    requires forall i :: 0 <= i < |items| ==> SearchRank(x.name) < SearchRank(items[i].name)
    ensures Ascending([x] + items)
  {
    var xs := [x] + items;
    forall i, j | 0 <= i < j < |xs| ensures SearchRank(xs[i].name) < SearchRank(xs[j].name) {
      if i > 0 {
        assert xs[i] == items[i - 1] && xs[j] == items[j - 1];
      } else {
        assert xs[j] == items[j - 1];
      }
    }
  }

  /** Ascending slots emit ascending items. */
  lemma {:induction false} PresentAscending(slots: seq<Slot>)
    requires SlotsAscending(slots)
    ensures Ascending(Present(slots))
    decreases |slots|
  {
    if slots != [] {
      var rest := slots[1..];
      assert SlotsAscending(rest) by {
        forall i, j | 0 <= i < j < |rest|
          ensures SearchRank(rest[i].name) < SearchRank(rest[j].name)
        {
          assert rest[i] == slots[i + 1] && rest[j] == slots[j + 1];
        }
      }
      PresentAscending(rest);
      PresentRankAbove(rest, SearchRank(slots[0].name));
      var head := if slots[0].value.Some? then [QueryItem(slots[0].name, slots[0].value.value)] else [];
      assert Present(slots) == head + Present(rest);
    }
  }

  // ---------------------------------------------------------------------------
  // The three requests

  /** The optional items of a random-photo request, one `if let` each, in the
      order query, orientation, topics, featured, username and, only when
      `withCount`, count. */
  function SearchSlots(p: UnsplashSearchParams, withCount: bool): seq<Slot> {
    [ Slot(Query, p.query),
      Slot(Orientation, if p.orientation.Some? then Some(OrientationRawValue(p.orientation.value)) else None),
      Slot(Topics, if p.category.Some? then Some(CategoryRawValue(p.category.value)) else None),
      Slot(Featured, if p.featured.Some? then Some(BoolString(p.featured.value)) else None),
      Slot(ParamName.Username, p.username) ]
    + (if withCount then [Slot(Count, if p.count.Some? then Some(IntString(p.count.value)) else None)] else [])
  }

  /** The query items of `getRandomPhoto(params:)`: the access key, then the
      set search parameters (count included). */
  function RandomPhotoQueryItems(accessKey: string, params: Option<UnsplashSearchParams>): seq<QueryItem> {
    [QueryItem(ClientId, accessKey)]
    + (if params.Some? then Present(SearchSlots(params.value, true)) else [])
  }

  /** The query items of `getRandomPhotos(count:params:)`: the access key and
      the `count` argument, then the set search parameters except their own
      count. */
  function RandomPhotosQueryItems(accessKey: string, count: int, params: Option<UnsplashSearchParams>): seq<QueryItem> {
    [QueryItem(ClientId, accessKey), QueryItem(Count, IntString(count))]
    + (if params.Some? then Present(SearchSlots(params.value, false)) else [])
  }

  /** The query items of `getPhotos(page:perPage:orderBy:)`, whose arguments
      default to page 1, 10 per page, most popular first. */
  function PhotosQueryItems(accessKey: string, page: int := 1, perPage: int := 10, orderBy: string := "popular"): (items: seq<QueryItem>)
    ensures |items| == 4
    ensures items[0] == QueryItem(ClientId, accessKey)
    ensures [items[1].name, items[2].name, items[3].name] == [Page, PerPage, OrderBy]
    ensures Lookup(items, Page) == Some(IntString(page))
    ensures Lookup(items, PerPage) == Some(IntString(perPage))
    ensures Lookup(items, OrderBy) == Some(orderBy)
  {
    var items := [QueryItem(ClientId, accessKey), QueryItem(Page, IntString(page)),
                  QueryItem(PerPage, IntString(perPage)), QueryItem(OrderBy, orderBy)];
    LookupAt(items, 1, Page);
    LookupAt(items, 2, PerPage);
    LookupAt(items, 3, OrderBy);
    items
  }

  /** The value the random-photo request sends for a search parameter: the
      parameter when it is set, nothing otherwise. */
  function Expected(params: Option<UnsplashSearchParams>, n: ParamName, withCount: bool): Option<string> {
    if params.None? then None
    else
      var p := params.value;
      match n
      case Query => p.query
      case Orientation => if p.orientation.Some? then Some(OrientationRawValue(p.orientation.value)) else None
      case Topics => if p.category.Some? then Some(CategoryRawValue(p.category.value)) else None
      case Featured => if p.featured.Some? then Some(BoolString(p.featured.value)) else None
      case Username => p.username
      case Count => if withCount && p.count.Some? then Some(IntString(p.count.value)) else None
      case _ => None
  }

  /** The slots hold, name by name, the value the request should send, and
      list the names in ascending rank. */
  lemma SearchSlotsSpec(p: UnsplashSearchParams, withCount: bool)
    ensures SlotsAscending(SearchSlots(p, withCount))
    ensures forall n :: n != ClientId ==> SlotLookup(SearchSlots(p, withCount), n) == Expected(Some(p), n, withCount)
    ensures forall i :: 0 <= i < |SearchSlots(p, withCount)| ==> 0 < SearchRank(SearchSlots(p, withCount)[i].name)
  {
    SearchSlotsOrdered(p, withCount);
    forall n | n != ClientId
      ensures SlotLookup(SearchSlots(p, withCount), n) == Expected(Some(p), n, withCount)
    {
      SearchSlotLookup(p, withCount, n);
    }
  }

  /** The slots come in ascending rank, all after the access key's. */
  lemma SearchSlotsOrdered(p: UnsplashSearchParams, withCount: bool)
    ensures SlotsAscending(SearchSlots(p, withCount))
    ensures forall i :: 0 <= i < |SearchSlots(p, withCount)| ==> 0 < SearchRank(SearchSlots(p, withCount)[i].name)
  {
  }

  /** The slot of each parameter holds its expected value. */
  lemma SearchSlotLookup(p: UnsplashSearchParams, withCount: bool, n: ParamName)
    requires n != ClientId
    ensures SlotLookup(SearchSlots(p, withCount), n) == Expected(Some(p), n, withCount)
  {
    var slots := SearchSlots(p, withCount);
    match n
    case Query => SlotLookupAt(slots, 0, n);
    case Orientation => SlotLookupAt(slots, 1, n);
    case Topics => SlotLookupAt(slots, 2, n);
    case Featured => SlotLookupAt(slots, 3, n);
    case Username => SlotLookupAt(slots, 4, n);
    case Count =>
      if withCount {
        SlotLookupAt(slots, 5, n);
      } else {
        NoSlotLookup(slots, n);
      }
    case _ => NoSlotLookup(slots, n);
  }

  /** `getRandomPhoto` sends the access key first, then each search parameter
      exactly when it is set, with its raw value, in the fixed order query,
      orientation, topics, featured, username, count. */
  lemma RandomPhotoQueryItemsSpec(accessKey: string, params: Option<UnsplashSearchParams>)
    ensures var items := RandomPhotoQueryItems(accessKey, params);
      && items[0] == QueryItem(ClientId, accessKey)
      && Ascending(items)
      && forall n :: n != ClientId ==> Lookup(items, n) == Expected(params, n, true)
  {
    var items := RandomPhotoQueryItems(accessKey, params);
    var head := [QueryItem(ClientId, accessKey)];
    var rest := if params.Some? then Present(SearchSlots(params.value, true)) else [];
    assert items == head + rest;
    if params.Some? {
      SearchSlotsSpec(params.value, true);
      PresentAscending(SearchSlots(params.value, true));
      PresentRankAbove(SearchSlots(params.value, true), 0);
    }
    AscendingCons(head[0], rest);
    forall n | n != ClientId
      ensures Lookup(items, n) == Expected(params, n, true)
    {
      LookupAppend(head, rest, n);
      LookupAbsent(head, n);
      if params.Some? {
        PresentLookup(SearchSlots(params.value, true), n);
      } else {
        LookupAbsent(rest, n);
      }
    }
  }

  /** `getRandomPhotos` sends the access key and its `count` argument first,
      then the set search parameters in the same order; the parameters' own
      count is never sent, so the argument is the only count. */
  lemma RandomPhotosQueryItemsSpec(accessKey: string, count: int, params: Option<UnsplashSearchParams>)
    ensures var items := RandomPhotosQueryItems(accessKey, count, params);
      && items[..2] == [QueryItem(ClientId, accessKey), QueryItem(Count, IntString(count))]
      && Ascending(items[2..])
      && (forall i :: 2 <= i < |items| ==> items[i].name != Count)
      && forall n :: n != ClientId && n != Count ==> Lookup(items, n) == Expected(params, n, false)
  {
    var rest := if params.Some? then Present(SearchSlots(params.value, false)) else [];
    if params.Some? {
      RandomPhotosRestSpec(params.value);
    }
    KeyAndCountFirst(accessKey, count, rest, params);
  }

  /** The two leading items of a `getRandomPhotos` request in front of
      optional items that are ascending, never a count, and carry the
      expected values. */
  lemma KeyAndCountFirst(accessKey: string, count: int, rest: seq<QueryItem>, params: Option<UnsplashSearchParams>)
    requires Ascending(rest) && forall i :: 0 <= i < |rest| ==> rest[i].name != Count
    requires forall n :: n != ClientId && n != Count ==> Lookup(rest, n) == Expected(params, n, false)
    ensures var items := [QueryItem(ClientId, accessKey), QueryItem(Count, IntString(count))] + rest;
      && items[..2] == [QueryItem(ClientId, accessKey), QueryItem(Count, IntString(count))]
      && Ascending(items[2..])
      && (forall i :: 2 <= i < |items| ==> items[i].name != Count)
      && forall n :: n != ClientId && n != Count ==> Lookup(items, n) == Expected(params, n, false)
  {
    var first := [QueryItem(ClientId, accessKey), QueryItem(Count, IntString(count))];
    var items := first + rest;
    assert items[..2] == first && items[2..] == rest;
    assert forall i :: 2 <= i < |items| ==> items[i] == rest[i - 2];
    forall n | n != ClientId && n != Count
      ensures Lookup(items, n) == Expected(params, n, false)
    {
      LookupAppend(first, rest, n);
      LookupAbsent(first, n);
    }
  }

  /** The optional items of a `getRandomPhotos` request are ascending, never
      a count, and carry each set parameter's value. */
  lemma RandomPhotosRestSpec(p: UnsplashSearchParams)
    ensures var rest := Present(SearchSlots(p, false));
      && Ascending(rest)
      && (forall i :: 0 <= i < |rest| ==> rest[i].name != Count)
      && forall n :: n != ClientId ==> Lookup(rest, n) == Expected(Some(p), n, false)
  {
    var slots := SearchSlots(p, false);
    SearchSlotsSpec(p, false);
    PresentAscending(slots);
    PresentLookup(slots, Count);
    LookupNoneAbsent(Present(slots), Count);
    forall n | n != ClientId
      ensures Lookup(Present(slots), n) == Expected(Some(p), n, false)
    {
      PresentLookup(slots, n);
    }
  }

  /** Whatever the search parameters' count, `getRandomPhotos` sends the same
      items. */
  lemma RandomPhotosIgnoresParamsCount(accessKey: string, count: int, p: UnsplashSearchParams, c: Option<int>)
    ensures RandomPhotosQueryItems(accessKey, count, Some(p))
         == RandomPhotosQueryItems(accessKey, count, Some(p.(count := c)))
  {
  }

  /** A list that looks `n` up to nothing has no item called `n`. */
  lemma {:induction false} LookupNoneAbsent(items: seq<QueryItem>, n: ParamName)
    requires Lookup(items, n) == None
    ensures forall i :: 0 <= i < |items| ==> items[i].name != n
    decreases |items|
  {
    if items != [] {
      LookupNoneAbsent(items[1..], n);
      assert forall i :: 1 <= i < |items| ==> items[i] == items[1..][i - 1];
    }
  }

  // ---------------------------------------------------------------------------
  // Requests and responses

  /** The access key compiled into the client. The client ships a
      non-empty key; this stands in for its value. */
  const AccessKey: string := "<access key>"

  /** The request sent: endpoint, query items and the two header values. */
  datatype Request = Request(url: string, queryItems: seq<QueryItem>, authorization: string, accept: string)

  /** Every request authenticates with the access key as a client id and asks
      for JSON. */
  function MakeRequest(path: string, items: seq<QueryItem>, accessKey: string): (r: Request)
    ensures r.url == BaseURL + path && r.queryItems == items
    ensures r.authorization == "Client-ID " + accessKey && r.accept == "application/json"
  {
    Request(BaseURL + path, items, "Client-ID " + accessKey, "application/json")
  }

  /** What decoding the body gave: a value, or a `DecodingError` described by
      its text. */
  datatype Decoded<T> = Decoded(value: T) | Undecodable(reason: string)

  /** What the session delivered for the request: a transport error, or a
      response whose status code is present when it is an HTTP response. */
  datatype Transport<T> = TransportFailed(reason: string) | Received(statusCode: Option<int>, body: Decoded<T>)

  /** The status check: 401 is unauthorized, 403 rate limited, 2xx fine and
      every other code an invalid response. */
  function StatusError(status: int): (e: Option<UnsplashAPIError>)
    ensures e == Some(Unauthorized) <==> status == 401
    ensures e == Some(RateLimitExceeded) <==> status == 403
    ensures e.None? <==> 200 <= status <= 299
    ensures e == Some(InvalidResponse) <==> status != 401 && status != 403 && !(200 <= status <= 299)
  {
    if status == 401 then Some(Unauthorized)
    else if status == 403 then Some(RateLimitExceeded)
    else if 200 <= status <= 299 then None
    else Some(InvalidResponse)
  }

  /** The `do`/`catch` around the exchange: the status errors thrown inside it
      are caught by the general `catch` and rewrapped as network errors; only
      a decoding failure becomes a decoding error, and any transport error a
      network error. */
  function Complete<T>(t: Transport<T>): (r: Result<T, UnsplashAPIError>)
    ensures r.Failure? ==> r.error.NetworkError? || r.error.DecodingError?
    ensures r.Success? <==>
      t.Received? && t.body.Decoded? && (t.statusCode.None? || 200 <= t.statusCode.value <= 299)
    ensures r.Success? ==> r.value == t.body.value
    ensures t.Received? && t.statusCode.Some? && StatusError(t.statusCode.value).Some? ==>
      r == Failure(NetworkError(ApiCause(StatusError(t.statusCode.value).value)))
    ensures (exists d :: r == Failure(DecodingError(ForeignCause(d)))) <==>
      t.Received? && t.body.Undecodable? && (t.statusCode.None? || 200 <= t.statusCode.value <= 299)
    ensures t.TransportFailed? ==> r == Failure(NetworkError(ForeignCause(t.reason)))
  {
    match t
    case TransportFailed(reason) => Failure(NetworkError(ForeignCause(reason)))
    case Received(status, body) =>
      if status.Some? && StatusError(status.value).Some? then
        Failure(NetworkError(ApiCause(StatusError(status.value).value)))
      else
        match body
        case Decoded(v) => Success(v)
        case Undecodable(reason) => Failure(DecodingError(ForeignCause(reason)))
  }

  /** One call: the request it sends, if it gets that far, and its outcome. */
  datatype Call<T> = Call(sent: Option<Request>, outcome: Result<T, UnsplashAPIError>)

  /** The steps every endpoint shares: refuse an empty key before sending
      anything, otherwise send the request and classify what came back. */
  function Perform<T>(accessKey: string, path: string, items: seq<QueryItem>, t: Transport<T>): (c: Call<T>)
    ensures accessKey == "" <==> c.sent.None?
    ensures accessKey == "" ==> c.outcome == Failure(NoAccessKey)
    ensures accessKey != "" ==> c.sent == Some(MakeRequest(path, items, accessKey)) && c.outcome == Complete(t)
  {
    if accessKey == "" then Call(None, Failure(NoAccessKey))
    else Call(Some(MakeRequest(path, items, accessKey)), Complete(t))
  }

  /** `getRandomPhoto(params:)`; `t` is what the session delivered. */
  function GetRandomPhoto(accessKey: string, params: Option<UnsplashSearchParams>, t: Transport<UnsplashPhoto>): (c: Call<UnsplashPhoto>)
    ensures c.sent.Some? ==> (c.sent.value.url == BaseURL + RandomPhotoPath
      && c.sent.value.queryItems == RandomPhotoQueryItems(accessKey, params))
    ensures c.sent.None? <==> accessKey == ""
  {
    Perform(accessKey, RandomPhotoPath, RandomPhotoQueryItems(accessKey, params), t)
  }

  /** `getRandomPhotos(count:params:)`, asking for 10 photos by default. */
  function GetRandomPhotos(accessKey: string, t: Transport<seq<UnsplashPhoto>>, count: int := 10,
                           params: Option<UnsplashSearchParams> := None): (c: Call<seq<UnsplashPhoto>>)
    ensures c.sent.Some? ==> (c.sent.value.url == BaseURL + RandomPhotoPath
      && c.sent.value.queryItems == RandomPhotosQueryItems(accessKey, count, params))
    ensures c.sent.None? <==> accessKey == ""
  {
    Perform(accessKey, RandomPhotoPath, RandomPhotosQueryItems(accessKey, count, params), t)
  }

  /** `getPhotos(page:perPage:orderBy:)`. */
  function GetPhotos(accessKey: string, t: Transport<seq<UnsplashPhoto>>, page: int := 1, perPage: int := 10,
                     orderBy: string := "popular"): (c: Call<seq<UnsplashPhoto>>)
    ensures c.sent.Some? ==> (c.sent.value.url == BaseURL + PhotosPath
      && c.sent.value.queryItems == PhotosQueryItems(accessKey, page, perPage, orderBy))
    ensures c.sent.None? <==> accessKey == ""
  {
    Perform(accessKey, PhotosPath, PhotosQueryItems(accessKey, page, perPage, orderBy), t)
  }

  /** With the compiled-in key the empty-key guard never fires: every call
      sends its request, and a status rejection reaches the caller as a
      network error wrapping the status error, never as the status error
      itself. */
  lemma ShippedKeyAlwaysSends(params: Option<UnsplashSearchParams>, t: Transport<UnsplashPhoto>)
    ensures GetRandomPhoto(AccessKey, params, t).sent.Some?
    ensures GetRandomPhoto(AccessKey, params, t).outcome != Failure(NoAccessKey)
    ensures GetRandomPhoto(AccessKey, params, t).outcome.Failure? ==>
      GetRandomPhoto(AccessKey, params, t).outcome.error !in {Unauthorized, RateLimitExceeded, InvalidResponse}
  {
    assert AccessKey != "" by { assert AccessKey[0] == '<'; }
  }
}
