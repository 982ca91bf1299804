/**
 * hooks/useServices.ts: the state behind the home feed. Backend records are mapped to feed posts
 * with defaults for missing fields; pages are fetched, replaced or appended; favourites are set by
 * id; a nearby search replaces the list.
 */
module ServiceFeed {
  import opened Wrappers
  import opened JsText
  import opened Http
  import opened SearchService

  const DefaultServiceImage := "@/assets/images/" + "service_default_image" + ".png"
  const NoAddressText := "Dirección no disponible"
  const AnonymousName := "Anónimo"
  const PageSize := 10
  const NoServicesMessage := "No se encontraron servicios."
  const LoadFailedMessage := "No se pudieron cargar los servicios"
  const FavoriteFailedMessage := "No se pudo actualizar el favorito"
  const NearbyFailedMessage := "No se pudieron cargar los servicios cercanos, inténtelo más nuevamente"

  /** A feed post (`ServicePost`). */
  datatype ServicePost = ServicePost(
    id: string,
    title: string,
    address: string,
    category: string,
    personName: string,
    serviceImages: seq<string>,
    description: string,
    isFavorite: bool,
    favoritesCount: int,
    isPromoted: bool,
    profilePhoto: Option<string>,
    user: Option<ApiUser>,
    userId: Option<ApiUser>)

  /** `service.user || service.user_id || {}`: `None` stands for the empty object. */
  function Owner(s: ApiService): Option<ApiUser> {
    if s.user.Some? then s.user else s.userId
  }

  /** `transformServiceData` on one record. */
  function Transform(s: ApiService): (p: ServicePost)
    ensures p.id == s.id && p.title == s.serviceName
    ensures p.category == s.category && p.description == s.description
    ensures p.address != "" && (TruthyOpt(s.address) ==> p.address == s.address.value)
    ensures p.personName != ""
    ensures |p.serviceImages| >= 1
    ensures s.photos.Some? && s.photos.value != [] ==> p.serviceImages == s.photos.value
    ensures p.isFavorite <==> s.isFavorite == Some(true)
    ensures p.isPromoted <==> s.isPromoted == Some(true)
    ensures p.user == s.user && p.userId == s.userId
  {
    var owner := Owner(s);
    ServicePost(
      s.id,
      s.serviceName,
      if TruthyOpt(s.address) then s.address.value else NoAddressText,
      s.category,
      if owner.Some? && TruthyOpt(owner.value.name) then owner.value.name.value else AnonymousName,
      if s.photos.Some? && |s.photos.value| > 0 then s.photos.value else [DefaultServiceImage],
      s.description,
      s.isFavorite == Some(true),
      if s.favoritesCount.Some? then s.favoritesCount.value else 0,
      s.isPromoted == Some(true),
      if owner.Some? then owner.value.profilePhoto else None,
      s.user,
      s.userId)
  }

  /** Missing or falsy fields take their defaults. */
  lemma TransformDefaults(s: ApiService)
    ensures !TruthyOpt(s.address) ==> Transform(s).address == NoAddressText
    ensures s.photos.None? || s.photos.value == [] ==> Transform(s).serviceImages == [DefaultServiceImage]
    ensures s.favoritesCount.None? ==> Transform(s).favoritesCount == 0
    ensures s.isFavorite.None? ==> !Transform(s).isFavorite
    ensures s.isPromoted.None? ==> !Transform(s).isPromoted
    ensures s.user.None? && s.userId.None? ==> Transform(s).personName == AnonymousName && Transform(s).profilePhoto.None?
  {
  }

  /** The name and photo come from `user` when present, else from `user_id`. */
  lemma TransformOwner(s: ApiService)
    ensures s.user.Some? ==> Transform(s).profilePhoto == s.user.value.profilePhoto
    ensures s.user.Some? && TruthyOpt(s.user.value.name) ==> Transform(s).personName == s.user.value.name.value
    ensures s.user.None? && s.userId.Some? ==> Transform(s).profilePhoto == s.userId.value.profilePhoto
    ensures s.user.None? && s.userId.Some? && TruthyOpt(s.userId.value.name) ==>
      Transform(s).personName == s.userId.value.name.value
  {
  }

  /** `apiServices.map(...)`: one post per record, in the same order. */
  function TransformAll(records: seq<ApiService>): (r: seq<ServicePost>)
    ensures |r| == |records|
    ensures forall i :: 0 <= i < |r| ==> r[i] == Transform(records[i])
  {
    if records == [] then [] else [Transform(records[0])] + TransformAll(records[1..])
  }

  /** Every post with id `id` gets `isFavorite := flag`; every other post is left as it was. */
  function SetFavorite(posts: seq<ServicePost>, id: string, flag: bool): (r: seq<ServicePost>)
    ensures |r| == |posts|
    ensures forall i :: 0 <= i < |r| && posts[i].id == id ==> r[i] == posts[i].(isFavorite := flag)
    ensures forall i :: 0 <= i < |r| && posts[i].id != id ==> r[i] == posts[i]
  {
    if posts == [] then []
    else [if posts[0].id == id then posts[0].(isFavorite := flag) else posts[0]] + SetFavorite(posts[1..], id, flag)
  }

  /** Setting a flag twice is setting it once. */
  lemma {:induction false} SetFavoriteIdempotent(posts: seq<ServicePost>, id: string, flag: bool)
    ensures SetFavorite(SetFavorite(posts, id, flag), id, flag) == SetFavorite(posts, id, flag)
  {
    if posts != [] {
      SetFavoriteIdempotent(posts[1..], id, flag);
      assert SetFavorite(posts, id, flag)[1..] == SetFavorite(posts[1..], id, flag);
    }
  }

  /** Setting a post's flag to what it was, then back, restores the list. */
  lemma {:induction false} SetFavoriteUndo(posts: seq<ServicePost>, id: string, flag: bool)
    requires forall i :: 0 <= i < |posts| && posts[i].id == id ==> posts[i].isFavorite == flag
    ensures SetFavorite(SetFavorite(posts, id, !flag), id, flag) == posts
  {
    if posts != [] {
      SetFavoriteUndo(posts[1..], id, flag);
      assert SetFavorite(posts, id, !flag)[1..] == SetFavorite(posts[1..], id, !flag);
    }
  }

  /** The list after a page arrives: page 1 replaces it, any other page is appended. */
  function Paged<T>(prev: seq<T>, pageNum: int, fetched: seq<T>): (r: seq<T>)
    ensures pageNum == 1 ==> r == fetched
    ensures pageNum != 1 ==> |r| == |prev| + |fetched| && r[..|prev|] == prev && r[|prev|..] == fetched
  {
    if pageNum == 1 then fetched else prev + fetched
  }

  /** The search parameters of `fetchServices(pageNum, searchQuery)`: always a page of ten. */
  function PageRequest(pageNum: int, searchQuery: string): (p: SearchParams)
    ensures p.limit == Some(PageSize) && p.page == Some(pageNum) && p.query == Some(searchQuery)
  {
    SearchParams(Some(searchQuery), Some(pageNum), Some(PageSize))
  }

  /** How `searchService(params)` behaves for a stored token and a settled request. */
  predicate IsSearchExchange(x: Exchange<SearchReply>, params: SearchParams, token: Option<string>, call: Outcome<Reply<SearchReply>>) {
    && (x.sent.Some? <==> TruthyOpt(token))
    && (x.sent.Some? ==> x.sent.value.path == SearchUrl(QueryPairs(Some(params))))
    && (x.outcome.Ok? <==> TruthyOpt(token) && call.Ok? && call.value.data.Some? && call.value.data.value.services.Some?)
    && (x.outcome.Ok? ==> x.outcome.value == call.value.data.value && x.outcome.value.services.Some?)
    && (x.outcome.Err? ==> x.outcome.thrown.Error?)
  }

  /** `searchService(params)` as a step of the feed. */
  method Search(params: SearchParams, token: Option<string>, call: Outcome<Reply<SearchReply>>) returns (x: Exchange<SearchReply>)
    ensures IsSearchExchange(x, params, token, call)
  {
    x := SearchServiceCall(token, Some(params), call);
  }

  /** The favourite backend call `handleToggleFavorite` makes. */
  datatype FavoriteCall = RemoveFavorite(id: string) | AddFavorite(id: string)

  /** A position, as getUserLocation reports it. */
  datatype Coords = Coords(latitude: int, longitude: int)

  class Feed {
    var searchText: string
    var isRefreshing: bool
    var services: seq<ServicePost>
    var page: int
    var totalPages: int
    var loading: bool
    var locationLoading: bool
    /** The error alerts shown so far. */
    var alerts: seq<string>

    constructor ()
      ensures searchText == "" && !isRefreshing && services == [] && page == 1 && totalPages == 1
      ensures loading && !locationLoading && alerts == [] && Valid()
    {
      searchText, isRefreshing, services := "", false, [];
      page, totalPages := 1, 1;
      loading, locationLoading := true, false;
      alerts := [];
    }

    /**
     * `fetchServices(pageNum, searchQuery)`: `token` and `call` are the stored token and how the
     * search request settles. Page 1 replaces the list, any other page appends to it.
     */
    method FetchServices(pageNum: int, searchQuery: string, token: Option<string>, call: Outcome<Reply<SearchReply>>)
      returns (requested: SearchParams, x: Exchange<SearchReply>)
      modifies this
      ensures requested == PageRequest(pageNum, searchQuery)
      ensures IsSearchExchange(x, requested, token, call)
      ensures x.outcome.Ok? ==> services == Paged(old(services), pageNum, TransformAll(x.outcome.value.services.value))
      ensures x.outcome.Ok? ==> page == pageNum && totalPages == x.outcome.value.pages
      ensures x.outcome.Ok? && x.outcome.value.services.value == [] ==> alerts == old(alerts) + [NoServicesMessage]
      ensures x.outcome.Ok? && x.outcome.value.services.value != [] ==> alerts == old(alerts)
      ensures x.outcome.Err? ==> services == old(services) && page == old(page) && totalPages == old(totalPages)
      ensures x.outcome.Err? ==> alerts == old(alerts) + [MessageOr(x.outcome.thrown, LoadFailedMessage)]
      ensures !loading && !isRefreshing
      ensures searchText == old(searchText) && locationLoading == old(locationLoading)
    {
      loading := true;
      requested := PageRequest(pageNum, searchQuery);
      x := Search(requested, token, call);
      if x.outcome.Ok? {
        ShowPage(pageNum, x.outcome.value.pages, x.outcome.value.services.value);
      } else {
        alerts := alerts + [MessageOr(x.outcome.thrown, LoadFailedMessage)];
      }
      loading := false;
      isRefreshing := false;
    }

    /** The success path of `fetchServices`: store the page and warn when it is empty. */
    method ShowPage(pageNum: int, pages: int, records: seq<ApiService>)
      modifies this
      ensures services == Paged(old(services), pageNum, TransformAll(records))
      ensures page == pageNum && totalPages == pages
      ensures alerts == if records == [] then old(alerts) + [NoServicesMessage] else old(alerts)
      ensures loading == old(loading) && isRefreshing == old(isRefreshing)
      ensures searchText == old(searchText) && locationLoading == old(locationLoading)
    {
      services := Paged(services, pageNum, TransformAll(records));
      totalPages := pages;
      page := pageNum;
      if records == [] {
        alerts := alerts + [NoServicesMessage];
      }
    }

    /**
     * `handleToggleFavorite(serviceId, isCurrentlyFavorite)`: `outcome` is how the favourite call
     * settles. Only a successful call touches the list.
     */
    method HandleToggleFavorite(serviceId: string, isCurrentlyFavorite: bool, outcome: Outcome<()>)
      returns (called: FavoriteCall)
      modifies this
      ensures called == if isCurrentlyFavorite then RemoveFavorite(serviceId) else AddFavorite(serviceId)
      ensures outcome.Ok? ==> services == SetFavorite(old(services), serviceId, !isCurrentlyFavorite) && alerts == old(alerts)
      ensures outcome.Err? ==> services == old(services) && alerts == old(alerts) + [MessageOr(outcome.thrown, FavoriteFailedMessage)]
      ensures page == old(page) && totalPages == old(totalPages) && loading == old(loading)
      ensures isRefreshing == old(isRefreshing) && locationLoading == old(locationLoading) && searchText == old(searchText)
    {
      called := if isCurrentlyFavorite then RemoveFavorite(serviceId) else AddFavorite(serviceId);
      match outcome
      case Ok(_) =>
        services := SetFavorite(services, serviceId, !isCurrentlyFavorite);
      case Err(t) =>
        alerts := alerts + [MessageOr(t, FavoriteFailedMessage)];
    }

    /**
     * `handleNearbyPress`: `coords` is what getUserLocation resolves with, `nearby` how the nearby
     * search settles. The search is made only when there are coordinates.
     */
    method HandleNearbyPress(coords: Option<Coords>, nearby: Outcome<seq<ApiService>>) returns (searched: bool)
      modifies this
      ensures searched <==> coords.Some?
      ensures searched && nearby.Ok? ==> services == TransformAll(nearby.value) && alerts == old(alerts)
      ensures !searched ==> services == old(services) && alerts == old(alerts)
      ensures searched && nearby.Err? ==> services == old(services) && alerts == old(alerts) + [MessageOr(nearby.thrown, NearbyFailedMessage)]
      ensures !locationLoading
      ensures page == old(page) && totalPages == old(totalPages) && loading == old(loading)
      ensures isRefreshing == old(isRefreshing) && searchText == old(searchText)
    {
      locationLoading := true;
      searched := coords.Some?;
      if searched {
        match nearby
        case Ok(records) =>
          services := TransformAll(records);
        case Err(t) =>
          alerts := alerts + [MessageOr(t, NearbyFailedMessage)];
      }
      locationLoading := false;
    }

    /** The page counter starts at 1 and only ever moves to a page that was fetched after it. */
    predicate Valid()
      reads this
    {
      page >= 1
    }

    /**
     * `handleLoadMore`: fetches the next page with the current search text, only when there is one
     * and nothing is loading. `requested` and `x` are the request and exchange of that fetch.
     */
    method HandleLoadMore(token: Option<string>, call: Outcome<Reply<SearchReply>>)
      returns (requested: Option<SearchParams>, x: Option<Exchange<SearchReply>>)
      requires Valid()
      modifies this
      ensures Valid()
      ensures requested.Some? <==> old(page) < old(totalPages) && !old(loading)
      ensures x.Some? <==> requested.Some?
      ensures requested.None? ==> services == old(services) && page == old(page) && totalPages == old(totalPages)
      ensures requested.None? ==> loading == old(loading) && alerts == old(alerts) && isRefreshing == old(isRefreshing)
      ensures requested.Some? ==> requested.value == PageRequest(old(page) + 1, old(searchText))
      ensures requested.Some? ==> IsSearchExchange(x.value, requested.value, token, call)
      ensures x.Some? && x.value.outcome.Ok? ==> page == old(page) + 1 && totalPages == x.value.outcome.value.pages
      ensures x.Some? && x.value.outcome.Ok? ==>
        services == old(services) + TransformAll(x.value.outcome.value.services.value)
      ensures x.Some? && x.value.outcome.Ok? ==>
        alerts == if x.value.outcome.value.services.value == [] then old(alerts) + [NoServicesMessage] else old(alerts)
      ensures x.Some? && x.value.outcome.Err? ==> services == old(services) && page == old(page) && totalPages == old(totalPages)
      ensures x.Some? && x.value.outcome.Err? ==> alerts == old(alerts) + [MessageOr(x.value.outcome.thrown, LoadFailedMessage)]
      ensures requested.Some? ==> !loading && !isRefreshing
      ensures searchText == old(searchText) && locationLoading == old(locationLoading)
    {
      if page < totalPages && !loading {
        var params, exchange := FetchServices(page + 1, searchText, token, call);
        requested, x := Some(params), Some(exchange);
      } else {
        requested, x := None, None;
      }
    }
  }
}
