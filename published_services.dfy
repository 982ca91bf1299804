/**
 * app/perfil/publicados.tsx: the "my services" screen. It lists the signed-in user's listings,
 * pages through them, and deletes one on a confirmed long press.
 */
module PublishedServices {
  import opened Wrappers
  import opened JsText
  import opened Http
  import opened SearchService
  import ServiceFeed

  const AnonymousName := "Anónimo"
  const LoadFailedMessage := "Error al cargar servicios"
  const DeleteFailedMessage := "No se pudo eliminar el servicio"
  const PaddingToBottom: real := 20.0

  /** A card of this screen (`myService`). */
  datatype MyService = MyService(id: string, title: string, personName: string, profilePic: Option<string>)

  /** What getUserServices resolves with: the listings and the page count. */
  datatype UserServicesPage = UserServicesPage(services: seq<ApiService>, pages: int)

  /** The events shown to the user: a successful delete or an error alert. */
  datatype Notice = Deleted | ErrorAlert(message: string)

  /** `transformServiceData` of this screen: the owner is read from `user_id` only. */
  function ToCard(s: ApiService): (c: MyService)
    ensures c.id == s.id && c.title == s.serviceName && c.personName != ""
    ensures s.userId.Some? && TruthyOpt(s.userId.value.name) ==> c.personName == s.userId.value.name.value
    ensures !(s.userId.Some? && TruthyOpt(s.userId.value.name)) ==> c.personName == AnonymousName
    ensures c.profilePic == if s.userId.Some? then s.userId.value.profilePhoto else None
  {
    MyService(
      s.id,
      s.serviceName,
      if s.userId.Some? && TruthyOpt(s.userId.value.name) then s.userId.value.name.value else AnonymousName,
      if s.userId.Some? then s.userId.value.profilePhoto else None)
  }

  /** Unlike the home feed, this screen never looks at the embedded `user`. */
  lemma ToCardIgnoresUser(s: ApiService, u: Option<ApiUser>)
    ensures ToCard(s.(user := u)) == ToCard(s)
  {
  }

  /** The screen's card and the home feed's post agree on id and title, and on the name when `user` is absent. */
  lemma ToCardAgreesWithFeed(s: ApiService)
    ensures ToCard(s).id == ServiceFeed.Transform(s).id && ToCard(s).title == ServiceFeed.Transform(s).title
    ensures s.user.None? ==> ToCard(s).personName == ServiceFeed.Transform(s).personName
  {
  }

  function ToCards(records: seq<ApiService>): (r: seq<MyService>)
    ensures |r| == |records|
    ensures forall i :: 0 <= i < |r| ==> r[i] == ToCard(records[i])
  {
    if records == [] then [] else [ToCard(records[0])] + ToCards(records[1..])
  }

  /** `prev.filter(s => s.id !== id)`. */
  function RemoveById(cards: seq<MyService>, id: string): (r: seq<MyService>)
    ensures forall c :: c in r <==> c in cards && c.id != id
    ensures |r| <= |cards|
  {
    if cards == [] then []
    else (if cards[0].id == id then [] else [cards[0]]) + RemoveById(cards[1..], id)
  }

  /** Deleting keeps the remaining cards in order: filtering distributes over concatenation. */
  lemma {:induction false} RemoveByIdAppend(a: seq<MyService>, b: seq<MyService>, id: string)
    ensures RemoveById(a + b, id) == RemoveById(a, id) + RemoveById(b, id)
  {
    if a == [] {
      assert a + b == b;
    } else {
      assert (a + b)[1..] == a[1..] + b;
      RemoveByIdAppend(a[1..], b, id);
    }
  }

  /** Deleting an id that is not listed leaves the list as it was. */
  lemma {:induction false} RemoveByIdAbsent(cards: seq<MyService>, id: string)
    requires forall i :: 0 <= i < |cards| ==> cards[i].id != id
    ensures RemoveById(cards, id) == cards
  {
    if cards != [] {
      RemoveByIdAbsent(cards[1..], id);
    }
  }

  /** The backend call takes no page: asking for page 2 appends the first reply's cards once more. */
  lemma LoadMoreRepeatsReply(reply: UserServicesPage)
    ensures ServiceFeed.Paged(ServiceFeed.Paged([], 1, ToCards(reply.services)), 2, ToCards(reply.services))
         == ToCards(reply.services) + ToCards(reply.services)
  {
  }

  /** `isCloseToBottom`: the content left below the viewport is at most 20 points. */
  function IsCloseToBottom(layoutHeight: real, offsetY: real, contentHeight: real): (r: bool)
    ensures r <==> contentHeight - (layoutHeight + offsetY) <= PaddingToBottom
  {
    layoutHeight + offsetY >= contentHeight - PaddingToBottom
  }

  /** Scrolling further down never leaves the bottom zone. */
  lemma CloseToBottomMonotone(layoutHeight: real, offsetY: real, further: real, contentHeight: real)
    requires offsetY <= further && IsCloseToBottom(layoutHeight, offsetY, contentHeight)
    ensures IsCloseToBottom(layoutHeight, further, contentHeight)
  {
  }

  class MyServicesScreen {
    var searchText: string
    var isRefreshing: bool
    var services: seq<MyService>
    var page: int
    var totalPages: int
    var loading: bool
    var notices: seq<Notice>

    constructor ()
      ensures searchText == "" && !isRefreshing && services == [] && page == 1 && totalPages == 1
      ensures loading && notices == [] && Valid()
    {
      searchText, isRefreshing, services := "", false, [];
      page, totalPages, loading := 1, 1, true;
      notices := [];
    }

    /**
     * `fetchServices(pageNum)`: `reply` is how getUserServices settles; the call itself does not
     * depend on `pageNum`.
     */
    method FetchServices(pageNum: int, reply: Outcome<UserServicesPage>)
      modifies this
      ensures reply.Ok? ==> services == ServiceFeed.Paged(old(services), pageNum, ToCards(reply.value.services))
      ensures reply.Ok? ==> page == pageNum && totalPages == reply.value.pages && notices == old(notices)
      ensures reply.Err? ==> services == old(services) && page == old(page) && totalPages == old(totalPages)
      ensures reply.Err? ==> notices == old(notices) + [ErrorAlert(MessageOr(reply.thrown, LoadFailedMessage))]
      ensures !loading && !isRefreshing && searchText == old(searchText)
    {
      loading := true;
      match reply {
        case Ok(result) =>
          services := ServiceFeed.Paged(services, pageNum, ToCards(result.services));
          totalPages := result.pages;
          page := pageNum;
        case Err(t) =>
          notices := notices + [ErrorAlert(MessageOr(t, LoadFailedMessage))];
      }
      loading := false;
      isRefreshing := false;
    }

    /** The page counter starts at 1 and only ever moves to a page that was fetched after it. */
    predicate Valid()
      reads this
    {
      page >= 1
    }

    /** `handleRefresh`: reload from page 1, replacing the list. */
    method HandleRefresh(reply: Outcome<UserServicesPage>)
      requires Valid()
      modifies this
      ensures Valid()
      ensures reply.Ok? ==> services == ToCards(reply.value.services) && page == 1
      ensures reply.Ok? ==> totalPages == reply.value.pages && notices == old(notices)
      ensures reply.Err? ==> services == old(services) && page == old(page) && totalPages == old(totalPages)
      ensures reply.Err? ==> notices == old(notices) + [ErrorAlert(MessageOr(reply.thrown, LoadFailedMessage))]
      ensures !loading && !isRefreshing && searchText == old(searchText)
    {
      isRefreshing := true;
      FetchServices(1, reply);
    }

    /** `handleLoadMore`: only when there is a further page and nothing is loading. */
    method HandleLoadMore(reply: Outcome<UserServicesPage>) returns (fetched: bool)
      requires Valid()
      modifies this
      ensures Valid()
      ensures fetched <==> old(page) < old(totalPages) && !old(loading)
      ensures !fetched ==> services == old(services) && page == old(page) && totalPages == old(totalPages)
      ensures !fetched ==> loading == old(loading) && isRefreshing == old(isRefreshing) && notices == old(notices)
      ensures fetched && reply.Ok? ==> page == old(page) + 1 && services == old(services) + ToCards(reply.value.services)
      ensures fetched && reply.Ok? ==> totalPages == reply.value.pages && notices == old(notices)
      ensures fetched && reply.Err? ==> services == old(services) && page == old(page) && totalPages == old(totalPages)
      ensures fetched && reply.Err? ==> notices == old(notices) + [ErrorAlert(MessageOr(reply.thrown, LoadFailedMessage))]
      ensures fetched ==> !loading && !isRefreshing
      ensures searchText == old(searchText)
    {
      fetched := page < totalPages && !loading;
      if fetched {
        FetchServices(page + 1, reply);
      }
    }

    /** The confirmed long-press delete: `outcome` is how deleteService settles. */
    method ConfirmDelete(id: string, outcome: Outcome<bool>)
      modifies this
      ensures outcome == Ok(true) ==> services == RemoveById(old(services), id) && notices == old(notices) + [Deleted]
      ensures outcome == Ok(false) ==> services == old(services) && notices == old(notices)
      ensures outcome.Err? ==> services == old(services) && notices == old(notices) + [ErrorAlert(MessageOr(outcome.thrown, DeleteFailedMessage))]
      ensures page == old(page) && totalPages == old(totalPages) && loading == old(loading) && isRefreshing == old(isRefreshing)
    {
      match outcome
      case Ok(success) =>
        if success {
          services := RemoveById(services, id);
          notices := notices + [Deleted];
        }
      case Err(t) =>
        notices := notices + [ErrorAlert(MessageOr(t, DeleteFailedMessage))];
    }
  }
}
