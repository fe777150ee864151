/** The home page: the list of flats with the signed-in user's favourites
    marked, server-side filters and sorting, and the favourite toggle. */
module Home {
  import opened Common
  import opened Text

  /** A flat as `GET /flats` returns it; `imageUrl` is `image.url`. */
  datatype FlatDocument = FlatDocument(docId: string, city: string, rentPrice: real, areaSize: real, imageUrl: Option<string>)

  /** A flat as the page lists it. */
  datatype HomeFlat = HomeFlat(id: string, city: string, rentPrice: real, areaSize: real, favorite: bool, image: Option<string>)

  /** The part of `GET /users/me` the page reads: the user's id and
      `favoriteFlats` (`None` when absent). */
  datatype Me = Me(id: string, favoriteFlats: Option<seq<string>>)

  function FavoriteIds(me: Me): seq<string>
  {
    if me.favoriteFlats.Some? then me.favoriteFlats.value else []
  }

  /** A listed flat keeps the document's id, image, city, rent and area,
      and is a favourite exactly when its id is among `favorites`. */
  function Enrich(doc: FlatDocument, favorites: seq<string>): (r: HomeFlat)
    ensures r.id == doc.docId && r.image == doc.imageUrl
    ensures r.city == doc.city && r.rentPrice == doc.rentPrice && r.areaSize == doc.areaSize
    ensures r.favorite <==> doc.docId in favorites
  {
    HomeFlat(doc.docId, doc.city, doc.rentPrice, doc.areaSize, doc.docId in favorites, doc.imageUrl)
  }

  /** The flats in the order received, each marked as a favourite exactly
      when its id is among `favorites`. */
  function EnrichAll(docs: seq<FlatDocument>, favorites: seq<string>): (r: seq<HomeFlat>)
    ensures |r| == |docs|
    ensures forall i :: 0 <= i < |r| ==>
      && r[i].id == docs[i].docId && r[i].image == docs[i].imageUrl
      && r[i].city == docs[i].city && r[i].rentPrice == docs[i].rentPrice && r[i].areaSize == docs[i].areaSize
      && (r[i].favorite <==> docs[i].docId in favorites)
  {
    seq(|docs|, i requires 0 <= i < |docs| => Enrich(docs[i], favorites))
  }

  datatype HomeData = HomeData(flats: seq<HomeFlat>, userId: Option<string>)

  /** `homeLoader`: a visitor without a valid session gets an empty list and
      no user; otherwise all flats, marked against the user's favourites.
      A failed flat request is not caught (`None`). */
  function HomeLoader(token: Option<string>, me: Reply<Me>, flats: Reply<seq<FlatDocument>>): (r: Option<HomeData>)
    ensures !Truthy(token) || me.Fail? ==> r == Some(HomeData([], None))
    ensures Truthy(token) && me.Ok? && flats.Fail? ==> r == None
    ensures Truthy(token) && me.Ok? && flats.Ok? ==>
      && r.Some? && r.value.userId == Some(me.data.id)
      && |r.value.flats| == |flats.data|
      && forall i :: 0 <= i < |r.value.flats| ==>
           r.value.flats[i].id == flats.data[i].docId && (r.value.flats[i].favorite <==> flats.data[i].docId in FavoriteIds(me.data))
  {
    if !Truthy(token) || me.Fail? then Some(HomeData([], None))
    else if flats.Fail? then None
    else Some(HomeData(EnrichAll(flats.data, FavoriteIds(me.data)), Some(me.data.id)))
  }

  const SortOptions := {"cityAsc", "cityDesc", "priceAsc", "priceDesc", "areaAsc", "areaDesc"}

  /** `mapSortToQuery`: each sort option names the server's sort field, a
      descending one with a leading '-'; anything else names none. */
  function MapSortToQuery(option: string): (r: string)
    ensures r == "" <==> option !in SortOptions
    ensures r != "" ==> (r[0] == '-' <==> option in {"cityDesc", "priceDesc", "areaDesc"})
    ensures r != "" ==> (if r[0] == '-' then r[1..] else r) in {"city", "rentPrice", "areaSize"}
    ensures r != "" ==> ((if r[0] == '-' then r[1..] else r) == "city" <==> option in {"cityAsc", "cityDesc"})
    ensures r != "" ==> ((if r[0] == '-' then r[1..] else r) == "rentPrice" <==> option in {"priceAsc", "priceDesc"})
    ensures r != "" ==> ((if r[0] == '-' then r[1..] else r) == "areaSize" <==> option in {"areaAsc", "areaDesc"})
  {
    match option
    case "cityAsc" => "city"
    case "cityDesc" => "-city"
    case "priceAsc" => "rentPrice"
    case "priceDesc" => "-rentPrice"
    case "areaAsc" => "areaSize"
    case "areaDesc" => "-areaSize"
    case _ => ""
  }

  /** The descending option of each pair sorts on the same field as its
      ascending one, reversed. */
  lemma DescendingIsReversedAscending()
    ensures MapSortToQuery("cityDesc") == "-" + MapSortToQuery("cityAsc")
    ensures MapSortToQuery("priceDesc") == "-" + MapSortToQuery("priceAsc")
    ensures MapSortToQuery("areaDesc") == "-" + MapSortToQuery("areaAsc")
  {
  }

  /** The filter fields; a field never set reads as empty. */
  function Get(filters: map<string, string>, name: string): string
  {
    if name in filters then filters[name] else ""
  }

  const EmptyFilters: map<string, string> :=
    map["city" := "", "minPrice" := "", "maxPrice" := "", "minArea" := "", "maxArea" := ""]

  /** `${min || 0}-${max || top}`. */
  function RangeParam(min: string, max: string, top: string): (r: string)
    ensures min != "" ==> |min| < |r| && r[..|min|] == min && r[|min|] == '-'
    ensures min == "" ==> 2 <= |r| && r[..2] == "0-"
    ensures max != "" ==> |max| < |r| && r[|r| - |max|..] == max
    ensures max == "" ==> |top| < |r| && r[|r| - |top|..] == top
  {
    (if min != "" then min else "0") + "-" + (if max != "" then max else top)
  }

  const PriceTop := "10000"
  const AreaTop := "1000"

  /** A range whose bounds hold no '-' splits back into its two bounds,
      an empty one replaced by its default. */
  lemma RangeSplits(min: string, max: string, top: string)
    requires '-' !in min && '-' !in max && '-' !in top
    ensures Split(RangeParam(min, max, top), '-') == [if min != "" then min else "0", if max != "" then max else top]
  {
    var parts := [if min != "" then min else "0", if max != "" then max else top];
    assert Join(parts, '-') == RangeParam(min, max, top) by {
      assert Join(parts[1..], '-') == parts[1];
    }
    SplitJoin(parts, '-');
  }

  /** The query of `fetchFlatsFromServer`, built one parameter at a time:
      the city when set, a price range when either bound is set, an area
      range likewise, and the sort field when an option is chosen. */
  method BuildParams(filters: map<string, string>, sortOption: string) returns (params: map<string, string>)
    ensures params.Keys <= {"city", "rentPrice", "areaSize", "sort"}
    ensures "city" in params <==> Get(filters, "city") != ""
    ensures "city" in params ==> params["city"] == Get(filters, "city")
    ensures "rentPrice" in params <==> Get(filters, "minPrice") != "" || Get(filters, "maxPrice") != ""
    ensures "rentPrice" in params ==> params["rentPrice"] == RangeParam(Get(filters, "minPrice"), Get(filters, "maxPrice"), PriceTop)
    ensures "areaSize" in params <==> Get(filters, "minArea") != "" || Get(filters, "maxArea") != ""
    ensures "areaSize" in params ==> params["areaSize"] == RangeParam(Get(filters, "minArea"), Get(filters, "maxArea"), AreaTop)
    ensures "sort" in params <==> sortOption != ""
    ensures "sort" in params ==> params["sort"] == MapSortToQuery(sortOption)
  {
    params := map[];
    if Get(filters, "city") != "" {
      params := params["city" := Get(filters, "city")];
    }
    if Get(filters, "minPrice") != "" || Get(filters, "maxPrice") != "" {
      params := params["rentPrice" := RangeParam(Get(filters, "minPrice"), Get(filters, "maxPrice"), PriceTop)];
    }
    if Get(filters, "minArea") != "" || Get(filters, "maxArea") != "" {
      params := params["areaSize" := RangeParam(Get(filters, "minArea"), Get(filters, "maxArea"), AreaTop)];
    }
    if sortOption != "" {
      params := params["sort" := MapSortToQuery(sortOption)];
    }
  }

  /** `parseFloat` results; `None` is `NaN`. */
  type JsNumber = Option<real>

  /** `a > b` on numbers: false when either is `NaN`. */
  function Exceeds(a: JsNumber, b: JsNumber): (r: bool)
    ensures a.None? || b.None? ==> !r
    ensures r ==> a != b && !(b.value > a.value)
  {
    a.Some? && b.Some? && a.value > b.value
  }

  const PriceRangeMessage := "Min price must be less than max price"
  const AreaRangeMessage := "Min area must be less than max area"

  /** The favourite request for a flat: remove it when marked, add it
      otherwise. */
  datatype FavoriteRequest = AddToFavorites(flatId: string) | RemoveFromFavorites(flatId: string)

  /** The list with every flat of that id given the mark `favorite`. */
  function SetFavorite(flats: seq<HomeFlat>, id: string, favorite: bool): (r: seq<HomeFlat>)
    ensures |r| == |flats|
    ensures forall i :: 0 <= i < |r| ==> r[i] == if flats[i].id == id then flats[i].(favorite := favorite) else flats[i]
  {
    seq(|flats|, i requires 0 <= i < |flats| => if flats[i].id == id then flats[i].(favorite := favorite) else flats[i])
  }

  /** Marking a flat and unmarking it restores the list, provided the mark
      first read was the flat's own. */
  lemma FavoriteBackRestores(flats: seq<HomeFlat>, id: string, favorite: bool)
    requires forall i :: 0 <= i < |flats| && flats[i].id == id ==> flats[i].favorite == favorite
    ensures SetFavorite(SetFavorite(flats, id, !favorite), id, favorite) == flats
  {
    var r := SetFavorite(SetFavorite(flats, id, !favorite), id, favorite);
    assert forall i :: 0 <= i < |flats| ==> r[i] == flats[i];
  }

  /** The page's state. */
  class HomePage {
    const userId: Option<string>
    var flats: seq<HomeFlat>
    var filters: map<string, string>
    var pendingFilters: map<string, string>
    var sortOption: string
    var validationErrors: map<string, string>
    var loading: bool

    constructor (data: HomeData)
      ensures userId == data.userId && flats == data.flats
      ensures filters == EmptyFilters && pendingFilters == EmptyFilters && sortOption == ""
      ensures validationErrors == map[] && loading
    {
      userId := data.userId;
      flats := data.flats;
      filters := EmptyFilters;
      pendingFilters := EmptyFilters;
      sortOption := "";
      validationErrors := map[];
      loading := true;
    }

    /** The Apply button is disabled while a range is inverted. */
    function ApplyDisabled(): (r: bool)
      reads this
      ensures r <==> validationErrors != map[]
    {
      |validationErrors| > 0
    }

    /** The validation effect on the pending filters: a range is inverted
        when both bounds are filled in and the lower one exceeds the upper.
        `parseFloat` stands for JavaScript's `parseFloat`. */
    method ValidatePending(parseFloat: string -> JsNumber)
      modifies this
      ensures validationErrors.Keys <= {"price", "area"}
      ensures "price" in validationErrors <==>
        Get(pendingFilters, "minPrice") != "" && Get(pendingFilters, "maxPrice") != ""
        && Exceeds(parseFloat(Get(pendingFilters, "minPrice")), parseFloat(Get(pendingFilters, "maxPrice")))
      ensures "price" in validationErrors ==> validationErrors["price"] == PriceRangeMessage
      ensures "area" in validationErrors <==>
        Get(pendingFilters, "minArea") != "" && Get(pendingFilters, "maxArea") != ""
        && Exceeds(parseFloat(Get(pendingFilters, "minArea")), parseFloat(Get(pendingFilters, "maxArea")))
      ensures "area" in validationErrors ==> validationErrors["area"] == AreaRangeMessage
      ensures ApplyDisabled() <==> "price" in validationErrors || "area" in validationErrors
      ensures flats == old(flats) && filters == old(filters) && pendingFilters == old(pendingFilters)
      ensures sortOption == old(sortOption) && loading == old(loading)
    {
      var errors: map<string, string> := map[];
      var minPrice := parseFloat(Get(pendingFilters, "minPrice"));
      var maxPrice := parseFloat(Get(pendingFilters, "maxPrice"));
      if Get(pendingFilters, "minPrice") != "" && Get(pendingFilters, "maxPrice") != "" && Exceeds(minPrice, maxPrice) {
        errors := errors["price" := PriceRangeMessage];
      }
      var minArea := parseFloat(Get(pendingFilters, "minArea"));
      var maxArea := parseFloat(Get(pendingFilters, "maxArea"));
      if Get(pendingFilters, "minArea") != "" && Get(pendingFilters, "maxArea") != "" && Exceeds(minArea, maxArea) {
        errors := errors["area" := AreaRangeMessage];
      }
      validationErrors := errors;
      assert |validationErrors| > 0 <==> validationErrors != map[];
      if "price" !in validationErrors && "area" !in validationErrors {
        assert validationErrors.Keys == {};
      }
    }

    /** `handleFavorite`: without a user it sends the visitor to sign in and
        changes nothing; otherwise it asks to add or remove the favourite
        and, once that succeeds, flips the mark of that flat only. */
    method HandleFavorite(flat: HomeFlat, reply: Reply<()>) returns (navigateTo: Option<string>, request: Option<FavoriteRequest>)
      modifies this
      ensures !Truthy(userId) ==> navigateTo == Some("/login") && request == None && flats == old(flats)
      ensures Truthy(userId) ==> navigateTo == None
      ensures Truthy(userId) ==> request == Some(if flat.favorite then RemoveFromFavorites(flat.id) else AddToFavorites(flat.id))
      ensures Truthy(userId) && reply.Ok? ==> flats == SetFavorite(old(flats), flat.id, !flat.favorite)
      ensures reply.Fail? ==> flats == old(flats)
      ensures filters == old(filters) && pendingFilters == old(pendingFilters) && sortOption == old(sortOption)
      ensures validationErrors == old(validationErrors) && loading == old(loading)
    {
      if !Truthy(userId) {
        return Some("/login"), None;
      }
      navigateTo := None;
      request := Some(if flat.favorite then RemoveFromFavorites(flat.id) else AddToFavorites(flat.id));
      if reply.Ok? {
        flats := SetFavorite(flats, flat.id, !flat.favorite);
      }
    }

    method HandleFilterChange(name: string, value: string)
      modifies this
      ensures pendingFilters == old(pendingFilters)[name := value]
      ensures flats == old(flats) && filters == old(filters) && sortOption == old(sortOption)
      ensures validationErrors == old(validationErrors) && loading == old(loading)
    {
      pendingFilters := pendingFilters[name := value];
    }

    method HandleSortChange(value: string)
      modifies this
      ensures sortOption == value
      ensures flats == old(flats) && filters == old(filters) && pendingFilters == old(pendingFilters)
      ensures validationErrors == old(validationErrors) && loading == old(loading)
    {
      sortOption := value;
    }

    /** `applyFilters`: the pending filters become the applied ones. */
    method ApplyFilters()
      modifies this
      ensures filters == old(pendingFilters) && pendingFilters == old(pendingFilters)
      ensures flats == old(flats) && sortOption == old(sortOption)
      ensures validationErrors == old(validationErrors) && loading == old(loading)
    {
      filters := pendingFilters;
    }

    /** `resetFilters`: both filter sets emptied and the sort cleared. */
    method ResetFilters()
      modifies this
      ensures pendingFilters == EmptyFilters && filters == EmptyFilters && sortOption == ""
      ensures flats == old(flats)
      ensures validationErrors == old(validationErrors) && loading == old(loading)
    {
      pendingFilters := EmptyFilters;
      filters := EmptyFilters;
      sortOption := "";
    }

    /** `fetchFlatsFromServer`: requests the flats with the applied filters
        and sort; on success the list becomes the received flats, marked
        against the favourites of the signed-in user (none when there is no
        session or that lookup fails). A failed request keeps the list. */
    method FetchFlats(token: Option<string>, reply: Reply<seq<FlatDocument>>, me: Reply<Me>) returns (params: map<string, string>)
      modifies this
      ensures params.Keys <= {"city", "rentPrice", "areaSize", "sort"}
      ensures "city" in params <==> Get(filters, "city") != ""
      ensures "city" in params ==> params["city"] == Get(filters, "city")
      ensures "rentPrice" in params <==> Get(filters, "minPrice") != "" || Get(filters, "maxPrice") != ""
      ensures "rentPrice" in params ==> params["rentPrice"] == RangeParam(Get(filters, "minPrice"), Get(filters, "maxPrice"), PriceTop)
      ensures "areaSize" in params <==> Get(filters, "minArea") != "" || Get(filters, "maxArea") != ""
      ensures "areaSize" in params ==> params["areaSize"] == RangeParam(Get(filters, "minArea"), Get(filters, "maxArea"), AreaTop)
      ensures "sort" in params <==> sortOption != ""
      ensures "sort" in params ==> params["sort"] == MapSortToQuery(sortOption)
      ensures reply.Ok? ==> flats == EnrichAll(reply.data, if Truthy(token) && me.Ok? then FavoriteIds(me.data) else [])
      ensures reply.Fail? ==> flats == old(flats)
      ensures !loading
      ensures filters == old(filters) && pendingFilters == old(pendingFilters) && sortOption == old(sortOption)
      ensures validationErrors == old(validationErrors)
    {
      loading := true;
      params := BuildParams(filters, sortOption);
      if reply.Ok? {
        var favorites: seq<string> := [];
        if Truthy(token) && me.Ok? {
          favorites := FavoriteIds(me.data);
        }
        flats := EnrichAll(reply.data, favorites);
      }
      loading := false;
    }
  }
}
