/** The favourites page: the signed-in user's favourite flats, newest
    first. */
module Favorites {
  import opened Common
  import opened Lists
  import opened FlatCards

  /** The part of `GET /users/me` the loader reads: `favoriteFlats`, `None`
      when absent. */
  datatype Me = Me(favoriteFlats: Option<seq<string>>)

  datatype FavoritesLoad = FavoritesLoaded(favorites: seq<ListedFlat>) | FavoritesRedirect(redirect: Redirect)

  /** Whether a flat is among the favourites. */
  function IsFavorite(ids: seq<string>): FlatDocument -> bool
  {
    (d: FlatDocument) => d.docId in ids
  }

  /** The sort key: `new Date(createdAt).getTime()`, from `parse`; a time
      it cannot read counts as 0 here (see the notes on what is left out). */
  function CreatedKey(parse: string -> Option<int>): ListedFlat -> int
  {
    (f: ListedFlat) => match parse(f.createdAt) case Some(t) => t case None => 0
  }

  /** `favoritesLoader`: without a session, or when either request fails,
      the user is sent to sign in. Otherwise the fetched flats whose id is
      a favourite, as cards, newest first. */
  function FavoritesLoader(token: Option<string>, me: Reply<Me>, flats: Reply<seq<FlatDocument>>, parse: string -> Option<int>)
    : (r: FavoritesLoad)
    ensures !Truthy(token) || me.Fail? || flats.Fail? ==> r == FavoritesRedirect(Redirect("/login"))
    ensures Truthy(token) && me.Ok? && flats.Ok? ==>
      && r.FavoritesLoaded?
      && multiset(r.favorites) == multiset(ListedAll(Filter(flats.data, IsFavorite(FavoriteIds(me.data)))))
      && (forall i, j :: 0 <= i < j < |r.favorites| ==>
            CreatedKey(parse)(r.favorites[i]) >= CreatedKey(parse)(r.favorites[j]))
  {
    if !Truthy(token) || me.Fail? || flats.Fail? then FavoritesRedirect(Redirect("/login"))
    else
      var cards := ListedAll(Filter(flats.data, IsFavorite(FavoriteIds(me.data))));
      SortByKeyDescending(cards, CreatedKey(parse));
      FavoritesLoaded(SortBy(cards, Reverse(ByKey(CreatedKey(parse)))))
  }

  function FavoriteIds(me: Me): seq<string>
  {
    if me.favoriteFlats.Some? then me.favoriteFlats.value else []
  }

  /** The loaded favourites are exactly the fetched flats whose id is a
      favourite: every card is one of them, and each of them has its card. */
  lemma FavoritesAreExactlyTheListed(token: Option<string>, me: Me, docs: seq<FlatDocument>, parse: string -> Option<int>)
    requires Truthy(token)
    ensures var r := FavoritesLoader(token, Ok(me), Ok(docs), parse).favorites;
      && (forall f :: f in r ==> f.id in FavoriteIds(me) && exists d :: d in docs && f == Listed(d))
      && (forall d :: d in docs && d.docId in FavoriteIds(me) ==> Listed(d) in r)
  {
    var r := FavoritesLoader(token, Ok(me), Ok(docs), parse).favorites;
    var kept := Filter(docs, IsFavorite(FavoriteIds(me)));
    var cards := ListedAll(kept);
    forall f | f in r
      ensures f.id in FavoriteIds(me) && exists d :: d in docs && f == Listed(d)
    {
      assert f in multiset(cards);
      var k :| 0 <= k < |cards| && cards[k] == f;
      assert kept[k] in kept;
    }
    forall d | d in docs && d.docId in FavoriteIds(me)
      ensures Listed(d) in r
    {
      assert d in kept;
      var k :| 0 <= k < |kept| && kept[k] == d;
      assert cards[k] == Listed(d);
      assert Listed(d) in multiset(r);
    }
  }
}
