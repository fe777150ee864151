/** The page of the signed-in user's own flats, where they can be
    deleted. */
module MyFlats {
  import opened Common
  import opened Lists
  import opened FlatCards

  datatype MyFlatsLoad = MyFlatsLoaded(flats: seq<ListedFlat>) | MyFlatsRedirect(redirect: Redirect)

  /** `myFlatsLoader`: without a session, or when the request fails, the
      user is sent to sign in; otherwise the user's flats as cards, as many
      and in the order received. */
  function MyFlatsLoader(token: Option<string>, reply: Reply<seq<FlatDocument>>): (r: MyFlatsLoad)
    ensures !Truthy(token) || reply.Fail? ==> r == MyFlatsRedirect(Redirect("/login"))
    ensures Truthy(token) && reply.Ok? ==>
      && r.MyFlatsLoaded? && |r.flats| == |reply.data|
      && forall i :: 0 <= i < |r.flats| ==> r.flats[i].id == reply.data[i].docId && r.flats[i].image == reply.data[i].imageUrl
  {
    if !Truthy(token) || reply.Fail? then MyFlatsRedirect(Redirect("/login"))
    else MyFlatsLoaded(ListedAll(reply.data))
  }

  /** Deleting a flat removes every card of that id and keeps every other
      card as often as before. */
  lemma {:induction false} DeleteRemovesExactly(flats: seq<ListedFlat>, id: string, f: ListedFlat)
    ensures multiset(Filter(flats, Without(id)))[f] == if f.id == id then 0 else multiset(flats)[f]
  {
    FilterCount(flats, Without(id), f);
  }

  /** Deleting an id no card has leaves the list as it is. */
  lemma {:induction false} DeleteAbsentIsNoChange(flats: seq<ListedFlat>, id: string)
    requires forall i :: 0 <= i < |flats| ==> flats[i].id != id
    ensures Filter(flats, Without(id)) == flats
  {
    FilterAll(flats, Without(id));
  }

  /** The page's list of flats. */
  class MyFlatsPage {
    var myFlats: seq<ListedFlat>

    constructor (loaded: seq<ListedFlat>)
      ensures myFlats == loaded
    {
      myFlats := loaded;
    }

    /** `handleDeleteFlat`: once the server deletes the flat, the cards of
        that id leave the list and the rest keep their order; a failure
        changes nothing. */
    method HandleDeleteFlat(flatId: string, reply: Reply<()>)
      modifies this
      ensures reply.Ok? ==> myFlats == Filter(old(myFlats), Without(flatId))
      ensures reply.Ok? ==> forall f :: f in myFlats <==> f in old(myFlats) && f.id != flatId
      ensures reply.Fail? ==> myFlats == old(myFlats)
    {
      if reply.Ok? {
        myFlats := Filter(myFlats, Without(flatId));
      }
    }
  }
}
