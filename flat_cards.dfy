/** The flat cards of the favourites and own-flats pages: a flat as the
    server returns it and as the card shows it. */
module FlatCards {
  import opened Common

  /** A flat as `GET /flats` or `GET /flats/myFlats` returns it;
      `imageUrl` is `image.url`. */
  datatype FlatDocument = FlatDocument(docId: string, adTitle: string, city: string, createdAt: string, imageUrl: Option<string>)

  /** A flat as a card shows it. */
  datatype ListedFlat = ListedFlat(id: string, adTitle: string, city: string, createdAt: string, image: Option<string>)

  /** `{ ...flat, id: flat._id, image: flat.image?.url }`. */
  function Listed(doc: FlatDocument): ListedFlat
  {
    ListedFlat(doc.docId, doc.adTitle, doc.city, doc.createdAt, doc.imageUrl)
  }

  /** The documents as cards, one for one and in order. */
  function ListedAll(docs: seq<FlatDocument>): (r: seq<ListedFlat>)
    ensures |r| == |docs|
    ensures forall i :: 0 <= i < |r| ==> r[i] == Listed(docs[i])
  {
    seq(|docs|, i requires 0 <= i < |docs| => Listed(docs[i]))
  }

  /** The cards other than those of `id`. */
  function Without(id: string): ListedFlat -> bool
  {
    (f: ListedFlat) => f.id != id
  }
}
