/** The public gallery: which albums and photos a visitor sees, and the "add this photo to the
    cart" endpoint with its quantity parsing, availability check and one-photographer rule. */
module Gallery {
  import opened Wrappers
  import Text
  import Arith
  import Orm
  import Assets
  import Albums
  import Events
  import SaleOrders

  // ---------------------------------------------------------------------------------------
  // Public pages

  /** `website_slug = slug` and published: the event page's lookup (`limit=1` over `ranked`). */
  function EventPage(events: map<nat, Events.Event>, ranked: seq<nat>, slug: string): (r: Option<nat>)
    requires forall i :: 0 <= i < |ranked| ==> ranked[i] in events
    ensures r.Some? ==> r.value in ranked && events[r.value].websiteSlug == slug && events[r.value].websitePublished
    ensures r.None? ==> forall k :: k in ranked ==> events[k].websiteSlug != slug || !events[k].websitePublished
  {
    Orm.First(ranked, events, (e: Events.Event) => e.websiteSlug == slug && e.websitePublished)
  }

  /** An album a visitor may open: of this event, published, and not private. */
  predicate PublicAlbum(a: Albums.Album, event: nat) {
    a.event == event && a.state == Albums.Published && !a.isPrivate
  }

  /** `_get_public_albums(event)`, `ranked` being the albums in `create_date desc` order. */
  function PublicAlbums(albums: map<nat, Albums.Album>, ranked: seq<nat>, event: nat): (r: seq<nat>)
    requires forall i :: 0 <= i < |ranked| ==> ranked[i] in albums
    ensures forall k :: k in r <==>
      k in ranked && albums[k].event == event && albums[k].state == Albums.Published && !albums[k].isPrivate
  {
    Orm.Filter(ranked, albums, (a: Albums.Album) => PublicAlbum(a, event))
  }

  /** The album lookup of `gallery_album`: the id, restricted to the event, published and not
      private; `None` is the not-found page. */
  function AlbumPage(albums: map<nat, Albums.Album>, event: nat, albumId: nat): Option<nat> {
    if albumId in albums && PublicAlbum(albums[albumId], event) then Some(albumId) else None
  }

  /** An album opens by id exactly when the event page lists it. */
  lemma AlbumPageIffListed(albums: map<nat, Albums.Album>, ranked: seq<nat>, event: nat, albumId: nat)
    requires forall i :: 0 <= i < |ranked| ==> ranked[i] in albums
    requires forall k :: k in albums ==> k in ranked
    ensures AlbumPage(albums, event, albumId).Some? <==> albumId in PublicAlbums(albums, ranked, event)
    ensures AlbumPage(albums, event, albumId).Some? ==> AlbumPage(albums, event, albumId).value == albumId
  {
  }

  /** A photo the shop shows and sells: web-published and not archived. */
  predicate Shown(a: Assets.Asset) {
    a.websitePublished && a.state != Assets.Archived
  }

  /** The photos of `gallery_album`: those of the album that are shown, in the order of
      `ranked` (`id desc`). */
  function AlbumPhotos(assets: map<nat, Assets.Asset>, ranked: seq<nat>, album: Albums.Album): (r: seq<nat>)
    requires forall i :: 0 <= i < |ranked| ==> ranked[i] in assets
    ensures |r| <= |ranked|
    ensures forall k :: k in r <==> k in ranked && k in album.assets && Shown(assets[k])
  {
    if ranked == [] then []
    else
      var k := ranked[0];
      var rest := AlbumPhotos(assets, ranked[1..], album);
      assert forall j :: j in ranked <==> j == k || j in ranked[1..];
      if k in album.assets && Shown(assets[k]) then [k] + rest else rest
  }

  // ---------------------------------------------------------------------------------------
  // Adding a photo to the cart

  /** `max(1, int(post.get('quantity', 1)))`, falling back to 1 when `int` raises. */
  function Quantity(raw: Option<string>): (r: int)
    ensures r >= 1
    ensures raw.None? ==> r == 1
  {
    if raw.None? then 1
    else match Text.ParseInt(raw.value)
      case Some(n) => Arith.Max(1, n)
      case None => 1
  }

  /** A posted number comes back as itself when positive, and as 1 otherwise. */
  lemma QuantityOfPrinted(n: int)
    ensures Quantity(Some(Text.IntToString(n))) == if n >= 1 then n else 1
  {
    Text.ParseIntOfIntToString(n);
  }

  /** Text that is not a number counts as one photo. */
  lemma QuantityOfGarbage(raw: string)
    requires Text.ParseInt(raw).None?
    ensures Quantity(Some(raw)) == 1
  {
  }

  /** The first line of `lines` from `from` on that sells `product`. */
  function FindLine(lines: seq<SaleOrders.OrderLine>, product: nat, from: nat): (r: Option<nat>)
    requires from <= |lines|
    ensures r.Some? ==> from <= r.value < |lines| && lines[r.value].product == product
    ensures r.Some? ==> forall j :: from <= j < r.value ==> lines[j].product != product
    ensures r.None? ==> forall j :: from <= j < |lines| ==> lines[j].product != product
    decreases |lines| - from
  {
    if from == |lines| then None
    else if lines[from].product == product then Some(from)
    else FindLine(lines, product, from + 1)
  }

  /** `_cart_update(product_id, add_qty)` followed by writing the photo on the line: the line
      already selling the product gets `qty` more, otherwise a new line is added at `price`. A
      line's photographer is its photo's (`foto_photographer_id` is related to the photo). */
  function CartUpdate(o: SaleOrders.Order, product: nat, qty: int, price: real, photoId: nat, photographer: nat)
    : (r: SaleOrders.Order)
    ensures |r.lines| == |o.lines| || (|r.lines| == |o.lines| + 1 && r.lines[..|o.lines|] == o.lines)
    ensures exists k :: 0 <= k < |r.lines| && r.lines[k].product == product && r.lines[k].asset == Some(photoId)
                        && r.lines[k].photographer == Some(photographer)
    ensures forall k :: 0 <= k < |o.lines| && o.lines[k].product != product ==> r.lines[k] == o.lines[k]
    ensures r.(lines := o.lines) == o
  {
    match FindLine(o.lines, product, 0)
    case Some(k) =>
      var l := o.lines[k];
      var q := l.quantity + qty as real;
      var r := o.(lines := o.lines[k := l.(quantity := q, priceTotal := q * l.priceUnit, asset := Some(photoId),
                                           photographer := Some(photographer))]);
      assert r.lines[k].product == product;
      r
    case None =>
      var r := o.(lines := o.lines + [SaleOrders.OrderLine(product, None, Some(photographer), Some(photoId), None,
                                                            qty as real, price, qty as real * price)]);
      assert r.lines[|o.lines|].product == product;
      r
  }

  /** The refusal of lines 176-183: the cart's first photographer is another one. */
  predicate OtherPhotographer(o: SaleOrders.Order, photographer: nat) {
    var ps := SaleOrders.Photographers(o.lines);
    ps != [] && ps[0] != photographer
  }

  /** The cart after a successful add: the line updated, then the photographer's metadata and
      the commission recomputed (`_apply_photographer_metadata`, `_recompute_fotoapp_commission`). */
  function WithPhoto(o: SaleOrders.Order, product: nat, qty: int, price: real, photoId: nat, photo: Assets.Asset,
                     dir: SaleOrders.Directory): (r: SaleOrders.Order)
    ensures r.photographer == Some(photo.photographer)
    ensures r.platformAmount + r.photographerAmount == SaleOrders.AmountTotal(r)
    ensures exists k :: 0 <= k < |r.lines| && r.lines[k].asset == Some(photoId)
  {
    SaleOrders.ForPhotographer(CartUpdate(o, product, qty, price, photoId, photo.photographer), photo.photographer, dir)
  }

  /** A cart holding photos of at most one photographer keeps that property through every add
      the rule lets through: afterwards the photo's photographer is its only one. */
  lemma AddKeepsOnePhotographer(o: SaleOrders.Order, product: nat, qty: int, price: real, photoId: nat,
                                photo: Assets.Asset, dir: SaleOrders.Directory)
    requires |SaleOrders.Photographers(o.lines)| <= 1
    requires !OtherPhotographer(o, photo.photographer)
    ensures SaleOrders.Photographers(WithPhoto(o, product, qty, price, photoId, photo, dir).lines) == [photo.photographer]
  {
    var p := photo.photographer;
    var ps := SaleOrders.Photographers(o.lines);
    forall i | 0 <= i < |o.lines| && o.lines[i].photographer.Some?
      ensures o.lines[i].photographer == Some(p)
    {
      assert o.lines[i].photographer.value in ps;
    }
    var c := CartUpdate(o, product, qty, price, photoId, p);
    assert forall i :: 0 <= i < |c.lines| ==> c.lines[i].photographer.None? || c.lines[i].photographer == Some(p);
    SaleOrders.OnlyPhotographer(c.lines, p);
  }

  datatype AddOutcome =
    | Unavailable           // "La foto seleccionada no está disponible."
    | NotPrepared           // the photo's product could not be prepared
    | AnotherPhotographer   // "El carrito ya contiene fotos de otro fotógrafo. ..."
    | Added(quantity: int)  // "Agregaste ... al carrito."

  /** What the add does to the cart `before`: refuse a photo of another photographer, or add it. */
  function AddTo(before: SaleOrders.Order, product: nat, qty: int, price: real, photoId: nat, photo: Assets.Asset,
                 dir: SaleOrders.Directory): (r: (AddOutcome, SaleOrders.Order))
    ensures r.0 == AnotherPhotographer <==> OtherPhotographer(before, photo.photographer)
    ensures r.0 == AnotherPhotographer ==> r.1 == before
    ensures r.0 != AnotherPhotographer ==> r.0 == Added(qty) && r.1 == WithPhoto(before, product, qty, price, photoId, photo, dir)
  {
    if OtherPhotographer(before, photo.photographer) then (AnotherPhotographer, before)
    else (Added(qty), WithPhoto(before, product, qty, price, photoId, photo, dir))
  }

  /** The part of the endpoint after the checks: fetch or create the session's cart
      (`sale_get_order(force_create=True)`), then refuse or add the photo. */
  method AddToSessionCart(orders: Orm.Table<SaleOrders.Order>, cart: Option<nat>, blank: SaleOrders.Order,
                          product: nat, qty: int, price: real, photoId: nat, photo: Assets.Asset,
                          dir: SaleOrders.Directory)
    returns (outcome: AddOutcome, id: nat)
    requires orders.Valid()
    requires cart.Some? ==> cart.value in orders.rows
    modifies orders
    ensures orders.Valid()
    ensures id == if cart.Some? then cart.value else old(orders.nextId)
    ensures var before := if cart.Some? then old(orders.rows)[id] else blank;
      var after := AddTo(before, product, qty, price, photoId, photo, dir);
      outcome == after.0 && orders.rows == old(orders.rows)[id := after.1]
  {
    if cart.Some? {
      id := cart.value;
    } else {
      id := orders.Create(blank);
    }
    var after := AddTo(orders.rows[id], product, qty, price, photoId, photo, dir);
    outcome := after.0;
    orders.rows := orders.rows[id := after.1];
  }

  /** `gallery_add_photo_to_cart`. `product` is what `ensure_sale_product` yields for the
      photo, `cart` the session's order (`sale_get_order`), `blank` the order it creates when
      there is none, and `price` the unit price a new line gets. */
  method AddPhotoToCart(orders: Orm.Table<SaleOrders.Order>, assets: map<nat, Assets.Asset>, photoId: nat,
                        rawQuantity: Option<string>, product: Option<nat>, cart: Option<nat>,
                        blank: SaleOrders.Order, price: real, dir: SaleOrders.Directory)
    returns (outcome: AddOutcome, orderId: Option<nat>)
    requires orders.Valid()
    requires cart.Some? ==> cart.value in orders.rows
    modifies orders
    ensures orders.Valid()
    ensures !(photoId in assets && Shown(assets[photoId])) ==>
      outcome == Unavailable && orderId == cart && unchanged(orders)
    ensures photoId in assets && Shown(assets[photoId]) && product.None? ==>
      outcome == NotPrepared && orderId == cart && unchanged(orders)
    ensures photoId in assets && Shown(assets[photoId]) && product.Some? ==>
      var id := if cart.Some? then cart.value else old(orders.nextId);
      var before := if cart.Some? then old(orders.rows)[id] else blank;
      var photo := assets[photoId];
      var after := AddTo(before, product.value, Quantity(rawQuantity), price, photoId, photo, dir);
      && orderId == Some(id) && outcome == after.0 && orders.rows == old(orders.rows)[id := after.1]
  {
    var quantity := Quantity(rawQuantity);
    if !(photoId in assets && Shown(assets[photoId])) {
      return Unavailable, cart;
    }
    var photo := assets[photoId];
    if product.None? {
      return NotPrepared, cart;
    }
    var id;
    outcome, id := AddToSessionCart(orders, cart, blank, product.value, quantity, price, photoId, photo, dir);
    orderId := Some(id);
  }
}
