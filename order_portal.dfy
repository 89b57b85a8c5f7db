/** The customer's order pages (`/fotoapp/orders/...`): which orders a user may open, the
    download links of an order's photos, and the download of one bought photo. */
module OrderPortal {
  import opened Wrappers
  import Text
  import Orm
  import Assets
  import SaleOrders

  /** `_get_allowed_order`: the order, when it exists and its commercial partner is the user's
      (`user` is the user's commercial partner). */
  function AllowedOrder(orders: map<nat, SaleOrders.Order>, id: nat, user: nat): (r: Option<SaleOrders.Order>)
    ensures r.Some? <==> id in orders && orders[id].commercialPartner == user
    ensures r.Some? ==> r.value == orders[id]
  {
    if id in orders && orders[id].commercialPartner == user then Some(orders[id]) else None
  }

  /** A confirmed order (`state in ('sale', 'done')`). */
  predicate Confirmed(o: SaleOrders.Order) {
    o.state == SaleOrders.SaleOrder || o.state == SaleOrders.Locked
  }

  /** The order is the user's, is confirmed and has a line for the photo. */
  predicate BoughtIn(o: SaleOrders.Order, asset: nat, user: nat) {
    && o.commercialPartner == user && Confirmed(o)
    && exists i :: 0 <= i < |o.lines| && o.lines[i].asset == Some(asset)
  }

  /** `_user_has_asset`: some order of the photo's lines is the user's and confirmed. */
  predicate UserHasAsset(orders: map<nat, SaleOrders.Order>, asset: nat, user: nat) {
    exists k :: k in orders && BoughtIn(orders[k], asset, user)
  }

  /** A quotation, or a confirmed order of someone else, gives no right to the photo. */
  lemma OwnershipNeedsConfirmedOrder(orders: map<nat, SaleOrders.Order>, asset: nat, user: nat)
    requires forall k :: k in orders && orders[k].commercialPartner == user ==> !Confirmed(orders[k])
    ensures !UserHasAsset(orders, asset, user)
  {
  }

  // ---------------------------------------------------------------------------------------
  // The download links of an order

  datatype DownloadLink = DownloadLink(asset: nat, url: string)

  function DownloadUrl(token: string): string {
    "/fotoapp/download/" + token
  }

  /** The links of `_prepare_photo_downloads`: one per photo whose token (`issued[i]`, for the
      photo `ids[i]`) is set, in the order of the photos. */
  function Links(ids: seq<nat>, issued: seq<string>): (r: seq<DownloadLink>)
    requires |issued| == |ids|
    ensures |r| <= |ids|
    ensures forall l :: l in r <==>
      exists i :: 0 <= i < |ids| && issued[i] != [] && l == DownloadLink(ids[i], DownloadUrl(issued[i]))
  {
    if ids == [] then []
    else
      var n := |ids| - 1;
      var rest := Links(ids[..n], issued[..n]);
      assert forall i :: 0 <= i < n ==> ids[..n][i] == ids[i] && issued[..n][i] == issued[i];
      if issued[n] != [] then rest + [DownloadLink(ids[n], DownloadUrl(issued[n]))] else rest
  }

  /** No two links are for the same photo. */
  predicate OnePerPhoto(links: seq<DownloadLink>) {
    forall i, j :: 0 <= i < j < |links| ==> links[i].asset != links[j].asset
  }

  /** Every photo has at most one link when the photos are distinct. */
  lemma {:induction false} LinksDistinct(ids: seq<nat>, issued: seq<string>)
    requires |issued| == |ids|
    requires forall i, j :: 0 <= i < j < |ids| ==> ids[i] != ids[j]
    ensures OnePerPhoto(Links(ids, issued))
  {
    if ids != [] {
      var n := |ids| - 1;
      LinksDistinct(ids[..n], issued[..n]);
      var rest := Links(ids[..n], issued[..n]);
      forall l | l in rest
        ensures l.asset != ids[n]
      {
        var i :| 0 <= i < n && issued[..n][i] != [] && l == DownloadLink(ids[..n][i], DownloadUrl(issued[..n][i]));
        assert ids[..n][i] == ids[i];
      }
      if issued[n] != [] {
        var r := rest + [DownloadLink(ids[n], DownloadUrl(issued[n]))];
        assert Links(ids, issued) == r;
        forall i, j | 0 <= i < j < |r|
          ensures r[i].asset != r[j].asset
        {
          assert r[i] == rest[i] && rest[i] in rest;
          if j < |rest| {
            assert r[j] == rest[j];
          } else {
            assert r[j].asset == ids[n];
            assert rest[i].asset != ids[n];
          }
        }
      }
    }
  }

  /** The download token each photo of `ids` has. */
  function IssuedTokens(rows: map<nat, Assets.Asset>, ids: seq<nat>): (r: seq<string>)
    requires forall i :: 0 <= i < |ids| ==> ids[i] in rows
    ensures |r| == |ids| && forall i :: 0 <= i < |ids| ==> r[i] == rows[ids[i]].downloadToken
  {
    seq(|ids|, i requires 0 <= i < |ids| => rows[ids[i]].downloadToken)
  }

  /** The photos of the order's lines are photos of the table. */
  lemma PhotoAssetsKnown(o: SaleOrders.Order, rows: map<nat, Assets.Asset>)
    requires forall i :: 0 <= i < |o.lines| && o.lines[i].asset.Some? ==> o.lines[i].asset.value in rows
    ensures var ids := SaleOrders.PhotoAssets(o.lines); Orm.IsRecordset(ids, rows)
  {
    var ids := SaleOrders.PhotoAssets(o.lines);
    forall i | 0 <= i < |ids|
      ensures ids[i] in rows
    {
      assert ids[i] in ids;
    }
  }

  /** `_prepare_photo_downloads`: every photo of the order gets a download token if it had none
      (`tokens[i]` is the one drawn for the i-th photo), then one link per photo with a token. */
  method PrepareDownloads(assets: Orm.Table<Assets.Asset>, o: SaleOrders.Order, tokens: seq<string>, now: int)
    returns (links: seq<DownloadLink>)
    requires forall i :: 0 <= i < |o.lines| && o.lines[i].asset.Some? ==> o.lines[i].asset.value in assets.rows
    requires |tokens| == |SaleOrders.PhotoAssets(o.lines)|
    modifies assets
    ensures assets.nextId == old(assets.nextId) && assets.rows.Keys == old(assets.rows).Keys
    ensures var ids := SaleOrders.PhotoAssets(o.lines);
      && Orm.IsRecordset(ids, assets.rows)
      && (forall i :: 0 <= i < |ids| ==>
            assets.rows[ids[i]] == Assets.WithDownloadToken(old(assets.rows)[ids[i]], tokens[i], now))
      && (forall k :: k in assets.rows && k !in ids ==> assets.rows[k] == old(assets.rows)[k])
      && links == Links(ids, IssuedTokens(assets.rows, ids))
  {
    var ids := SaleOrders.PhotoAssets(o.lines);
    PhotoAssetsKnown(o, assets.rows);
    var issued := Assets.EnsureDownloadTokens(assets, ids, tokens, now);
    assert issued == IssuedTokens(assets.rows, ids);
    links := Links(ids, issued);
  }

  /** With non-empty fresh tokens every photo of the order gets exactly one link. */
  lemma EveryPhotoLinked(ids: seq<nat>, issued: seq<string>, k: nat)
    requires |issued| == |ids| && forall i :: 0 <= i < |ids| ==> issued[i] != []
    requires k in ids
    ensures exists l :: l in Links(ids, issued) && l.asset == k
  {
    var i :| 0 <= i < |ids| && ids[i] == k;
    assert DownloadLink(ids[i], DownloadUrl(issued[i])) in Links(ids, issued);
  }

  // ---------------------------------------------------------------------------------------
  // Downloading one photo

  datatype PhotoDownload = PhotoNotFound | PhotoFile(asset: nat, filename: string)

  /** The attachment name: the photo's name, or `foto_<id>.jpg`. */
  function DownloadName(a: Assets.Asset, id: nat): (r: string)
    ensures r != []
    ensures a.name != [] ==> r == a.name
  {
    if a.name != [] then a.name else "foto_" + Text.NatToString(id) + ".jpg"
  }

  /** The photo after a download: one more download, stamped now. */
  function Downloaded(a: Assets.Asset, now: int): (r: Assets.Asset)
    ensures r.downloadCount == a.downloadCount + 1 && r.lastDownloadDate == Some(now)
    ensures r.(downloadCount := a.downloadCount, lastDownloadDate := a.lastDownloadDate, writeDate := a.writeDate) == a
  {
    a.(downloadCount := a.downloadCount + 1, lastDownloadDate := Some(now), writeDate := Some(now))
  }

  /** The photo a download token finds (`search([('download_token', '=', token)], limit=1)`
      over the photos in their default order, `ranked`). */
  function FindByToken(rows: map<nat, Assets.Asset>, ranked: seq<nat>, token: string): (r: Option<nat>)
    requires forall i :: 0 <= i < |ranked| ==> ranked[i] in rows
    ensures r.None? <==> forall i :: 0 <= i < |ranked| ==> rows[ranked[i]].downloadToken != token
    ensures r.Some? ==> exists i :: 0 <= i < |ranked| && ranked[i] == r.value && rows[r.value].downloadToken == token
                          && forall j :: 0 <= j < i ==> rows[ranked[j]].downloadToken != token
  {
    Orm.First(ranked, rows, (a: Assets.Asset) => a.downloadToken == token)
  }

  /** `fotoapp_download_photo`: the photo of the token, when it has an image and the user bought
      it; the download is then counted. The route only matches a non-empty token. */
  method DownloadPhoto(assets: Orm.Table<Assets.Asset>, ranked: seq<nat>, orders: map<nat, SaleOrders.Order>,
                       token: string, user: nat, now: int)
    returns (r: PhotoDownload)
    requires token != [] && forall i :: 0 <= i < |ranked| ==> ranked[i] in assets.rows
    modifies assets
    ensures var found := FindByToken(old(assets.rows), ranked, token);
      r.PhotoNotFound? <==>
        (found.None? || !old(assets.rows)[found.value].hasImage || !UserHasAsset(orders, found.value, user))
    ensures r.PhotoNotFound? ==> unchanged(assets)
    ensures r.PhotoFile? ==>
      && FindByToken(old(assets.rows), ranked, token) == Some(r.asset)
      && old(assets.rows)[r.asset].downloadToken == token
      && r.filename == DownloadName(old(assets.rows)[r.asset], r.asset)
      && assets.nextId == old(assets.nextId)
      && assets.rows == old(assets.rows)[r.asset := Downloaded(old(assets.rows)[r.asset], now)]
  {
    var found := FindByToken(assets.rows, ranked, token);
    if found.None? || !assets.rows[found.value].hasImage {
      return PhotoNotFound;
    }
    var id := found.value;
    if !UserHasAsset(orders, id, user) {
      return PhotoNotFound;
    }
    var a := assets.rows[id];
    assets.rows := assets.rows[id := Downloaded(a, now)];
    r := PhotoFile(id, DownloadName(a, id));
  }
}
