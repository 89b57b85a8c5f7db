/** The public ZIP download of a paid order (`/fotoapp/download/<token>`): the order's token is
    checked and the ZIP holds one entry per photo whose image can be read. */
module Downloads {
  import opened Wrappers
  import Text
  import Orm
  import Assets
  import SaleOrders

  /** The order a link's token finds (`search([('download_token', '=', token)], limit=1)` over
      the orders in their default order, `ranked`). */
  function OrderOfToken(orders: map<nat, SaleOrders.Order>, ranked: seq<nat>, token: string): (r: Option<nat>)
    requires forall i :: 0 <= i < |ranked| ==> ranked[i] in orders
    ensures r.None? <==> forall i :: 0 <= i < |ranked| ==> orders[ranked[i]].downloadToken != token
    ensures r.Some? ==> exists i :: 0 <= i < |ranked| && ranked[i] == r.value && orders[r.value].downloadToken == token
                          && forall j :: 0 <= j < i ==> orders[ranked[j]].downloadToken != token
  {
    Orm.First(ranked, orders, (o: SaleOrders.Order) => o.downloadToken == token)
  }

  /** Lower-casing neither adds nor removes a dot. */
  lemma LowerKeepsDots(s: string)
    ensures '.' in Text.Lower(s) <==> '.' in s
  {
    var l := Text.Lower(s);
    if '.' in s {
      var i :| 0 <= i < |s| && s[i] == '.';
      assert l[i] == '.';
    }
    if '.' in l {
      var i :| 0 <= i < |l| && l[i] == '.';
      assert s[i] == '.';
    }
  }

  /** `foto_<id>` has no dot: the id prints as digits. */
  lemma DefaultNameHasNoDot(id: nat)
    ensures '.' !in "foto_" + Text.NatToString(id)
  {
    var digits := Text.NatToString(id);
    var f := "foto_" + digits;
    forall i | 0 <= i < |f|
      ensures f[i] != '.'
    {
      if i >= 5 {
        assert f[i] == digits[i - 5];
      }
    }
  }

  /** The name of a photo's entry: its name, or `foto_<id>`, with `.jpg` added when the name has
      no dot. */
  function EntryName(a: Assets.Asset, id: nat): (r: string)
    ensures '.' in r
    ensures a.name != [] && '.' in a.name ==> r == a.name
    ensures a.name != [] && '.' !in a.name ==> r == a.name + ".jpg"
    ensures a.name == [] ==> r == "foto_" + Text.NatToString(id) + ".jpg"
  {
    var f := if a.name != [] then a.name else "foto_" + Text.NatToString(id);
    LowerKeepsDots(f);
    DefaultNameHasNoDot(id);
    if '.' !in Text.Lower(f) then
      var r := f + ".jpg";
      assert r[|f|] == '.';
      r
    else f
  }

  datatype ZipEntry = ZipEntry(name: string, asset: nat)

  /** A photo goes into the ZIP when it has an image that decodes (`decodes` holds the photos
      whose stored image is valid base64). */
  predicate Packed(assets: map<nat, Assets.Asset>, id: nat, decodes: set<nat>) {
    id in assets && assets[id].hasImage && id in decodes
  }

  /** The entry of a photo of the table. */
  function EntryOf(assets: map<nat, Assets.Asset>, id: nat): ZipEntry
    requires id in assets
  {
    ZipEntry(EntryName(assets[id], id), id)
  }

  /** The entries the loop writes for the photos `ids`, in their order. */
  function ZipEntries(assets: map<nat, Assets.Asset>, ids: seq<nat>, decodes: set<nat>): (r: seq<ZipEntry>)
    ensures |r| <= |ids|
    ensures forall e :: e in r <==>
      exists i :: 0 <= i < |ids| && Packed(assets, ids[i], decodes) && e == EntryOf(assets, ids[i])
  {
    if ids == [] then []
    else
      var n := |ids| - 1;
      var rest := ZipEntries(assets, ids[..n], decodes);
      assert forall i :: 0 <= i < n ==> ids[..n][i] == ids[i];
      if Packed(assets, ids[n], decodes) then rest + [EntryOf(assets, ids[n])]
      else rest
  }

  /** The writing loop of `download_zip`: photos without an image, or whose image does not
      decode, are skipped. */
  method WriteEntries(assets: map<nat, Assets.Asset>, ids: seq<nat>, decodes: set<nat>) returns (entries: seq<ZipEntry>)
    ensures entries == ZipEntries(assets, ids, decodes)
  {
    entries := [];
    var i := 0;
    while i < |ids|
      invariant 0 <= i <= |ids|
      invariant entries == ZipEntries(assets, ids[..i], decodes)
    {
      assert ids[..i + 1][..i] == ids[..i];
      if ids[i] in assets && assets[ids[i]].hasImage && ids[i] in decodes {
        entries := entries + [EntryOf(assets, ids[i])];
      }
      i := i + 1;
    }
    assert ids[..i] == ids;
  }

  datatype ZipOutcome =
    | InvalidLink          // 404 "Link de descarga inválido."
    | LinkExpired          // the expired-link page
    | NoPhotos             // 404 "No hay fotos asociadas al pedido."
    | Zip(entries: seq<ZipEntry>)

  /** What `download_zip` answers for `token` at time `now`. */
  function ZipResponse(orders: map<nat, SaleOrders.Order>, ranked: seq<nat>, assets: map<nat, Assets.Asset>,
                       decodes: set<nat>, token: string, now: int): (r: ZipOutcome)
    requires forall i :: 0 <= i < |ranked| ==> ranked[i] in orders
    ensures var found := OrderOfToken(orders, ranked, token);
      r == InvalidLink <==> found.None? || orders[found.value].tokenExpiresAt.None?
    ensures var found := OrderOfToken(orders, ranked, token);
      r == LinkExpired <==> found.Some? && orders[found.value].tokenExpiresAt.Some?
                            && orders[found.value].tokenExpiresAt.value < now
    ensures var found := OrderOfToken(orders, ranked, token);
      r == NoPhotos <==> found.Some? && orders[found.value].tokenExpiresAt.Some?
                         && now <= orders[found.value].tokenExpiresAt.value
                         && SaleOrders.PhotoAssets(orders[found.value].lines) == []
    ensures r.Zip? ==>
      var o := orders[OrderOfToken(orders, ranked, token).value];
      && o.downloadToken == token && o.tokenExpiresAt.Some? && now <= o.tokenExpiresAt.value
      && SaleOrders.PhotoAssets(o.lines) != []
      && r.entries == ZipEntries(assets, SaleOrders.PhotoAssets(o.lines), decodes)
  {
    var found := OrderOfToken(orders, ranked, token);
    if found.None? || orders[found.value].tokenExpiresAt.None? then InvalidLink
    else
      var o := orders[found.value];
      if o.tokenExpiresAt.value < now then LinkExpired
      else
        var ids := SaleOrders.PhotoAssets(o.lines);
        if ids == [] then NoPhotos
        else Zip(ZipEntries(assets, ids, decodes))
  }

  /** `download_zip`. */
  method DownloadZip(orders: map<nat, SaleOrders.Order>, ranked: seq<nat>, assets: map<nat, Assets.Asset>,
                     decodes: set<nat>, token: string, now: int)
    returns (r: ZipOutcome)
    requires forall i :: 0 <= i < |ranked| ==> ranked[i] in orders
    ensures r == ZipResponse(orders, ranked, assets, decodes, token, now)
  {
    var found := OrderOfToken(orders, ranked, token);
    if found.None? || orders[found.value].tokenExpiresAt.None? {
      return InvalidLink;
    }
    var o := orders[found.value];
    if o.tokenExpiresAt.value < now {
      return LinkExpired;
    }
    var ids := SaleOrders.PhotoAssets(o.lines);
    if ids == [] {
      return NoPhotos;
    }
    var entries := WriteEntries(assets, ids, decodes);
    r := Zip(entries);
  }
}
