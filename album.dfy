/** Albums (`tienda.foto.album`): the guarded state actions, the customer token on creation,
    the photo count and the deletion that takes the album's photos with it. */
module Albums {
  import opened Wrappers
  import Assets
  import Orm

  datatype AlbumState = Draft | Editing | Proofing | Published | Delivered | Archived

  datatype Album = Album(
    name: string,
    event: nat,
    state: AlbumState,
    customerToken: Option<string>,
    assets: set<nat>,
    isPrivate: bool,
    downloadLimit: int)

  /** `_compute_asset_count`. */
  function AssetCount(a: Album): (r: nat)
    ensures r == 0 <==> a.assets == {}
  {
    |a.assets|
  }

  /** The values given to `create`; an empty token is a missing one. */
  datatype AlbumVals = AlbumVals(name: string, event: nat, state: Option<AlbumState>,
                                 customerToken: Option<string>, assets: set<nat>, isPrivate: Option<bool>)

  /** The token `create` gives the album of `v`: the given one, or `newToken` when it is missing. */
  function ChosenToken(v: AlbumVals, newToken: string): string {
    if v.customerToken.Some? && v.customerToken.value != [] then v.customerToken.value else newToken
  }

  /** The record `create` stores: a given token is kept, a missing one replaced by `newToken`;
      albums start as private drafts unless told otherwise. */
  function NewAlbum(v: AlbumVals, newToken: string): (r: Album)
    ensures r.customerToken == Some(ChosenToken(v, newToken))
    ensures v.customerToken.Some? && v.customerToken.value != [] ==> r.customerToken == v.customerToken
    ensures v.customerToken.None? || v.customerToken.value == [] ==> r.customerToken == Some(newToken)
    ensures r.assets == v.assets && r.event == v.event
  {
    Album(v.name, v.event, v.state.GetOr(Draft), Some(ChosenToken(v, newToken)), v.assets, v.isPrivate.GetOr(true), 0)
  }

  /** `unique(customer_token)`: a missing token (NULL) never clashes. */
  predicate TokenApart(x: Option<string>, y: Option<string>) {
    x.None? || y.None? || x != y
  }

  predicate TokensUnique(rows: map<nat, Album>) {
    forall a, b :: a in rows && b in rows && a != b ==> TokenApart(rows[a].customerToken, rows[b].customerToken)
  }

  /** The albums `create(vals_list)` inserts clash neither with a stored album nor with each other. */
  predicate CreateAllowed(rows: map<nat, Album>, valsList: seq<AlbumVals>, tokens: seq<string>)
    requires |tokens| == |valsList|
  {
    forall i :: 0 <= i < |valsList| ==>
      && (forall k :: k in rows ==> TokenApart(Some(ChosenToken(valsList[i], tokens[i])), rows[k].customerToken))
      && (forall j :: 0 <= j < |valsList| && j != i ==> ChosenToken(valsList[i], tokens[i]) != ChosenToken(valsList[j], tokens[j]))
  }

  /** `rows1` is `rows0` with the albums `ids` inserted as `create` builds them. */
  ghost predicate Inserted(rows0: map<nat, Album>, rows1: map<nat, Album>, ids: seq<nat>, valsList: seq<AlbumVals>,
                           tokens: seq<string>)
  {
    && |ids| == |valsList| == |tokens|
    && Orm.IsRecordset(ids, rows1) && Orm.Extends(rows0, rows1) && rows1.Keys == rows0.Keys + Orm.Members(ids)
    && (forall i :: 0 <= i < |ids| ==> ids[i] !in rows0 && rows1[ids[i]] == NewAlbum(valsList[i], tokens[i]))
  }

  /** The insertion keeps the token constraint exactly when it is allowed. */
  lemma CreateAllowedIffTokensUnique(rows0: map<nat, Album>, rows1: map<nat, Album>, ids: seq<nat>,
                                     valsList: seq<AlbumVals>, tokens: seq<string>)
    requires TokensUnique(rows0) && Inserted(rows0, rows1, ids, valsList, tokens)
    ensures CreateAllowed(rows0, valsList, tokens) <==> TokensUnique(rows1)
  {
    if CreateAllowed(rows0, valsList, tokens) {
      forall a, b | a in rows1 && b in rows1 && a != b
        ensures TokenApart(rows1[a].customerToken, rows1[b].customerToken)
      {
        InsertedPair(rows0, rows1, ids, valsList, tokens, a, b);
      }
    } else {
      var i :| 0 <= i < |valsList| &&
        !((forall k :: k in rows0 ==> TokenApart(Some(ChosenToken(valsList[i], tokens[i])), rows0[k].customerToken))
          && (forall j :: 0 <= j < |valsList| && j != i ==> ChosenToken(valsList[i], tokens[i]) != ChosenToken(valsList[j], tokens[j])));
      assert rows1[ids[i]].customerToken == Some(ChosenToken(valsList[i], tokens[i]));
      if exists k :: k in rows0 && !TokenApart(Some(ChosenToken(valsList[i], tokens[i])), rows0[k].customerToken) {
        var k :| k in rows0 && !TokenApart(Some(ChosenToken(valsList[i], tokens[i])), rows0[k].customerToken);
        assert k in rows1 && rows1[k] == rows0[k] && ids[i] != k;
      } else {
        var j :| 0 <= j < |valsList| && j != i && ChosenToken(valsList[i], tokens[i]) == ChosenToken(valsList[j], tokens[j]);
        assert rows1[ids[j]].customerToken == Some(ChosenToken(valsList[j], tokens[j]));
      }
    }
  }

  lemma InsertedPair(rows0: map<nat, Album>, rows1: map<nat, Album>, ids: seq<nat>, valsList: seq<AlbumVals>,
                     tokens: seq<string>, a: nat, b: nat)
    requires TokensUnique(rows0) && Inserted(rows0, rows1, ids, valsList, tokens)
    requires CreateAllowed(rows0, valsList, tokens)
    requires a in rows1 && b in rows1 && a != b
    ensures TokenApart(rows1[a].customerToken, rows1[b].customerToken)
  {
    if a in rows0 && b in rows0 {
      assert rows1[a] == rows0[a] && rows1[b] == rows0[b];
    } else if a in rows0 {
      var j :| 0 <= j < |ids| && ids[j] == b;
      assert rows1[a] == rows0[a] && rows1[b].customerToken == Some(ChosenToken(valsList[j], tokens[j]));
    } else if b in rows0 {
      var i :| 0 <= i < |ids| && ids[i] == a;
      assert rows1[b] == rows0[b] && rows1[a].customerToken == Some(ChosenToken(valsList[i], tokens[i]));
    } else {
      var i :| 0 <= i < |ids| && ids[i] == a;
      var j :| 0 <= j < |ids| && ids[j] == b;
      assert rows1[a].customerToken == Some(ChosenToken(valsList[i], tokens[i]));
      assert rows1[b].customerToken == Some(ChosenToken(valsList[j], tokens[j]));
    }
  }

  /** An album given the token a stored album already holds is refused. */
  lemma TakenTokenRefused(rows: map<nat, Album>, k: nat, v: AlbumVals, token: string)
    requires k in rows && v.customerToken.Some? && v.customerToken.value != [] && rows[k].customerToken == v.customerToken
    ensures !CreateAllowed(rows, [v], [token])
  {
    assert [v][0] == v && [token][0] == token;
    assert !TokenApart(Some(ChosenToken(v, token)), rows[k].customerToken);
  }

  /** `create(vals_list)`; `tokens` holds one random token per value set. A token clash raises
      and stores nothing. */
  method Create(t: Orm.Table<Album>, valsList: seq<AlbumVals>, tokens: seq<string>) returns (ok: bool, ids: seq<nat>)
    requires |tokens| == |valsList| && t.Valid()
    modifies t
    ensures t.Valid()
    ensures ok <==> CreateAllowed(old(t.rows), valsList, tokens)
    ensures !ok ==> ids == [] && t.rows == old(t.rows)
    ensures ok ==> Inserted(old(t.rows), t.rows, ids, valsList, tokens)
    ensures ok && TokensUnique(old(t.rows)) ==> TokensUnique(t.rows)
  {
    ok := CreateAllowed(t.rows, valsList, tokens);
    if !ok {
      return false, [];
    }
    var args := seq(|valsList|, i requires 0 <= i < |valsList| => (valsList[i], tokens[i]));
    ids := t.CreateEach(args, (a: (AlbumVals, string), id: nat) => NewAlbum(a.0, a.1));
    if TokensUnique(old(t.rows)) {
      CreateAllowedIffTokensUnique(old(t.rows), t.rows, ids, valsList, tokens);
    }
  }

  /** `action_publish` on one album: only draft, editing and proofing albums are published. */
  function Publish(a: Album): (r: Album)
    ensures a.state in {Draft, Editing, Proofing} ==> r == a.(state := Published)
    ensures a.state !in {Draft, Editing, Proofing} ==> r == a
  {
    if a.state in {Draft, Editing, Proofing} then a.(state := Published) else a
  }

  /** `action_mark_delivered` on one album: only published or delivered albums become delivered. */
  function MarkDelivered(a: Album): (r: Album)
    ensures a.state in {Published, Delivered} ==> r == a.(state := Delivered)
    ensures a.state !in {Published, Delivered} ==> r == a
  {
    if a.state !in {Published, Delivered} then a else a.(state := Delivered)
  }

  /** `action_archive` on one album: archived whatever its state. */
  function Archive(a: Album): (r: Album)
    ensures r.state == Archived && r.(state := a.state) == a
  {
    a.(state := Archived)
  }

  /** Publishing then delivering takes a draft to delivered; neither action ever leaves archived. */
  lemma ActionsFromArchived(a: Album)
    requires a.state == Archived
    ensures Publish(a) == a && MarkDelivered(a) == a
  {
  }

  lemma DraftToDelivered(a: Album)
    requires a.state == Draft
    ensures MarkDelivered(Publish(a)).state == Delivered
  {
  }

  /** Each guarded action is idempotent. */
  lemma ActionsIdempotent(a: Album)
    ensures Publish(Publish(a)) == Publish(a)
    ensures MarkDelivered(MarkDelivered(a)) == MarkDelivered(a)
    ensures Archive(Archive(a)) == Archive(a)
  {
  }

  method ActionPublish(t: Orm.Table<Album>, ids: seq<nat>)
    requires Orm.IsRecordset(ids, t.rows)
    modifies t
    ensures t.nextId == old(t.nextId)
    ensures t.rows == Orm.Updated(old(t.rows), Orm.Members(ids), Publish)
  {
    t.ApplyEach(ids, Publish);
  }

  method ActionMarkDelivered(t: Orm.Table<Album>, ids: seq<nat>)
    requires Orm.IsRecordset(ids, t.rows)
    modifies t
    ensures t.nextId == old(t.nextId)
    ensures t.rows == Orm.Updated(old(t.rows), Orm.Members(ids), MarkDelivered)
  {
    t.ApplyEach(ids, MarkDelivered);
  }

  method ActionArchive(t: Orm.Table<Album>, ids: seq<nat>)
    requires Orm.IsRecordset(ids, t.rows)
    modifies t
    ensures t.nextId == old(t.nextId)
    ensures t.rows == Orm.Updated(old(t.rows), Orm.Members(ids), Archive)
  {
    t.ApplyEach(ids, Archive);
  }

  /** The photos of the albums `ids`. */
  function PhotosOf(rows: map<nat, Album>, ids: set<nat>): set<nat>
    requires ids <= rows.Keys
  {
    set k, a | a in ids && k in rows[a].assets :: k
  }

  /** The albums once the photos `gone` are deleted: the many-to-many link rows of a deleted
      photo go with it. */
  function WithoutPhotos(rows: map<nat, Album>, gone: set<nat>): (r: map<nat, Album>)
    ensures r.Keys == rows.Keys
    ensures forall k :: k in r ==> r[k].assets == rows[k].assets - gone && r[k].(assets := rows[k].assets) == rows[k]
  {
    map k | k in rows :: rows[k].(assets := rows[k].assets - gone)
  }

  /** `unlink()` on the albums `ids`: unless `skip_album_asset_cleanup` is set, every photo of
      those albums is deleted first (and leaves the albums that remain). */
  method Unlink(albums: Orm.Table<Album>, assets: Orm.Table<Assets.Asset>, ids: set<nat>, skipCleanup: bool)
    requires ids <= albums.rows.Keys
    modifies albums, assets
    ensures albums.nextId == old(albums.nextId) && assets.nextId == old(assets.nextId)
    ensures skipCleanup ==> assets.rows == old(assets.rows) && albums.rows == old(albums.rows) - ids
    ensures !skipCleanup ==> assets.rows == old(assets.rows) - PhotosOf(old(albums.rows), ids)
    ensures !skipCleanup ==> albums.rows == WithoutPhotos(old(albums.rows), PhotosOf(old(albums.rows), ids)) - ids
  {
    if !skipCleanup {
      var toRemove: set<nat> := {};
      var todo := ids;
      while todo != {}
        invariant todo <= ids
        invariant toRemove == PhotosOf(albums.rows, ids - todo)
        decreases todo
      {
        var a :| a in todo;
        toRemove := toRemove + albums.rows[a].assets;
        todo := todo - {a};
        assert ids - todo == (ids - (todo + {a})) + {a};
      }
      assert ids - todo == ids;
      if toRemove != {} {
        assets.Unlink(toRemove);
        albums.rows := WithoutPhotos(albums.rows, toRemove);
      } else {
        forall k | k in albums.rows
          ensures WithoutPhotos(albums.rows, toRemove)[k] == albums.rows[k]
        {
          assert albums.rows[k].assets - toRemove == albums.rows[k].assets;
        }
        assert WithoutPhotos(albums.rows, toRemove) == albums.rows;
      }
    }
    albums.Unlink(ids);
  }

  /** After the cleanup no remaining album lists a deleted photo, and no photo of another album
      was deleted unless a deleted album also held it. */
  lemma UnlinkLeavesNoDangling(rows: map<nat, Album>, ids: set<nat>, k: nat)
    requires ids <= rows.Keys && k in rows && k !in ids
    ensures WithoutPhotos(rows, PhotosOf(rows, ids))[k].assets !! PhotosOf(rows, ids)
    ensures forall p :: p in rows[k].assets && p !in WithoutPhotos(rows, PhotosOf(rows, ids))[k].assets ==>
              exists a :: a in ids && p in rows[a].assets
  {
  }

  /** The album gains the photos `ids` (`album_ids: [(4, album.id)]` on each of them). */
  method AddPhotos(albums: Orm.Table<Album>, albumId: nat, ids: seq<nat>)
    requires albumId in albums.rows
    modifies albums
    ensures albums.nextId == old(albums.nextId)
    ensures albums.rows == old(albums.rows)[albumId := old(albums.rows[albumId]).(assets := old(albums.rows[albumId]).assets + Orm.Members(ids))]
  {
    var a := albums.rows[albumId];
    albums.rows := albums.rows[albumId := a.(assets := a.assets + Orm.Members(ids))];
  }
}
