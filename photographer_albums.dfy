/** The photographer's album page (`/mi/fotoapp/album/<id>`): the album's own settings, the
    photo upload with its storage quota, and the per-photo price, name and state actions. */
module AlbumPortal {
  import opened Wrappers
  import Text
  import Plans
  import Subscriptions
  import Orm
  import Assets
  import Albums
  import Events
  import Gallery

  // ---------------------------------------------------------------------------------------
  // Ownership

  /** `_get_album_for_partner`: the album, if its event's photographer is `partner`
      (the album's `photographer_id` is related to its event's). */
  function AlbumFor(albums: map<nat, Albums.Album>, events: map<nat, Events.Event>, partner: nat, albumId: nat)
    : Option<Albums.Album>
  {
    if albumId in albums && albums[albumId].event in events
       && events[albums[albumId].event].photographer == Some(partner)
    then Some(albums[albumId]) else None
  }

  /** `_get_asset_for_partner`: the photo's id, if the photo is the partner's; `photoId` is the
      posted `photo_id`, `None` when it is missing. */
  function AssetFor(assets: map<nat, Assets.Asset>, partner: nat, photoId: Option<nat>): (r: Option<nat>)
    ensures r.Some? <==> photoId.Some? && photoId.value in assets && assets[photoId.value].photographer == partner
    ensures r.Some? ==> r == photoId
  {
    if photoId.Some? && photoId.value in assets && assets[photoId.value].photographer == partner then photoId
    else None
  }

  // ---------------------------------------------------------------------------------------
  // The upload's file name

  /** `os.path.basename`: what follows the last '/'. */
  function Basename(path: string): (r: string)
    ensures |r| <= |path| && r == path[|path| - |r|..]
    ensures forall i :: 0 <= i < |r| ==> r[i] != '/'
    ensures |r| < |path| ==> path[|path| - |r| - 1] == '/'
  {
    if path == [] || path[|path| - 1] == '/' then []
    else Basename(path[..|path| - 1]) + [path[|path| - 1]]
  }

  const MaxFileName := 120

  /** The stripped base name. */
  function Cleaned(filename: string): string {
    Text.Strip(Basename(filename))
  }

  /** `_extract_upload_file_name`: the base name, stripped and cut to 120 characters; `None` is
      the `False` given for a missing or blank name. */
  function UploadFileName(filename: string): (r: Option<string>)
    ensures r.None? <==> Cleaned(filename) == []
    ensures r.Some? ==> 0 < |r.value| <= MaxFileName
    ensures r.Some? ==> |r.value| <= |Cleaned(filename)| && r.value == Cleaned(filename)[..|r.value|]
    ensures r.Some? && |Cleaned(filename)| <= MaxFileName ==> r.value == Cleaned(filename)
  {
    if filename == [] then None
    else
      var cleaned := Cleaned(filename);
      if cleaned == [] then None
      else if |cleaned| <= MaxFileName then Some(cleaned)
      else Some(cleaned[..MaxFileName])
  }

  /** A stored name never holds a '/': no directory part survives. */
  lemma NameHasNoSlash(filename: string)
    requires UploadFileName(filename).Some?
    ensures forall i :: 0 <= i < |UploadFileName(filename).value| ==> UploadFileName(filename).value[i] != '/'
  {
    NoSlashStripped(Basename(filename));
    var c := Cleaned(filename);
    var r := UploadFileName(filename).value;
    assert r == c[..|r|];
  }

  lemma NoSlashStripped(b: string)
    requires forall i :: 0 <= i < |b| ==> b[i] != '/'
    ensures forall i :: 0 <= i < |Text.Strip(b)| ==> Text.Strip(b)[i] != '/'
  {
    Text.StripKeepsChars(b);
  }

  /** A plain name, already stripped and short enough, is kept as it is. */
  lemma PlainNameKept(name: string)
    requires name != [] && |name| <= MaxFileName && Text.Strip(name) == name
    requires forall i :: 0 <= i < |name| ==> name[i] != '/'
    ensures UploadFileName(name) == Some(name)
  {
    assert Basename(name) == name;
  }

  /** Whatever comes before the last '/' never reaches the name. */
  lemma DirectoryDropped(dir: string, name: string)
    requires forall i :: 0 <= i < |name| ==> name[i] != '/'
    ensures UploadFileName(dir + "/" + name) == UploadFileName(name) || name == []
  {
    if name != [] {
      BasenameOfJoin(dir, name);
    }
  }

  lemma {:induction false} BasenameOfJoin(dir: string, name: string)
    requires forall i :: 0 <= i < |name| ==> name[i] != '/'
    ensures Basename(dir + "/" + name) == Basename(name) == name
  {
    if name == [] {
      assert dir + "/" + name == dir + "/";
    } else {
      var init := name[..|name| - 1];
      BasenameOfJoin(dir, init);
      assert (dir + "/" + name)[..|dir + "/" + name| - 1] == dir + "/" + init;
      assert name[..|name| - 1] == init;
    }
  }

  // ---------------------------------------------------------------------------------------
  // update_album

  /** `int(post.get('download_limit') or 0)`: a missing or empty value is 0, text that is not
      an integer makes `int` raise (`None`). */
  function DownloadLimit(raw: Option<string>): (r: Option<int>)
    ensures raw.None? || raw.value == [] ==> r == Some(0)
    ensures raw.Some? && raw.value != [] ==> r == Text.ParseInt(raw.value)
  {
    if raw.None? || raw.value == [] then Some(0) else Text.ParseInt(raw.value)
  }

  /** The `update_album` write: the stripped name, the privacy switch, the download limit, and
      the state the switch implies (private albums go back to draft, public ones are
      published). `None`: the download limit does not parse, the request fails, nothing changes. */
  function UpdatedAlbum(a: Albums.Album, name: Option<string>, isPrivate: bool, rawLimit: Option<string>)
    : (r: Option<Albums.Album>)
    ensures r.None? <==> DownloadLimit(rawLimit).None?
    ensures r.Some? ==> r.value.state == (if isPrivate then Albums.Draft else Albums.Published)
    ensures r.Some? ==> r.value.isPrivate == isPrivate && r.value.downloadLimit == DownloadLimit(rawLimit).value
    ensures r.Some? ==> r.value.name == Text.Strip(name.GetOr(""))
    ensures r.Some? ==> r.value.(name := a.name, state := a.state, isPrivate := a.isPrivate,
                                 downloadLimit := a.downloadLimit) == a
  {
    match DownloadLimit(rawLimit)
    case None => None
    case Some(limit) =>
      Some(a.(name := Text.Strip(name.GetOr("")), isPrivate := isPrivate, downloadLimit := limit,
              state := if isPrivate then Albums.Draft else Albums.Published))
  }

  /** The privacy switch is also the album's visibility in the public gallery: after the update
      the event page lists the album exactly when it is not private. */
  lemma SwitchDecidesVisibility(a: Albums.Album, name: Option<string>, isPrivate: bool, rawLimit: Option<string>)
    requires UpdatedAlbum(a, name, isPrivate, rawLimit).Some?
    ensures Gallery.PublicAlbum(UpdatedAlbum(a, name, isPrivate, rawLimit).value, a.event) <==> !isPrivate
  {
  }

  // ---------------------------------------------------------------------------------------
  // upload_photo

  /** One uploaded file: its name and the number of bytes read from it (0 when the file is
      empty or cannot be read, which `_prepare_cover_image` reports as no image). */
  datatype Upload = Upload(filename: string, size: nat)

  /** The posted price after `float(price_raw or 0.0)`: missing or empty, a number, or text
      `float` refuses. */
  datatype PriceField = NoPrice | Price(value: real) | NotNumeric

  function PriceValue(p: PriceField): real {
    match p
    case Price(v) => v
    case _ => 0.0
  }

  /** The subscription after one more photo of `size` bytes is stored: `usage_storage_bytes`
      is a stored sum over the subscription's photos, recomputed on create. */
  function Grown(sub: Option<Subscriptions.Subscription>, size: nat): (r: Option<Subscriptions.Subscription>)
    ensures r.Some? <==> sub.Some?
    ensures r.Some? ==> r.value == sub.value.(usageStorageBytes := sub.value.usageStorageBytes + size)
  {
    if sub.None? then None else Some(sub.value.(usageStorageBytes := sub.value.usageStorageBytes + size))
  }

  /** The storage-quota test of the upload loop: a subscription that cannot take `size` more bytes. */
  predicate Overflows(sub: Option<Subscriptions.Subscription>, size: nat) {
    sub.Some? && !Subscriptions.CanStoreBytes(sub.value, size)
  }

  /** What the upload loop does with `uploads`: the files passed to `create`, in order, the
      number of empty or unreadable files skipped, and whether it stopped at the quota. */
  datatype UploadRun = UploadRun(created: seq<Upload>, skipped: nat, limitReached: bool)

  function RunUploads(uploads: seq<Upload>, sub: Option<Subscriptions.Subscription>): UploadRun
    decreases |uploads|
  {
    if uploads == [] then UploadRun([], 0, false)
    else
      var u := uploads[0];
      if u.size == 0 then
        var rest := RunUploads(uploads[1..], sub);
        rest.(skipped := rest.skipped + 1)
      else if Overflows(sub, u.size) then UploadRun([], 0, true)
      else
        var rest := RunUploads(uploads[1..], Grown(sub, u.size));
        rest.(created := [u] + rest.created)
  }

  /** A run continued after `done` and `skipped`. */
  function Continued(done: seq<Upload>, skipped: nat, rest: UploadRun): UploadRun {
    UploadRun(done + rest.created, skipped + rest.skipped, rest.limitReached)
  }

  /** The loop of lines 67-89. */
  method UploadLoop(uploads: seq<Upload>, sub: Option<Subscriptions.Subscription>)
    returns (created: seq<Upload>, skipped: nat, limitReached: bool)
    ensures UploadRun(created, skipped, limitReached) == RunUploads(uploads, sub)
  {
    created, skipped, limitReached := [], 0, false;
    var current := sub;
    var i := 0;
    while i < |uploads|
      invariant 0 <= i <= |uploads|
      invariant RunUploads(uploads, sub) == Continued(created, skipped, RunUploads(uploads[i..], current))
    {
      var u := uploads[i];
      assert uploads[i..][1..] == uploads[i + 1..];
      if u.size == 0 {
        assert RunUploads(uploads[i..], current) == SkippedOne(RunUploads(uploads[i + 1..], current));
        skipped := skipped + 1;
        i := i + 1;
        continue;
      }
      if Overflows(current, u.size) {
        limitReached := true;
        return;
      }
      var rest := RunUploads(uploads[i + 1..], Grown(current, u.size));
      assert RunUploads(uploads[i..], current) == rest.(created := [u] + rest.created);
      ContinuedAfterCreate(created, skipped, u, rest);
      created := created + [u];
      current := Grown(current, u.size);
      i := i + 1;
    }
  }

  function SkippedOne(r: UploadRun): UploadRun {
    r.(skipped := r.skipped + 1)
  }

  lemma ContinuedAfterCreate(done: seq<Upload>, skipped: nat, u: Upload, rest: UploadRun)
    ensures Continued(done, skipped, rest.(created := [u] + rest.created)) == Continued(done + [u], skipped, rest)
  {
    assert done + ([u] + rest.created) == (done + [u]) + rest.created;
  }

  /** Sum of the sizes of `us`. */
  function Bytes(us: seq<Upload>): nat {
    if us == [] then 0 else us[0].size + Bytes(us[1..])
  }

  /** Every file the loop processes is either created or skipped, one for one, and the file
      that hit the quota is the only one left out before the loop stops. */
  lemma {:induction false} RunAccountsForFiles(uploads: seq<Upload>, sub: Option<Subscriptions.Subscription>)
    ensures var r := RunUploads(uploads, sub);
      && |r.created| + r.skipped <= |uploads|
      && (!r.limitReached ==> |r.created| + r.skipped == |uploads|)
      && forall k :: 0 <= k < |r.created| ==> r.created[k].size > 0 && r.created[k] in uploads
    decreases |uploads|
  {
    if uploads != [] {
      var u := uploads[0];
      if u.size == 0 {
        RunAccountsForFiles(uploads[1..], sub);
      } else if !Overflows(sub, u.size) {
        RunAccountsForFiles(uploads[1..], Grown(sub, u.size));
      }
    }
  }

  /** The quota holds for what is created: with a storage limit, the subscription's usage plus
      the created files never exceeds it. */
  lemma {:induction false} RunStaysWithinQuota(uploads: seq<Upload>, sub: Option<Subscriptions.Subscription>)
    requires sub.Some? && sub.value.plan.Some? && Plans.StorageLimitMb(sub.value.plan.value) != 0
    ensures var r := RunUploads(uploads, sub);
      r.created != [] ==>
        sub.value.usageStorageBytes + Bytes(r.created) <= Plans.StorageLimitMb(sub.value.plan.value) * 1024 * 1024
    decreases |uploads|
  {
    if uploads != [] {
      var u := uploads[0];
      if u.size == 0 {
        RunStaysWithinQuota(uploads[1..], sub);
      } else if !Overflows(sub, u.size) {
        var next := Grown(sub, u.size);
        RunStaysWithinQuota(uploads[1..], next);
        var r := RunUploads(uploads[1..], next);
        assert Bytes([u] + r.created) == u.size + Bytes(r.created) by {
          assert ([u] + r.created)[1..] == r.created;
        }
      }
    }
  }

  /** Without a subscription nothing stops the loop: every non-empty file is created. */
  lemma {:induction false} NoSubscriptionTakesAll(uploads: seq<Upload>)
    ensures var r := RunUploads(uploads, None);
      && !r.limitReached
      && (forall u :: u in r.created <==> u in uploads && u.size > 0)
    decreases |uploads|
  {
    if uploads != [] {
      NoSubscriptionTakesAll(uploads[1..]);
      assert forall u :: u in uploads <==> u == uploads[0] || u in uploads[1..];
    }
  }

  /** What the album page reports after a POST. */
  datatype AlbumError =
    | PriceNotNumeric           // "El precio debe ser numérico."
    | NoImages                  // "Seleccioná al menos una imagen para subir."
    | StorageLimit(limitMb: int)
    | NothingProcessed          // "No se pudo procesar ninguna imagen. ..."
    | PhotoNotFound             // "No se pudo encontrar la foto para actualizar el precio."
    | PriceNotPositive          // "El precio debe ser mayor a cero."
    | NamePhotoNotFound         // "No se encontró la foto para actualizar el nombre."
    | EmptyName                 // "El nombre no puede estar vacío."
    | CreateFailed(reason: Assets.CreateError)  // an error raised by the photo table's `create`

  datatype Success =
    | Uploaded(created: nat, skipped: nat)  // "Se subieron {created} fotos correctamente. ..."
    | PriceUpdated
    | NameUpdated

  /** A redirect back to the album (with an optional success message for the next page), the
      page rendered again with the errors, or a `ValidationError` from the photo table that the
      page does not catch, which rolls the request back. */
  datatype Response = Redirected(success: Option<Success>) | Rendered(errors: seq<AlbumError>) | Raised(error: AlbumError)

  /** The value set `create` gets for one uploaded file. */
  function PhotoVals(a: Albums.Album, u: Upload, price: real): Assets.AssetVals {
    Assets.AssetVals(Some(a.event), None, None, UploadFileName(u.filename).GetOr([]), price, Some(u.size),
                     None, None, None, None, None)
  }

  /** The value sets of all created files, in upload order. */
  function AllPhotoVals(a: Albums.Album, us: seq<Upload>, price: real): (r: seq<Assets.AssetVals>)
    ensures |r| == |us| && forall k :: 0 <= k < |us| ==> r[k] == PhotoVals(a, us[k], price)
  {
    seq(|us|, k requires 0 <= k < |us| => PhotoVals(a, us[k], price))
  }

  /** The limit quoted by the quota error: the plan's limit in MB. */
  function QuotaLimitMb(sub: Option<Subscriptions.Subscription>): int {
    if sub.Some? && sub.value.plan.Some? then Plans.StorageLimitMb(sub.value.plan.value) else 0
  }

  /** `upload_photo`: the value sets handed to `create` and the response. `sub` is the album's
      event's subscription, else the partner's active one. The posted price is not checked by the
      page: when it is not positive the first `create` raises in `_check_precio` and no photo
      is kept. */
  function UploadPhotos(a: Albums.Album, price: PriceField, uploads: seq<Upload>,
                        sub: Option<Subscriptions.Subscription>): (r: (seq<Assets.AssetVals>, Response))
    ensures price == NotNumeric || uploads == [] ==> r.0 == [] && r.1.Rendered?
    ensures r.1.Raised? <==> price != NotNumeric && RunUploads(uploads, sub).created != [] && PriceValue(price) <= 0.0
    ensures r.1.Raised? ==> r.0 == [] && r.1.error == PriceNotPositive
    ensures r.1.Redirected? <==> price != NotNumeric && RunUploads(uploads, sub).created != [] && PriceValue(price) > 0.0
    ensures r.1.Redirected? ==> |r.0| == |RunUploads(uploads, sub).created| && Assets.PricesPositive(r.0)
    ensures |r.0| == |RunUploads(uploads, sub).created| || r.0 == []
  {
    var early := (if price == NotNumeric then [PriceNotNumeric] else []) + (if uploads == [] then [NoImages] else []);
    if early != [] then ([], Rendered(early))
    else
      var run := RunUploads(uploads, sub);
      var vals := AllPhotoVals(a, run.created, PriceValue(price));
      var errors := if run.limitReached then [StorageLimit(QuotaLimitMb(sub))] else [];
      if run.created == [] then
        (vals, Rendered(if run.limitReached then errors else errors + [NothingProcessed]))
      else if PriceValue(price) <= 0.0 then ([], Raised(PriceNotPositive))
      else (vals, Redirected(Some(Uploaded(|run.created|, run.skipped))))
  }

  /** Uploads that end with files created report how many were created and how many skipped,
      and those two account for every file when the quota was not hit. */
  lemma UploadReportCounts(a: Albums.Album, price: PriceField, uploads: seq<Upload>,
                           sub: Option<Subscriptions.Subscription>)
    requires UploadPhotos(a, price, uploads, sub).1.Redirected?
    ensures var resp := UploadPhotos(a, price, uploads, sub).1;
      && resp.success.Some? && resp.success.value.Uploaded?
      && resp.success.value.created == |UploadPhotos(a, price, uploads, sub).0| > 0
      && (!RunUploads(uploads, sub).limitReached ==>
            resp.success.value.created + resp.success.value.skipped == |uploads|)
  {
    RunAccountsForFiles(uploads, sub);
  }

  /** The page's side of the upload action: runs the loop and builds, in order, the value sets
      of the files it keeps, with the response the page gives when `create` accepts them. */
  method PrepareUpload(a: Albums.Album, price: PriceField, uploads: seq<Upload>, sub: Option<Subscriptions.Subscription>)
    returns (vals: seq<Assets.AssetVals>, response: Response)
    ensures (vals, response) == UploadPhotos(a, price, uploads, sub)
  {
    var early := (if price == NotNumeric then [PriceNotNumeric] else []) + (if uploads == [] then [NoImages] else []);
    if early != [] {
      return [], Rendered(early);
    }
    var created, skipped, limitReached := UploadLoop(uploads, sub);
    vals := AllPhotoVals(a, created, PriceValue(price));
    var errors := if limitReached then [StorageLimit(QuotaLimitMb(sub))] else [];
    if created == [] {
      response := Rendered(if limitReached then errors else errors + [NothingProcessed]);
    } else if PriceValue(price) <= 0.0 {
      vals, response := [], Raised(PriceNotPositive);
    } else {
      response := Redirected(Some(Uploaded(|created|, skipped)));
    }
  }

  /** `create` on the photo table with every value set linked to album `albumId`: the album's
      photos grow by exactly the created ones, and a refused call changes nothing. */
  method CreateInAlbum(albums: Orm.Table<Albums.Album>, assets: Orm.Table<Assets.Asset>,
                       numbering: Assets.PhotoCounters, albumId: nat, vals: seq<Assets.AssetVals>,
                       env: Assets.Lookup, now: int, tokens: seq<string>)
    returns (r: Result<seq<nat>, Assets.CreateError>)
    requires albumId in albums.rows && |tokens| == |vals|
    requires assets.Valid() && Assets.Numbered(assets.rows, numbering.counters) && assets != numbering as object
    requires albums as object != assets && albums as object != numbering
    modifies albums, assets, numbering
    ensures assets.Valid() && Assets.Numbered(assets.rows, numbering.counters)
    ensures albums.nextId == old(albums.nextId)
    ensures r.Ok? <==> (forall i :: 0 <= i < |vals| ==> Assets.Admissible(vals[i], env, old(numbering.counters)))
                       && Assets.PricesPositive(vals)
    ensures r.Err? ==> albums.rows == old(albums.rows) && assets.rows == old(assets.rows)
                       && numbering.counters == old(numbering.counters)
    ensures r.Ok? ==> var a := old(albums.rows[albumId]);
      && |r.value| == |vals|
      && Assets.Progress(old(assets.rows), assets.rows, old(numbering.counters), r.value, vals, env, now, tokens)
      && albums.rows == old(albums.rows)[albumId := a.(assets := a.assets + Orm.Members(r.value))]
  {
    r := Assets.Create(assets, numbering, vals, env, now, tokens);
    if r.Ok? {
      Albums.AddPhotos(albums, albumId, r.value);
    }
  }

  /** `upload_photo` on the tables: the kept files are created as photos of the album's event,
      each linked to the album (`album_ids: [(4, album.id)]`), so the album's photos grow by
      exactly the created ones. When the page would not redirect, or `create` refuses a value
      set, nothing is stored. `tokens` are the portal tokens `create` draws, one per file. */
  method UploadPhoto(albums: Orm.Table<Albums.Album>, assets: Orm.Table<Assets.Asset>,
                     numbering: Assets.PhotoCounters, albumId: nat, price: PriceField, uploads: seq<Upload>,
                     sub: Option<Subscriptions.Subscription>, env: Assets.Lookup, now: int, tokens: seq<string>)
    returns (response: Response, created: seq<nat>)
    requires albumId in albums.rows && |tokens| == |uploads|
    requires assets.Valid() && Assets.Numbered(assets.rows, numbering.counters) && assets != numbering as object
    requires albums as object != assets && albums as object != numbering
    modifies albums, assets, numbering
    ensures assets.Valid() && Assets.Numbered(assets.rows, numbering.counters)
    ensures albums.nextId == old(albums.nextId)
    ensures var planned := UploadPhotos(old(albums.rows[albumId]), price, uploads, sub);
      !planned.1.Redirected? ==>
        && response == planned.1 && created == []
        && albums.rows == old(albums.rows) && assets.rows == old(assets.rows)
        && numbering.counters == old(numbering.counters)
    ensures var planned := UploadPhotos(old(albums.rows[albumId]), price, uploads, sub);
      var vals := planned.0;
      var admitted := forall i :: 0 <= i < |vals| ==> Assets.Admissible(vals[i], env, old(numbering.counters));
      planned.1.Redirected? && !admitted ==>
        && response.Raised? && response.error.CreateFailed? && created == []
        && albums.rows == old(albums.rows) && assets.rows == old(assets.rows)
        && numbering.counters == old(numbering.counters)
    ensures var a := old(albums.rows[albumId]);
      var planned := UploadPhotos(a, price, uploads, sub);
      var vals := planned.0;
      var admitted := forall i :: 0 <= i < |vals| ==> Assets.Admissible(vals[i], env, old(numbering.counters));
      planned.1.Redirected? && admitted ==>
        && response == planned.1 && |created| == |vals| && |vals| <= |tokens|
        && Assets.Progress(old(assets.rows), assets.rows, old(numbering.counters), created, vals, env, now, tokens[..|vals|])
        && albums.rows == old(albums.rows)[albumId := a.(assets := a.assets + Orm.Members(created))]
  {
    var a := albums.rows[albumId];
    var vals, planned := PrepareUpload(a, price, uploads, sub);
    if !planned.Redirected? {
      return planned, [];
    }
    RunAccountsForFiles(uploads, sub);
    var r := CreateInAlbum(albums, assets, numbering, albumId, vals, env, now, tokens[..|vals|]);
    if r.Err? {
      return Raised(CreateFailed(r.error)), [];
    }
    created := r.value;
    response := planned;
  }

  // ---------------------------------------------------------------------------------------
  // Photo price and name

  /** `update_photo_price`: the errors, and the price written when there are none. */
  function PriceUpdate(photo: Option<nat>, price: PriceField): (r: (seq<AlbumError>, Option<real>))
    ensures r.1.Some? <==> r.0 == []
    ensures r.1.Some? ==> photo.Some? && price.Price? && r.1.value == price.value > 0.0
    ensures price == NotNumeric ==> r.0 != [] && r.0[0] == PriceNotNumeric
    ensures photo.None? ==> PhotoNotFound in r.0
  {
    var errors := if price == NotNumeric then [PriceNotNumeric] else [];
    var value := PriceValue(price);
    if photo.None? then (errors + [PhotoNotFound], None)
    else if value <= 0.0 then (errors + [PriceNotPositive], None)
    else (errors, if errors == [] then Some(value) else None)
  }

  /** `update_photo_name`: the errors, and the stripped name written when there are none. */
  function NameUpdate(photo: Option<nat>, rawName: Option<string>): (r: (seq<AlbumError>, Option<string>))
    ensures r.1.Some? <==> r.0 == []
    ensures r.1.Some? ==> photo.Some? && r.1.value != [] && r.1.value == Text.Strip(rawName.GetOr([]))
    ensures photo.Some? && Text.Strip(rawName.GetOr([])) == [] ==> r.0 == [EmptyName]
  {
    var name := Text.Strip(rawName.GetOr([]));
    if photo.None? then ([NamePhotoNotFound], None)
    else if name == [] then ([EmptyName], None)
    else ([], Some(name))
  }

  /** The write of a price or a name on one photo. */
  function FieldWrite(price: Option<real>, name: Option<string>): Assets.AssetWrite {
    Assets.AssetWrite(None, None, None, None, None, price, name, None)
  }

  /** `update_photo_price` on the photo table: the photo gets the new price when it is the
      partner's and the price is a positive number, and nothing changes otherwise. */
  method UpdatePhotoPrice(assets: Orm.Table<Assets.Asset>, partner: nat, photoId: Option<nat>, price: PriceField,
                          now: int, token: string)
    returns (response: Response)
    modifies assets
    ensures assets.nextId == old(assets.nextId)
    ensures var u := PriceUpdate(AssetFor(old(assets.rows), partner, photoId), price);
      u.1.None? ==> response == Rendered(u.0) && assets.rows == old(assets.rows)
    ensures var u := PriceUpdate(AssetFor(old(assets.rows), partner, photoId), price);
      u.1.Some? ==>
        && response == Redirected(Some(PriceUpdated))
        && assets.rows == old(assets.rows)[photoId.value := Assets.Written(old(assets.rows)[photoId.value],
                                                                           FieldWrite(u.1, None), now, false, token)]
  {
    var photo := AssetFor(assets.rows, partner, photoId);
    var u := PriceUpdate(photo, price);
    if u.1.None? {
      return Rendered(u.0);
    }
    var ok := Assets.Write(assets, [photo.value], FieldWrite(u.1, None), now, false, token);
    assert ok;
    assert Orm.Members([photo.value]) == {photo.value};
    response := Redirected(Some(PriceUpdated));
  }

  /** `update_photo_name` on the photo table. */
  method UpdatePhotoName(assets: Orm.Table<Assets.Asset>, partner: nat, photoId: Option<nat>, rawName: Option<string>,
                         now: int, token: string)
    returns (response: Response)
    modifies assets
    ensures assets.nextId == old(assets.nextId)
    ensures var u := NameUpdate(AssetFor(old(assets.rows), partner, photoId), rawName);
      u.1.None? ==> response == Rendered(u.0) && assets.rows == old(assets.rows)
    ensures var u := NameUpdate(AssetFor(old(assets.rows), partner, photoId), rawName);
      u.1.Some? ==>
        && response == Redirected(Some(NameUpdated))
        && assets.rows == old(assets.rows)[photoId.value := Assets.Written(old(assets.rows)[photoId.value],
                                                                           FieldWrite(None, u.1), now, false, token)]
  {
    var photo := AssetFor(assets.rows, partner, photoId);
    var u := NameUpdate(photo, rawName);
    if u.1.None? {
      return Rendered(u.0);
    }
    var ok := Assets.Write(assets, [photo.value], FieldWrite(None, u.1), now, false, token);
    assert Orm.Members([photo.value]) == {photo.value};
    response := Redirected(Some(NameUpdated));
  }

  /** A price the page accepts keeps the photo's price check (`_check_precio`) satisfied. */
  lemma AcceptedPriceIsPositive(photo: Option<nat>, price: PriceField, a: Assets.Asset, now: int, token: string)
    requires PriceUpdate(photo, price).1.Some?
    ensures Assets.PriceOk(Assets.Written(a, FieldWrite(PriceUpdate(photo, price).1, None), now, false, token))
  {
  }

  // ---------------------------------------------------------------------------------------
  // The album page's POST actions

  datatype Action =
    | DeleteAlbum
    | UpdateAlbum(name: Option<string>, isPrivate: bool, downloadLimit: Option<string>)
    | PublishAlbum
    | ArchiveAlbum
    | ArchivePhoto(photoId: Option<nat>)
    | PublishPhoto(photoId: Option<nat>)
    | Other

  /** The album-level actions: delete (the album's `unlink`, which takes the album's photos with
      it), the settings write, publish and archive; photo actions leave the album alone.
      `false`: the settings write failed. */
  method AlbumAction(albums: Orm.Table<Albums.Album>, assets: Orm.Table<Assets.Asset>, albumId: nat, action: Action)
    returns (ok: bool)
    requires albumId in albums.rows
    modifies albums, assets
    ensures albums.nextId == old(albums.nextId) && assets.nextId == old(assets.nextId)
    ensures action == DeleteAlbum ==>
      && ok
      && assets.rows == old(assets.rows) - old(albums.rows)[albumId].assets
      && albums.rows == Albums.WithoutPhotos(old(albums.rows), old(albums.rows)[albumId].assets) - {albumId}
    ensures action != DeleteAlbum ==> assets.rows == old(assets.rows)
    ensures action.UpdateAlbum? ==>
      var u := UpdatedAlbum(old(albums.rows)[albumId], action.name, action.isPrivate, action.downloadLimit);
      && ok == u.Some?
      && albums.rows == if u.Some? then old(albums.rows)[albumId := u.value] else old(albums.rows)
    ensures action == PublishAlbum ==> ok && albums.rows == old(albums.rows)[albumId := Albums.Publish(old(albums.rows)[albumId])]
    ensures action == ArchiveAlbum ==> ok && albums.rows == old(albums.rows)[albumId := Albums.Archive(old(albums.rows)[albumId])]
    ensures action.ArchivePhoto? || action.PublishPhoto? || action == Other ==> ok && albums.rows == old(albums.rows)
  {
    ok := true;
    var a := albums.rows[albumId];
    match action {
      case DeleteAlbum =>
        Albums.Unlink(albums, assets, {albumId}, false);
        assert Albums.PhotosOf(old(albums.rows), {albumId}) == a.assets;
      case UpdateAlbum(name, isPrivate, limit) =>
        var u := UpdatedAlbum(a, name, isPrivate, limit);
        if u.None? {
          return false;
        }
        albums.rows := albums.rows[albumId := u.value];
      case PublishAlbum =>
        albums.rows := albums.rows[albumId := Albums.Publish(a)];
      case ArchiveAlbum =>
        albums.rows := albums.rows[albumId := Albums.Archive(a)];
      case _ =>
    }
  }

  /** `archive_photo` / `publish_photo`: the partner's photo goes through the lifecycle write;
      a photo that is not the partner's is ignored. */
  method PhotoStateAction(assets: Orm.Table<Assets.Asset>, partner: nat, action: Action, now: int, token: string)
    requires action.ArchivePhoto? || action.PublishPhoto?
    modifies assets
    ensures assets.nextId == old(assets.nextId)
    ensures var photo := AssetFor(old(assets.rows), partner, action.photoId);
      var w := if action.ArchivePhoto? then Assets.ArchiveWrite else Assets.PublishWrite;
      && (photo.None? ==> assets.rows == old(assets.rows))
      && (photo.Some? ==> assets.rows == old(assets.rows)[photo.value := Assets.Written(old(assets.rows)[photo.value], w, now, false, token)])
  {
    var photo := AssetFor(assets.rows, partner, action.photoId);
    if photo.None? {
      return;
    }
    var w := if action.ArchivePhoto? then Assets.ArchiveWrite else Assets.PublishWrite;
    var ok := Assets.Write(assets, [photo.value], w, now, false, token);
    assert Orm.Members([photo.value]) == {photo.value};
  }

  /** Archiving a photo from the album page takes it out of the public gallery. */
  lemma ArchivedPhotoHidden(a: Assets.Asset, now: int, token: string)
    ensures !Gallery.Shown(Assets.Written(a, Assets.ArchiveWrite, now, false, token))
  {
  }
}
