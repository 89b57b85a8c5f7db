/** Photo assets (`tienda.foto.asset`): the per-photographer photo number, the storage quota on
    upload, the price constraint, the side effects of publishing and archiving, and the lifecycle
    deadlines with the cron that archives and deletes. Datetimes are seconds; `now` and fresh
    random tokens are parameters. */
module Assets {
  import opened Wrappers
  import opened Text
  import opened Dates
  import Plans
  import Subscriptions
  import Orm

  datatype Lifecycle = Draft | PendingReview | ReadyForSale | Published | Sold | Delivered | Archived

  /** One photo. `number` is the photo number, stored as its decimal string (`numero_dorsal`);
      `publishedAt` is the publication clock `publicada_por_ultima_vez`. */
  datatype Asset = Asset(
    event: Option<nat>,
    photographer: nat,
    number: nat,
    name: string,
    price: real,
    state: Lifecycle,
    publishedAt: Option<int>,
    archivedAt: Option<int>,
    publicada: bool,
    websitePublished: bool,
    portalToken: Option<string>,
    fileSize: nat,
    lastSaleDate: Option<int>,
    createDate: Option<int>,
    writeDate: Option<int>,
    hasImage: bool,
    downloadToken: string,
    downloadCount: nat,
    lastDownloadDate: Option<int>)

  /** `numero_dorsal`. */
  function Dorsal(a: Asset): string {
    NatToString(a.number)
  }

  /** The values given to `create`. An empty `name` is a missing one; `imageSize` is `None` when
      no image is given and otherwise the decoded size (0 when it cannot be decoded). */
  datatype AssetVals = AssetVals(
    event: Option<nat>,
    photographer: Option<nat>,
    subscription: Option<nat>,
    name: string,
    price: real,
    imageSize: Option<nat>,
    publishedAt: Option<int>,
    portalToken: Option<string>,
    publicada: Option<bool>,
    websitePublished: Option<bool>,
    state: Option<Lifecycle>)

  /** What `create` looks up: each event's photographer and subscription, each partner's active
      plan subscription, and the subscriptions themselves. */
  datatype EventLink = EventLink(photographer: Option<nat>, subscription: Option<nat>)
  datatype Lookup = Lookup(events: map<nat, EventLink>, activeSubscription: map<nat, nat>,
                           subscriptions: map<nat, Subscriptions.Subscription>)

  /** Why `create` raises: no photographer, a photographer that does not exist, the storage
      quota, or the price constraint `_check_precio` on the stored records. */
  datatype CreateError = NoPhotographer | PhotographerNotFound | StorageQuota(limitMb: int) | PriceNotPositive

  /** `_resolve_photographer`: the given photographer, else the event's. */
  function ResolvePhotographer(v: AssetVals, env: Lookup): (r: Option<nat>)
    ensures v.photographer.Some? ==> r == v.photographer
    ensures v.photographer.None? && v.event.None? ==> r.None?
    ensures r.Some? && v.photographer.None? ==>
      v.event.Some? && v.event.value in env.events && env.events[v.event.value].photographer == r
  {
    if v.photographer.Some? then v.photographer
    else if v.event.None? then None
    else if v.event.value in env.events then env.events[v.event.value].photographer
    else None
  }

  /** `_resolve_plan_subscription`: the given subscription, else the event's, else the
      photographer's active one. */
  function ResolveSubscription(v: AssetVals, env: Lookup, photographer: nat): (r: Option<nat>)
    ensures v.subscription.Some? ==> r == v.subscription
    ensures r.None? ==> photographer !in env.activeSubscription
  {
    if v.subscription.Some? then v.subscription
    else if v.event.Some? && v.event.value in env.events && env.events[v.event.value].subscription.Some? then
      env.events[v.event.value].subscription
    else if photographer in env.activeSubscription then Some(env.activeSubscription[photographer])
    else None
  }

  /** The quota check of `create`: a decoded image that the resolved subscription cannot store. */
  predicate OverQuota(v: AssetVals, env: Lookup, photographer: nat) {
    var sub := ResolveSubscription(v, env, photographer);
    v.imageSize.Some? && v.imageSize.value > 0 && sub.Some? && sub.value in env.subscriptions
    && !Subscriptions.CanStoreBytes(env.subscriptions[sub.value], v.imageSize.value)
  }

  /** The plan limit quoted by the quota error. */
  function QuotaMb(v: AssetVals, env: Lookup, photographer: nat): int
    requires OverQuota(v, env, photographer)
  {
    var sub := env.subscriptions[ResolveSubscription(v, env, photographer).value];
    if sub.plan.Some? then Plans.StorageLimitMb(sub.plan.value) else 0
  }

  /** A value set `create` accepts: its photographer resolves to an existing partner and its
      image fits the quota. */
  predicate Admissible(v: AssetVals, env: Lookup, counters: map<nat, nat>) {
    var p := ResolvePhotographer(v, env);
    p.Some? && p.value in counters && !OverQuota(v, env, p.value)
  }

  /** `_default_name_from_vals`. */
  function DefaultName(dorsal: string): (r: string)
    ensures dorsal != [] ==> r == "Foto " + dorsal
  {
    if dorsal != [] then "Foto " + dorsal else "Foto sin nombre"
  }

  /** The record `create` stores for `v`, photo number `number`, at time `now`; `token` is the
      fresh portal token. The `setdefault` calls only run when an image is given, but the
      fields' own defaults agree with them except for the portal token. */
  function Prepare(v: AssetVals, photographer: nat, number: nat, now: int, token: string): (r: Asset)
    ensures r.photographer == photographer && r.number == number && r.price == v.price
    ensures v.name == [] ==> r.name == "Foto " + Dorsal(r)
    ensures v.name != [] ==> r.name == v.name
    ensures r.state == (if v.state.Some? then v.state.value else Published)
    ensures r.publishedAt.Some? && r.archivedAt.None? && r.lastSaleDate.None?
    ensures v.imageSize.Some? ==> r.portalToken.Some?
    ensures r.fileSize == (if v.imageSize.Some? then v.imageSize.value else 0)
    ensures r.hasImage == v.imageSize.Some? && r.downloadToken == [] && r.downloadCount == 0
  {
    var image := v.imageSize.Some?;
    Asset(v.event, photographer, number,
          if v.name == [] then DefaultName(NatToString(number)) else v.name,
          v.price, v.state.GetOr(Published), Some(v.publishedAt.GetOr(now)), None,
          v.publicada.GetOr(true), v.websitePublished.GetOr(true),
          if image then Some(v.portalToken.GetOr(token)) else v.portalToken,
          if image then v.imageSize.value else 0,
          None, Some(now), Some(now), image, "", 0, None)
  }

  /** A photo's number lies between 1 and its photographer's counter. */
  predicate NumberInRange(a: Asset, counters: map<nat, nat>) {
    a.photographer in counters && 1 <= a.number <= counters[a.photographer]
  }

  /** The photo numbers are unique per photographer and never above the photographer's counter
      (the `unique(photographer_id, numero_dorsal)` constraint, kept by construction). */
  ghost predicate Numbered(rows: map<nat, Asset>, counters: map<nat, nat>) {
    (forall k :: k in rows ==> NumberInRange(rows[k], counters))
    && (forall k, l :: k in rows && l in rows && k != l && rows[k].photographer == rows[l].photographer
          ==> rows[k].number != rows[l].number)
  }

  /** The `fotoapp_next_photo_identifier` column of the partners, by partner id (a partner whose
      column is empty holds 0). */
  class PhotoCounters {
    var counters: map<nat, nat>

    constructor (initial: map<nat, nat>)
      ensures counters == initial
    {
      counters := initial;
    }

    /** `_next_numero_dorsal`: read the partner's counter, add one, write it back, return it;
        `None` when the partner does not exist. */
    method Next(photographer: nat) returns (r: Option<nat>)
      modifies this
      ensures photographer !in old(counters) ==> r.None? && counters == old(counters)
      ensures photographer in old(counters) ==>
        r == Some(old(counters)[photographer] + 1) && counters == old(counters)[photographer := r.value]
    {
      if photographer !in counters {
        return None;
      }
      var next := counters[photographer] + 1;
      counters := counters[photographer := next];
      r := Some(next);
    }
  }

  /** Issuing the next number to a photographer keeps the numbering unique. */
  lemma NumberedAfterInsert(rows: map<nat, Asset>, counters: map<nat, nat>, k: nat, a: Asset)
    requires Numbered(rows, counters) && k !in rows && a.photographer in counters
    requires a.number == counters[a.photographer] + 1
    ensures Numbered(rows[k := a], counters[a.photographer := a.number])
  {
    var rows' := rows[k := a];
    var counters' := counters[a.photographer := a.number];
    forall i, j | i in rows' && j in rows' && i != j && rows'[i].photographer == rows'[j].photographer
      ensures rows'[i].number != rows'[j].number
    {
      if i == k {
        assert rows'[j] == rows[j];
      } else if j == k {
        assert rows'[i] == rows[i];
      }
    }
  }

  /** One value set of `create`: resolve, number, check the quota, and store it. */
  method CreateOne(assets: Orm.Table<Asset>, numbering: PhotoCounters, v: AssetVals, env: Lookup,
                   now: int, token: string) returns (r: Result<nat, CreateError>)
    requires assets.Valid() && Numbered(assets.rows, numbering.counters) && assets != numbering as object
    modifies assets, numbering
    ensures r.Ok? <==> Admissible(v, env, old(numbering.counters))
    ensures r.Err? ==> (ResolvePhotographer(v, env).None? <==> r.error == NoPhotographer) && r.error != PriceNotPositive
    ensures assets.Valid() && Numbered(assets.rows, numbering.counters) && old(assets.nextId) <= assets.nextId
    ensures numbering.counters.Keys == old(numbering.counters).Keys
    ensures forall p :: p in old(numbering.counters) ==> old(numbering.counters)[p] <= numbering.counters[p]
    ensures r.Ok? ==> var p := ResolvePhotographer(v, env).value;
      && r.value !in old(assets.rows)
      && assets.rows == old(assets.rows)[r.value := Prepare(v, p, old(numbering.counters)[p] + 1, now, token)]
      && numbering.counters == old(numbering.counters)[p := old(numbering.counters)[p] + 1]
  {
    var p := ResolvePhotographer(v, env);
    if p.None? {
      return Err(NoPhotographer);
    }
    var number := numbering.Next(p.value);
    if number.None? {
      return Err(PhotographerNotFound);
    }
    if OverQuota(v, env, p.value) {
      return Err(StorageQuota(QuotaMb(v, env, p.value)));
    }
    var a := Prepare(v, p.value, number.value, now, token);
    NumberedAfterInsert(assets.rows, old(numbering.counters), assets.nextId, a);
    var id := assets.Create(a);
    r := Ok(id);
  }

  /** `a` is the record `create` stores for `v`, under a number fresh for its photographer. */
  predicate MadeFrom(a: Asset, v: AssetVals, env: Lookup, now: int, token: string, counters0: map<nat, nat>) {
    var p := ResolvePhotographer(v, env);
    p.Some? && a == Prepare(v, p.value, a.number, now, token)
    && a.photographer in counters0 && counters0[a.photographer] < a.number
  }

  /** After the first `|created|` value sets of a `create` call: their records are stored, fresh,
      under the ids `created`, and every other record is as it was. */
  ghost predicate Progress(rows0: map<nat, Asset>, rows: map<nat, Asset>, counters0: map<nat, nat>,
                           created: seq<nat>, valsList: seq<AssetVals>, env: Lookup, now: int, tokens: seq<string>)
  {
    && |created| <= |valsList| && |created| <= |tokens|
    && Orm.IsRecordset(created, rows)
    && rows.Keys == rows0.Keys + Orm.Members(created)
    && (forall k :: k in rows0 ==> rows[k] == rows0[k])
    && (forall j :: 0 <= j < |created| ==> created[j] !in rows0)
    && (forall j :: 0 <= j < |created| ==> Admissible(valsList[j], env, counters0))
    && (forall j :: 0 <= j < |created| ==> MadeFrom(rows[created[j]], valsList[j], env, now, tokens[j], counters0))
  }

  lemma ProgressStep(rows0: map<nat, Asset>, rows: map<nat, Asset>, counters0: map<nat, nat>, created: seq<nat>,
                     valsList: seq<AssetVals>, env: Lookup, now: int, tokens: seq<string>, k: nat, a: Asset)
    requires Progress(rows0, rows, counters0, created, valsList, env, now, tokens)
    requires |created| < |valsList| && |created| < |tokens| && k !in rows
    requires Admissible(valsList[|created|], env, counters0)
    requires MadeFrom(a, valsList[|created|], env, now, tokens[|created|], counters0)
    ensures Progress(rows0, rows[k := a], counters0, created + [k], valsList, env, now, tokens)
  {
    assert Orm.Members(created + [k]) == Orm.Members(created) + {k};
    ProgressStepMade(rows, counters0, created, valsList, env, now, tokens, k, a);
  }

  lemma ProgressStepMade(rows: map<nat, Asset>, counters0: map<nat, nat>, created: seq<nat>,
                         valsList: seq<AssetVals>, env: Lookup, now: int, tokens: seq<string>, k: nat, a: Asset)
    requires |created| < |valsList| && |created| < |tokens| && k !in rows
    requires Orm.IsRecordset(created, rows)
    requires forall j :: 0 <= j < |created| ==> MadeFrom(rows[created[j]], valsList[j], env, now, tokens[j], counters0)
    requires MadeFrom(a, valsList[|created|], env, now, tokens[|created|], counters0)
    requires forall j :: 0 <= j < |created| ==> Admissible(valsList[j], env, counters0)
    requires Admissible(valsList[|created|], env, counters0)
    ensures forall j :: 0 <= j < |created| + 1 ==> Admissible(valsList[j], env, counters0)
    ensures forall j :: 0 <= j < |created| + 1 ==>
      MadeFrom(rows[k := a][(created + [k])[j]], valsList[j], env, now, tokens[j], counters0)
  {
    var rows' := rows[k := a];
    var created' := created + [k];
    forall j | 0 <= j < |created'|
      ensures MadeFrom(rows'[created'[j]], valsList[j], env, now, tokens[j], counters0)
    {
      if j < |created| {
        assert created'[j] == created[j] && created[j] in rows;
        assert rows'[created'[j]] == rows[created[j]];
      } else {
        assert created'[j] == k;
      }
    }
  }

  /** The loop of `create(vals_list)`: every value set resolved, numbered, checked against the
      quota and stored in order, stopping at the first that fails. `tokens` are the fresh portal
      tokens, one per value set. */
  method StoreEach(assets: Orm.Table<Asset>, numbering: PhotoCounters, valsList: seq<AssetVals>, env: Lookup,
                   now: int, tokens: seq<string>) returns (r: Result<seq<nat>, CreateError>)
    requires |tokens| == |valsList|
    requires assets.Valid() && Numbered(assets.rows, numbering.counters) && assets != numbering as object
    modifies assets, numbering
    ensures r.Ok? <==> forall i :: 0 <= i < |valsList| ==> Admissible(valsList[i], env, old(numbering.counters))
    ensures r.Err? ==> r.error != PriceNotPositive
    ensures assets.Valid() && Numbered(assets.rows, numbering.counters) && old(assets.nextId) <= assets.nextId
    ensures r.Ok? ==> |r.value| == |valsList|
    ensures r.Ok? ==> Progress(old(assets.rows), assets.rows, old(numbering.counters), r.value, valsList, env, now, tokens)
  {
    ghost var rows0 := assets.rows;
    ghost var counters0 := numbering.counters;
    var created: seq<nat> := [];
    var i := 0;
    while i < |valsList|
      invariant 0 <= i <= |valsList| && |created| == i
      invariant assets.Valid() && Numbered(assets.rows, numbering.counters) && old(assets.nextId) <= assets.nextId
      invariant numbering.counters.Keys == counters0.Keys
      invariant forall p :: p in counters0 ==> counters0[p] <= numbering.counters[p]
      invariant Progress(rows0, assets.rows, counters0, created, valsList, env, now, tokens)
    {
      ghost var rows := assets.rows;
      var c := CreateOne(assets, numbering, valsList[i], env, now, tokens[i]);
      if c.Err? {
        return Err(c.error);
      }
      ProgressStep(rows0, rows, counters0, created, valsList, env, now, tokens, c.value, assets.rows[c.value]);
      created := created + [c.value];
      i := i + 1;
    }
    r := Ok(created);
  }

  /** The price constraint `_check_precio` on the value sets of one `create` call. */
  predicate PricesPositive(valsList: seq<AssetVals>) {
    forall i :: 0 <= i < |valsList| ==> valsList[i].price > 0.0
  }

  /** `create(vals_list)`: the loop, then `_check_precio` on the stored records; an error in any
      value set rolls the whole call back. The ids already drawn stay drawn, as a database
      sequence does. */
  method Create(assets: Orm.Table<Asset>, numbering: PhotoCounters, valsList: seq<AssetVals>, env: Lookup,
                now: int, tokens: seq<string>) returns (r: Result<seq<nat>, CreateError>)
    requires |tokens| == |valsList|
    requires assets.Valid() && Numbered(assets.rows, numbering.counters) && assets != numbering as object
    modifies assets, numbering
    ensures r.Ok? <==> (forall i :: 0 <= i < |valsList| ==> Admissible(valsList[i], env, old(numbering.counters)))
                       && PricesPositive(valsList)
    ensures r.Err? && r.error == PriceNotPositive ==>
      forall i :: 0 <= i < |valsList| ==> Admissible(valsList[i], env, old(numbering.counters))
    ensures r.Err? ==> assets.rows == old(assets.rows) && numbering.counters == old(numbering.counters)
    ensures assets.Valid() && Numbered(assets.rows, numbering.counters)
    ensures r.Ok? ==> |r.value| == |valsList|
    ensures r.Ok? ==> Progress(old(assets.rows), assets.rows, old(numbering.counters), r.value, valsList, env, now, tokens)
    ensures r.Ok? ==> forall j :: 0 <= j < |r.value| ==> PriceOk(assets.rows[r.value[j]])
  {
    var rows0 := assets.rows;
    var counters0 := numbering.counters;
    ghost var nextId0 := assets.nextId;
    assert forall k :: k in rows0 ==> k < nextId0;
    var c := StoreEach(assets, numbering, valsList, env, now, tokens);
    if c.Err? || exists j :: 0 <= j < |valsList| && valsList[j].price <= 0.0 {
      RolledBackValid(rows0, assets.nextId, nextId0);
      assets.rows, numbering.counters := rows0, counters0;
      return Err(if c.Err? then c.error else PriceNotPositive);
    }
    CreatedPricesPositive(assets.rows, counters0, c.value, valsList, env, now, tokens);
    r := c;
  }

  /** Restoring the rows of an earlier state keeps ids below the counter, which only grows. */
  lemma RolledBackValid(rows: map<nat, Asset>, nextId: nat, nextId0: nat)
    requires forall k :: k in rows ==> k < nextId0
    requires nextId0 <= nextId
    ensures forall k :: k in rows ==> k < nextId
  {
  }

  /** The records of a call whose value sets all have a positive price pass `_check_precio`. */
  lemma CreatedPricesPositive(rows: map<nat, Asset>, counters0: map<nat, nat>, created: seq<nat>,
                              valsList: seq<AssetVals>, env: Lookup, now: int, tokens: seq<string>)
    requires |created| <= |valsList| && |created| <= |tokens| && Orm.IsRecordset(created, rows)
    requires forall j :: 0 <= j < |created| ==> MadeFrom(rows[created[j]], valsList[j], env, now, tokens[j], counters0)
    requires PricesPositive(valsList)
    ensures forall j :: 0 <= j < |created| ==> PriceOk(rows[created[j]])
  {
    forall j | 0 <= j < |created|
      ensures PriceOk(rows[created[j]])
    {
      assert MadeFrom(rows[created[j]], valsList[j], env, now, tokens[j], counters0);
    }
  }

  /** Two photos created in one call for the same photographer get different numbers. */
  lemma CreatedNumbersDistinct(rows: map<nat, Asset>, counters: map<nat, nat>, k: nat, l: nat)
    requires Numbered(rows, counters) && k in rows && l in rows && k != l
    requires rows[k].photographer == rows[l].photographer
    ensures Dorsal(rows[k]) != Dorsal(rows[l])
  {
    if Dorsal(rows[k]) == Dorsal(rows[l]) {
      NatToStringInjective(rows[k].number, rows[l].number);
    }
  }

  /** The values a `write` supplies; `None` leaves a field alone. `portalToken == Some(None)`
      is an explicit `False`, which the override replaces by a fresh token. */
  datatype AssetWrite = AssetWrite(
    state: Option<Lifecycle>,
    publicada: Option<bool>,
    websitePublished: Option<bool>,
    publishedAt: Option<Option<int>>,
    archivedAt: Option<Option<int>>,
    price: Option<real>,
    name: Option<string>,
    portalToken: Option<Option<string>>)

  const PublishWrite := AssetWrite(Some(Published), Some(true), Some(true), None, None, None, None, None)
  const ArchiveWrite := AssetWrite(Some(Archived), Some(false), Some(false), None, None, None, None, None)

  /** The plain field update of `super().write(vals)`, which also stamps `write_date`. */
  function Assign(a: Asset, w: AssetWrite, now: int, token: string): (r: Asset)
    ensures w.state.Some? ==> r.state == w.state.value
    ensures w.state.None? ==> r.state == a.state
    ensures w.portalToken == Some(None) ==> r.portalToken == Some(token)
    ensures r.writeDate == Some(now) && r.number == a.number && r.photographer == a.photographer
  {
    a.(state := w.state.GetOr(a.state),
       publicada := w.publicada.GetOr(a.publicada),
       websitePublished := w.websitePublished.GetOr(a.websitePublished),
       publishedAt := w.publishedAt.GetOr(a.publishedAt),
       archivedAt := w.archivedAt.GetOr(a.archivedAt),
       price := w.price.GetOr(a.price),
       name := w.name.GetOr(a.name),
       portalToken := if w.portalToken == Some(None) then Some(token) else w.portalToken.GetOr(a.portalToken),
       writeDate := Some(now))
  }

  /** `_on_published`: restart the publication clock, clear the archive date, show the photo. */
  function OnPublished(a: Asset, now: int): (r: Asset)
    ensures r.publishedAt == Some(now) && r.archivedAt.None? && r.publicada && r.websitePublished
    ensures r.(publishedAt := a.publishedAt, archivedAt := a.archivedAt, publicada := a.publicada,
               websitePublished := a.websitePublished, writeDate := a.writeDate) == a
  {
    a.(publishedAt := Some(now), archivedAt := None, publicada := true, websitePublished := true,
       writeDate := Some(now))
  }

  /** `_on_archived`: stamp the archive date, hide the photo. */
  function OnArchived(a: Asset, now: int): (r: Asset)
    ensures r.archivedAt == Some(now) && !r.publicada && !r.websitePublished
    ensures r.(archivedAt := a.archivedAt, publicada := a.publicada, websitePublished := a.websitePublished,
               writeDate := a.writeDate) == a
  {
    a.(archivedAt := Some(now), publicada := false, websitePublished := false, writeDate := Some(now))
  }

  /** `write(vals)` on one photo: the assignment, then the side effect of a lifecycle change into
      `published` or `archived` unless `skip_lifecycle_side_effects` is set. */
  function Written(a: Asset, w: AssetWrite, now: int, skip: bool, token: string): Asset {
    var b := Assign(a, w, now, token);
    if w.state.None? || skip then b
    else if b.state == Published && a.state != Published then OnPublished(b, now)
    else if b.state == Archived && a.state != Archived then OnArchived(b, now)
    else b
  }

  /** Entering `published` restarts the clock, clears the archive date and shows the photo; a
      photo already published keeps its clock. */
  lemma PublishEffects(a: Asset, now: int, token: string)
    ensures var r := Written(a, PublishWrite, now, false, token);
      && r.state == Published && r.publicada && r.websitePublished
      && (a.state != Published ==> r.publishedAt == Some(now) && r.archivedAt.None?)
      && (a.state == Published ==> r.publishedAt == a.publishedAt && r.archivedAt == a.archivedAt)
  {
  }

  /** Entering `archived` stamps the archive date and hides the photo; archiving again keeps the
      first archive date. */
  lemma ArchiveEffects(a: Asset, now: int, token: string)
    ensures var r := Written(a, ArchiveWrite, now, false, token);
      && r.state == Archived && !r.publicada && !r.websitePublished
      && (a.state != Archived ==> r.archivedAt == Some(now))
      && (a.state == Archived ==> r.archivedAt == a.archivedAt)
  {
  }

  /** A write that does not touch the lifecycle state has no side effect. */
  lemma NoStateNoSideEffect(a: Asset, w: AssetWrite, now: int, skip: bool, token: string)
    requires w.state.None?
    ensures Written(a, w, now, skip, token) == Assign(a, w, now, token)
  {
  }

  /** Archiving is idempotent up to the write stamp. */
  lemma ArchiveIdempotent(a: Asset, t1: int, t2: int, token: string)
    ensures var once := Written(a, ArchiveWrite, t1, false, token);
      Written(once, ArchiveWrite, t2, false, token).(writeDate := once.writeDate) == once
  {
  }

  /** One step of `ensure_download_token`: a photo without a download token gets `token`. */
  function WithDownloadToken(a: Asset, token: string, now: int): (r: Asset)
    ensures a.downloadToken != [] ==> r == a
    ensures a.downloadToken == [] ==> r == a.(downloadToken := token, writeDate := Some(now))
  {
    if a.downloadToken != [] then a else a.(downloadToken := token, writeDate := Some(now))
  }

  /** `ensure_download_token` on the recordset `ids`: each photo keeps its download token or
      gets the fresh one drawn for it (`tokens[i]`), and the result maps every photo to the
      token it now has. */
  method EnsureDownloadTokens(t: Orm.Table<Asset>, ids: seq<nat>, tokens: seq<string>, now: int)
      returns (issued: seq<string>)
    requires Orm.IsRecordset(ids, t.rows) && |tokens| == |ids|
    modifies t
    ensures t.nextId == old(t.nextId) && t.rows.Keys == old(t.rows).Keys && |issued| == |ids|
    ensures forall i :: 0 <= i < |ids| ==>
      t.rows[ids[i]] == WithDownloadToken(old(t.rows)[ids[i]], tokens[i], now) && issued[i] == t.rows[ids[i]].downloadToken
    ensures forall k :: k in t.rows && k !in ids ==> t.rows[k] == old(t.rows)[k]
  {
    t.ApplyAt(ids, (i: nat, id: nat, a: Asset) => WithDownloadToken(a, if i < |tokens| then tokens[i] else [], now));
    var rows := t.rows;
    issued := seq(|ids|, j requires 0 <= j < |ids| => rows[ids[j]].downloadToken);
  }

  /** A photo ends up with a download token whenever the fresh token is not empty, and a token
      it had is never replaced. */
  lemma DownloadTokenIssued(a: Asset, token: string, now: int)
    ensures token != [] ==> WithDownloadToken(a, token, now).downloadToken != []
    ensures a.downloadToken != [] ==> WithDownloadToken(a, token, now).downloadToken == a.downloadToken
  {
  }

  /** `_check_precio` on the written records: false where the source raises. */
  predicate PriceOk(a: Asset) { a.price > 0.0 }

  /** `write(vals)` on the recordset `ids`: every photo written as `Written` says, unless the new
      price is not positive, in which case `_check_precio` raises and nothing changes. */
  method Write(t: Orm.Table<Asset>, ids: seq<nat>, w: AssetWrite, now: int, skip: bool, token: string)
      returns (ok: bool)
    requires Orm.IsRecordset(ids, t.rows)
    modifies t
    ensures ok <==> !(ids != [] && w.price.Some? && w.price.value <= 0.0)
    ensures t.nextId == old(t.nextId)
    ensures ok ==> t.rows == Orm.Updated(old(t.rows), Orm.Members(ids), a => Written(a, w, now, skip, token))
    ensures !ok ==> t.rows == old(t.rows)
  {
    if ids != [] && w.price.Some? && w.price.value <= 0.0 {
      return false;
    }
    t.ApplyEach(ids, a => Written(a, w, now, skip, token));
    ok := true;
  }

  /** Every written photo passes the price check exactly when the write is accepted, provided
      the untouched prices were positive. */
  lemma WriteKeepsPricesPositive(rows: map<nat, Asset>, ids: set<nat>, w: AssetWrite, now: int, token: string)
    requires forall k :: k in rows ==> PriceOk(rows[k])
    requires w.price.Some? ==> w.price.value > 0.0
    ensures var r := Orm.Updated(rows, ids, a => Written(a, w, now, false, token));
      forall k :: k in r ==> PriceOk(r[k])
  {
  }

  /** `_lifecycle_anchor_date`: the later of (the publication clock, else the creation date) and
      the last sale. */
  function Anchor(a: Asset): (r: Option<int>)
    ensures var base := if a.publishedAt.Some? then a.publishedAt else a.createDate;
      && (r.None? <==> base.None? && a.lastSaleDate.None?)
      && (base.Some? ==> r.Some? && base.value <= r.value)
      && (a.lastSaleDate.Some? ==> r.Some? && a.lastSaleDate.value <= r.value)
      && (r.Some? ==> r == base || r == a.lastSaleDate)
  {
    var base := if a.publishedAt.Some? then a.publishedAt else a.createDate;
    if a.lastSaleDate.Some? && (base.None? || a.lastSaleDate.value > base.value) then a.lastSaleDate
    else base
  }

  /** `_get_archive_deadline(days)`: `days` days after the anchor; none for 0 days. */
  function ArchiveDeadline(a: Asset, days: int): (r: Option<int>)
    ensures r.None? <==> days == 0 || Anchor(a).None?
    ensures r.Some? ==> r.value == Anchor(a).value + days * DAY
  {
    var base := Anchor(a);
    if days == 0 || base.None? then None else Some(base.value + days * DAY)
  }

  /** `_get_delete_deadline(days)`: `days` days after the archive date, else the last write, else
      the creation; none for 0 days. */
  function DeleteDeadline(a: Asset, days: int): (r: Option<int>)
    ensures var base := if a.archivedAt.Some? then a.archivedAt
                        else if a.writeDate.Some? then a.writeDate else a.createDate;
      && (r.None? <==> days == 0 || base.None?)
      && (r.Some? ==> r.value == base.value + days * DAY)
  {
    var base := if a.archivedAt.Some? then a.archivedAt else if a.writeDate.Some? then a.writeDate else a.createDate;
    if days == 0 || base.None? then None else Some(base.value + days * DAY)
  }

  /** `max((deadline - now).days, 0)`: whole days left, rounded down, never negative; 0 without a
      deadline. */
  function DaysLeft(deadline: Option<int>, now: int): (r: nat)
    ensures deadline.None? || deadline.value < now + DAY ==> r == 0
    ensures deadline.Some? && deadline.value >= now ==> r * DAY <= deadline.value - now < (r + 1) * DAY
  {
    if deadline.None? then 0
    else
      var days := (deadline.value - now) / DAY;
      if days < 0 then 0 else days
  }

  /** `_compute_lifecycle_deadlines` on one photo: the days until archiving (published photos)
      and until deletion (archived photos). */
  function Countdowns(a: Asset, archiveDays: int, deleteDays: int, now: int): (r: (nat, nat))
    ensures a.state != Published ==> r.0 == 0
    ensures a.state != Archived ==> r.1 == 0
    ensures a.state == Published ==> r.0 == DaysLeft(ArchiveDeadline(a, archiveDays), now)
    ensures a.state == Archived ==> r.1 == DaysLeft(DeleteDeadline(a, deleteDays), now)
  {
    (if a.state == Published then DaysLeft(ArchiveDeadline(a, archiveDays), now) else 0,
     if a.state == Archived then DaysLeft(DeleteDeadline(a, deleteDays), now) else 0)
  }

  /** `_safe_int_param(config, key, default)`. `raw` is `get_param(key)`, whose `None` stands for
      the `False` returned for a missing key: `False is not None`, so that case is `int(False)`,
      which is 0, and the default is used only for text `int` refuses. */
  function SafeIntParam(raw: Option<string>, default: int): (r: int)
    ensures raw.None? ==> r == 0
    ensures raw.Some? && ParseInt(raw.value).None? ==> r == default
    ensures raw.Some? && ParseInt(raw.value).Some? ==> r == ParseInt(raw.value).value
  {
    if raw.None? then 0
    else match ParseInt(raw.value)
      case Some(n) => n
      case None => default
  }

  /** A parameter stored as a printed number reads back as that number. */
  lemma SafeIntParamOfPrinted(n: int, default: int)
    ensures SafeIntParam(Some(IntToString(n)), default) == n
  {
    ParseIntOfIntToString(n);
  }

  /** `_get_lifecycle_config`: unset parameters read as 0 days, which switches archiving and
      deletion off; the defaults 30 and 15 apply only to stored text that is not a number. */
  function LifecycleConfig(rawArchive: Option<string>, rawDelete: Option<string>): (r: (int, int))
    ensures rawArchive.None? && rawDelete.None? ==> r == (0, 0)
    ensures rawArchive.Some? && ParseInt(rawArchive.value).None? ==> r.0 == 30
    ensures rawDelete.Some? && ParseInt(rawDelete.value).None? ==> r.1 == 15
  {
    (SafeIntParam(rawArchive, 30), SafeIntParam(rawDelete, 15))
  }

  /** A published photo whose archive deadline has passed. */
  predicate ArchiveDue(a: Asset, archiveDays: int, now: int) {
    a.state == Published && ArchiveDeadline(a, archiveDays).Some? && ArchiveDeadline(a, archiveDays).value <= now
  }

  /** An archived photo whose delete deadline has passed. */
  predicate DeleteDue(a: Asset, deleteDays: int, now: int) {
    a.state == Archived && DeleteDeadline(a, deleteDays).Some? && DeleteDeadline(a, deleteDays).value <= now
  }

  /** Without stored parameters the cron finds nothing due: no photo is archived or deleted. */
  lemma UnsetConfigRetiresNothing(a: Asset, now: int)
    ensures !ArchiveDue(a, LifecycleConfig(None, None).0, now)
    ensures !DeleteDue(a, LifecycleConfig(None, None).1, now)
  {
  }

  function DueForArchive(rows: map<nat, Asset>, archiveDays: int, now: int): set<nat> {
    set k | k in rows && ArchiveDue(rows[k], archiveDays, now)
  }

  function DueForDelete(rows: map<nat, Asset>, deleteDays: int, now: int): set<nat> {
    set k | k in rows && DeleteDue(rows[k], deleteDays, now)
  }

  /** The table after the first half of the cron: the due photos archived by `action_archive`. */
  function AfterArchiving(rows: map<nat, Asset>, archiveDays: int, now: int): map<nat, Asset> {
    Orm.Updated(rows, DueForArchive(rows, archiveDays, now), a => Written(a, ArchiveWrite, now, false, ""))
  }

  /** The table after `cron_manage_photo_lifecycle`. */
  function AfterCron(rows: map<nat, Asset>, archiveDays: int, deleteDays: int, now: int): map<nat, Asset> {
    var archived := AfterArchiving(rows, archiveDays, now);
    archived - DueForDelete(archived, deleteDays, now)
  }

  /** The scan loop of the cron: the ids in `candidates` whose record satisfies `due`. */
  method Scan(t: Orm.Table<Asset>, candidates: set<nat>, due: Asset -> bool) returns (found: set<nat>)
    requires candidates <= t.rows.Keys
    ensures found == set k | k in candidates && due(t.rows[k])
  {
    found := {};
    var todo := candidates;
    while todo != {}
      invariant todo <= candidates
      invariant found == set k | k in candidates - todo && due(t.rows[k])
      decreases todo
    {
      var k :| k in todo;
      if due(t.rows[k]) {
        found := found + {k};
      }
      todo := todo - {k};
    }
  }

  /** `cron_manage_photo_lifecycle`: archive the published photos whose archive deadline has
      passed, then delete the archived photos (those just archived included) whose delete
      deadline has passed. */
  method CronManageLifecycle(t: Orm.Table<Asset>, archiveDays: int, deleteDays: int, now: int)
    modifies t
    ensures t.nextId == old(t.nextId)
    ensures t.rows == AfterCron(old(t.rows), archiveDays, deleteDays, now)
  {
    var published := set k | k in t.rows && t.rows[k].state == Published;
    var toArchive := Scan(t, published, a => ArchiveDue(a, archiveDays, now));
    assert toArchive == DueForArchive(t.rows, archiveDays, now);
    t.ApplyAll(toArchive, a => Written(a, ArchiveWrite, now, false, ""));
    var archived := set k | k in t.rows && t.rows[k].state == Archived;
    var toDelete := Scan(t, archived, a => DeleteDue(a, deleteDays, now));
    assert toDelete == DueForDelete(t.rows, deleteDays, now);
    t.Unlink(toDelete);
  }

  /** What the cron does to each photo: a due published photo is archived now (and deleted too
      if its delete deadline is already past); a due archived photo is deleted; every other
      photo is left as it was. */
  lemma CronEffect(rows: map<nat, Asset>, archiveDays: int, deleteDays: int, now: int, k: nat)
    requires k in rows
    ensures var r := AfterCron(rows, archiveDays, deleteDays, now);
      && (ArchiveDue(rows[k], archiveDays, now) ==>
            (k in r <==> !DeleteDue(Written(rows[k], ArchiveWrite, now, false, ""), deleteDays, now))
            && (k in r ==> r[k].state == Archived && r[k].archivedAt == Some(now)))
      && (DeleteDue(rows[k], deleteDays, now) ==> k !in r)
      && (!ArchiveDue(rows[k], archiveDays, now) && !DeleteDue(rows[k], deleteDays, now) ==>
            k in r && r[k] == rows[k])
  {
    var archived := AfterArchiving(rows, archiveDays, now);
    if ArchiveDue(rows[k], archiveDays, now) {
      assert archived[k] == Written(rows[k], ArchiveWrite, now, false, "");
    } else {
      assert archived[k] == rows[k];
    }
  }

  /** A photo published 31 days ago, never sold, is archived by the cron under the default
      30-day setting (and not yet deleted). */
  lemma ArchiveAfterInactivity(a: Asset, now: int)
    requires a.state == Published && a.publishedAt == Some(now - 31 * DAY) && a.lastSaleDate.None?
    ensures var r := AfterCron(map[1 := a], 30, 15, now);
      1 in r && r[1].state == Archived && r[1].archivedAt == Some(now)
  {
    CronEffect(map[1 := a], 30, 15, now, 1);
  }

  /** A photo archived 16 days ago is deleted by the cron under the default 15-day setting. */
  lemma DeleteAfterArchived(a: Asset, now: int)
    requires a.state == Archived && a.archivedAt == Some(now - 16 * DAY)
    ensures 1 !in AfterCron(map[1 := a], 30, 15, now)
  {
    CronEffect(map[1 := a], 30, 15, now, 1);
  }
}
