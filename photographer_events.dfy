/** The photographer's event pages (`/mi/fotoapp/eventos...`): the filtered list with its
    counters, event creation and update with their validation, the state actions, and album
    creation under an event. */
module EventPortal {
  import opened Wrappers
  import Text
  import Orm
  import Events
  import Albums
  import Assets
  import Categories

  // ---------------------------------------------------------------------------------------
  // The event list

  /** The `estado` filter: one of the three listed states, or all events. */
  datatype StateFilter = All | Only(estado: Events.Estado)

  function EstadoKey(e: Events.Estado): string {
    match e
    case Borrador => "borrador"
    case Produccion => "produccion"
    case Revision => "revision"
    case Publicado => "publicado"
    case Archivado => "archivado"
  }

  /** `estado if estado in {'borrador', 'publicado', 'archivado'} else False`. */
  function ParseStateFilter(raw: Option<string>): (r: StateFilter)
    ensures r.Only? ==> r.estado in {Events.Borrador, Events.Publicado, Events.Archivado}
  {
    if raw == Some("borrador") then Only(Events.Borrador)
    else if raw == Some("publicado") then Only(Events.Publicado)
    else if raw == Some("archivado") then Only(Events.Archivado)
    else All
  }

  /** The three listed states read back from their keys; every other state's key, and any
      other text, lists all events. */
  lemma StateFilterKeys(e: Events.Estado)
    ensures e in {Events.Borrador, Events.Publicado, Events.Archivado} ==> ParseStateFilter(Some(EstadoKey(e))) == Only(e)
    ensures e !in {Events.Borrador, Events.Publicado, Events.Archivado} ==> ParseStateFilter(Some(EstadoKey(e))) == All
  {
  }

  /** `ilike '%term%'` on ASCII text: the lowered term occurs in the lowered value. */
  predicate ILike(value: string, term: string) {
    var v, t := Text.Lower(value), Text.Lower(term);
    exists i :: 0 <= i <= |v| && OccursAt(v, t, i)
  }

  predicate OccursAt(v: string, t: string, i: int) {
    0 <= i <= |v| - |t| && v[i..i + |t|] == t
  }

  /** An event the list shows: the partner's, in the filtered state, and matching the search
      in its name or its category's name (`categoryNames`). */
  predicate Listed(e: Events.Event, partner: nat, filter: StateFilter, term: string, categoryNames: map<nat, string>) {
    && e.photographer == Some(partner)
    && (filter.Only? ==> e.estado == filter.estado)
    && (term != [] ==> ILike(e.name, term) || (e.category in categoryNames && ILike(categoryNames[e.category], term)))
  }

  /** `photographer_event_list`: the events, in the order of `ranked` (`fecha desc, create_date
      desc`); the search term is stripped first. */
  function EventList(events: map<nat, Events.Event>, ranked: seq<nat>, partner: nat, estado: Option<string>,
                     search: Option<string>, categoryNames: map<nat, string>): (r: seq<nat>)
    requires forall i :: 0 <= i < |ranked| ==> ranked[i] in events
    ensures forall k :: k in r ==> k in ranked && events[k].photographer == Some(partner)
    ensures ParseStateFilter(estado).Only? ==> forall k :: k in r ==> events[k].estado == ParseStateFilter(estado).estado
    ensures forall k :: k in r <==>
      k in ranked && Listed(events[k], partner, ParseStateFilter(estado), Text.Strip(search.GetOr([])), categoryNames)
    ensures |r| <= |ranked|
  {
    var filter := ParseStateFilter(estado);
    var term := Text.Strip(search.GetOr([]));
    Orm.Filter(ranked, events, (e: Events.Event) => Listed(e, partner, filter, term, categoryNames))
  }

  /** The number of events of `ids` satisfying `p` (`search_count`). */
  function Count(ids: seq<nat>, rows: map<nat, Events.Event>, p: Events.Event -> bool): nat
    requires forall i :: 0 <= i < |ids| ==> ids[i] in rows
  {
    |Orm.Filter(ids, rows, p)|
  }

  /** The counters of the list page: all of the partner's events, then per listed state. */
  datatype Stats = Stats(all: nat, borrador: nat, publicado: nat, archivado: nat)

  function EventStats(events: map<nat, Events.Event>, ids: seq<nat>, partner: nat): Stats
    requires forall i :: 0 <= i < |ids| ==> ids[i] in events
  {
    Stats(Count(ids, events, (e: Events.Event) => e.photographer == Some(partner)),
          Count(ids, events, (e: Events.Event) => e.photographer == Some(partner) && e.estado == Events.Borrador),
          Count(ids, events, (e: Events.Event) => e.photographer == Some(partner) && e.estado == Events.Publicado),
          Count(ids, events, (e: Events.Event) => e.photographer == Some(partner) && e.estado == Events.Archivado))
  }

  /** Three exclusive conditions, each stronger than `m`, count no more than `m` together. */
  lemma {:induction false} ExclusiveCounts(ids: seq<nat>, rows: map<nat, Events.Event>,
                                           p: Events.Event -> bool, q: Events.Event -> bool,
                                           s: Events.Event -> bool, m: Events.Event -> bool)
    requires forall i :: 0 <= i < |ids| ==> ids[i] in rows
    requires forall e :: (p(e) || q(e) || s(e)) ==> m(e)
    requires forall e :: !(p(e) && q(e)) && !(p(e) && s(e)) && !(q(e) && s(e))
    ensures Count(ids, rows, p) + Count(ids, rows, q) + Count(ids, rows, s) <= Count(ids, rows, m)
    decreases |ids|
  {
    if ids != [] {
      var init := ids[..|ids| - 1];
      ExclusiveCounts(init, rows, p, q, s, m);
    }
  }

  /** The three state counters never add up to more than the partner's events (the states
      `produccion` and `revision` make up the rest). */
  lemma StatsBound(events: map<nat, Events.Event>, ids: seq<nat>, partner: nat)
    requires forall i :: 0 <= i < |ids| ==> ids[i] in events
    ensures var s := EventStats(events, ids, partner); s.borrador + s.publicado + s.archivado <= s.all
  {
    ExclusiveCounts(ids, events,
                    (e: Events.Event) => e.photographer == Some(partner) && e.estado == Events.Borrador,
                    (e: Events.Event) => e.photographer == Some(partner) && e.estado == Events.Publicado,
                    (e: Events.Event) => e.photographer == Some(partner) && e.estado == Events.Archivado,
                    (e: Events.Event) => e.photographer == Some(partner));
  }

  // ---------------------------------------------------------------------------------------
  // Validation of the create and update forms

  /** The categories the forms offer: published, shown on the homepage, on the website. */
  function Offered(categories: map<nat, Categories.Category>): (r: set<nat>)
    ensures forall k :: k in r <==> (k in categories && categories[k].estado == Categories.Publicado
                                     && categories[k].displayOnHomepage && categories[k].websitePublished)
  {
    set k | k in categories && categories[k].estado == Categories.Publicado
                            && categories[k].displayOnHomepage && categories[k].websitePublished
  }

  datatype FormError =
    | NameRequired          // "El nombre del evento es obligatorio."
    | CategoryRequired      // "Debes seleccionar una categoría." / "Selecciona una categoría."
    | CategoryUnavailable   // "La categoría seleccionada ya no está disponible."
    | DateRequired          // "Debes indicar una fecha válida." / "Ingresa una fecha válida."
    | DuplicateKey          // the database's unique slug or portal token; not caught by the page

  /** The category and date checks both forms share. `category` is the posted id (`None` when
      missing; 0 counts as missing too), `date` the parsed date (`None` when it does not parse). */
  function CategoryAndDateErrors(category: Option<int>, date: Option<int>, offered: set<nat>): seq<FormError> {
    (if category.None? || category.value == 0 then [CategoryRequired]
     else if category.value < 0 || category.value as nat !in offered then [CategoryUnavailable]
     else [])
    + (if date.None? then [DateRequired] else [])
  }

  /** A posted category the form accepts. */
  predicate CategoryOk(category: Option<int>, offered: set<nat>) {
    category.Some? && category.value > 0 && category.value as nat in offered
  }

  /** `photographer_event_create`'s checks: each failing field adds its own error. */
  function CreateErrors(name: Option<string>, category: Option<int>, date: Option<int>, offered: set<nat>)
    : (r: seq<FormError>)
    ensures r == [] <==> Text.Strip(name.GetOr([])) != [] && CategoryOk(category, offered) && date.Some?
    ensures NameRequired in r <==> Text.Strip(name.GetOr([])) == []
    ensures CategoryRequired in r <==> category.None? || category.value == 0
    ensures CategoryUnavailable in r <==> category.Some? && category.value != 0 && !CategoryOk(category, offered)
    ensures DateRequired in r <==> date.None?
  {
    (if Text.Strip(name.GetOr([])) == [] then [NameRequired] else []) + CategoryAndDateErrors(category, date, offered)
  }

  /** The update form's checks: only the category and the date. */
  function UpdateErrors(category: Option<int>, date: Option<int>, offered: set<nat>): (r: seq<FormError>)
    ensures r == [] <==> CategoryOk(category, offered) && date.Some?
    ensures NameRequired !in r
  {
    CategoryAndDateErrors(category, date, offered)
  }

  // ---------------------------------------------------------------------------------------
  // Creating and updating

  /** The values a valid create form writes: the stripped name, the category, the photographer,
      and a new event that is not on the website and is a draft. */
  function CreateVals(name: string, category: nat, partner: nat): Events.EventVals {
    Events.EventVals(Some(name), Some(Some(partner)), Some(category), None, None, None, Some(false),
                     Some(Events.Borrador), None, None)
  }

  /** The form on a new event: create it when every check passes, and report the errors
      otherwise. `sequenced` and `token` are what `create` draws for the new event. A new event
      whose slug (the slug of its name) or portal token another event holds makes `create`
      raise, which the page does not catch: nothing is created. */
  method CreateEvent(events: Orm.Table<Events.Event>, partner: nat, name: Option<string>, category: Option<int>,
                     date: Option<int>, offered: set<nat>, sequenced: Option<string>, token: string)
    returns (r: Result<nat, seq<FormError>>)
    requires events.Valid()
    modifies events
    ensures events.Valid()
    ensures CreateErrors(name, category, date, offered) != [] ==>
      r == Err(CreateErrors(name, category, date, offered)) && unchanged(events)
    ensures CreateErrors(name, category, date, offered) == [] ==>
      var vals := CreateVals(Text.Strip(name.GetOr([])), category.value as nat, partner);
      && (r.Err? <==> !Events.CreateAllowed(old(events.rows), [vals], [token]))
      && (r.Err? ==> r.error == [DuplicateKey] && events.rows == old(events.rows))
      && (r.Ok? ==> r.value !in old(events.rows)
                    && events.rows == old(events.rows)[r.value := Events.Created(vals, r.value, sequenced, token)])
    ensures r.Ok? && Events.KeysUnique(old(events.rows)) ==> Events.KeysUnique(events.rows)
  {
    var errors := CreateErrors(name, category, date, offered);
    if errors == [] {
      var id := InsertEvent(events, CreateVals(Text.Strip(name.GetOr([])), category.value as nat, partner),
                            sequenced, token);
      r := if id.Some? then Ok(id.value) else Err([DuplicateKey]);
    } else {
      r := Err(errors);
    }
  }

  /** `create` on one set of values: the event takes a fresh id, unless it breaks a unique
      constraint. */
  method InsertEvent(events: Orm.Table<Events.Event>, vals: Events.EventVals, sequenced: Option<string>,
                     token: string)
    returns (id: Option<nat>)
    requires events.Valid()
    modifies events
    ensures events.Valid()
    ensures id.None? <==> !Events.CreateAllowed(old(events.rows), [vals], [token])
    ensures id.None? ==> events.rows == old(events.rows)
    ensures id.Some? ==>
      && id.value !in old(events.rows)
      && events.rows == old(events.rows)[id.value := Events.Created(vals, id.value, sequenced, token)]
    ensures id.Some? && Events.KeysUnique(old(events.rows)) ==> Events.KeysUnique(events.rows)
  {
    var ok, ids := Events.Create(events, [vals], [sequenced], [token]);
    if !ok {
      return None;
    }
    Events.InsertedOne(old(events.rows), events.rows, ids, vals, sequenced, token);
    id := Some(ids[0]);
  }

  /** A created event is the partner's, is a draft and is not on the website. */
  lemma CreatedEventIsPrivateDraft(name: string, category: nat, partner: nat, id: nat, sequenced: Option<string>,
                                   token: string)
    ensures var e := Events.Created(CreateVals(name, category, partner), id, sequenced, token);
      e.estado == Events.Borrador && !e.websitePublished && e.photographer == Some(partner)
      && e.category == category && e.name == name
  {
  }

  /** The values a valid update form writes: the stripped name and the category. */
  function UpdateVals(name: string, category: nat): Events.EventVals {
    Events.EventVals(Some(name), None, Some(category), None, None, None, None, None, None, None)
  }

  /** `update_event` on the partner's event: written when both checks pass, untouched otherwise.
      The form writes neither the slug nor the portal token, so the database's unique
      constraints, which the stored events satisfy, never refuse it. */
  method UpdateEvent(events: Orm.Table<Events.Event>, id: nat, name: Option<string>, category: Option<int>,
                     date: Option<int>, offered: set<nat>, sequenced: Option<string>, token: string)
    returns (errors: seq<FormError>)
    requires id in events.rows && Events.KeysUnique(events.rows)
    modifies events
    ensures errors == UpdateErrors(category, date, offered)
    ensures errors != [] ==> unchanged(events)
    ensures errors == [] ==>
      && events.nextId == old(events.nextId) && events.rows.Keys == old(events.rows).Keys
      && events.rows == old(events.rows)[id := Events.Written(old(events.rows)[id], id,
                                             UpdateVals(Text.Strip(name.GetOr([])), category.value as nat), sequenced, token)]
  {
    errors := UpdateErrors(category, date, offered);
    if errors == [] {
      var vals := UpdateVals(Text.Strip(name.GetOr([])), category.value as nat);
      Events.KeylessWriteAllowed(events.rows, [id], vals, [token]);
      var ok := Events.WriteOne(events, id, vals, sequenced, token);
    }
  }

  // ---------------------------------------------------------------------------------------
  // The detail page's actions

  datatype EventAction = UpdateAction | PublishEvent | ArchiveEvent | DeleteEvent | UnknownAction

  /** `post.get('action') or 'update_event'`. */
  function ParseAction(raw: Option<string>): (r: EventAction)
    ensures raw.None? || raw == Some([]) ==> r == UpdateAction
  {
    if raw.None? || raw == Some([]) || raw == Some("update_event") then UpdateAction
    else if raw == Some("publish_event") then PublishEvent
    else if raw == Some("archive_event") then ArchiveEvent
    else if raw == Some("delete_event") then DeleteEvent
    else UnknownAction
  }

  /** Each action name reaches its own action. */
  lemma ActionNames()
    ensures ParseAction(Some("publish_event")) == PublishEvent
    ensures ParseAction(Some("archive_event")) == ArchiveEvent
    ensures ParseAction(Some("delete_event")) == DeleteEvent
    ensures ParseAction(Some("update_event")) == UpdateAction
  {
  }

  /** The state actions of the detail page: publish and archive go through the event's own
      actions, delete unlinks the event with its photos and albums; an unknown action changes
      nothing. (The update goes through `UpdateEvent`.) */
  method StateAction(events: Orm.Table<Events.Event>, assets: Orm.Table<Assets.Asset>,
                     albums: Orm.Table<Albums.Album>, id: nat, action: EventAction, now: int)
    requires id in events.rows && action != UpdateAction
    modifies events, assets, albums
    ensures events.nextId == old(events.nextId)
    ensures action == PublishEvent ==>
      events.rows == old(events.rows)[id := Events.Publicar(old(events.rows)[id], now)]
      && unchanged(assets) && unchanged(albums)
    ensures action == ArchiveEvent ==>
      events.rows == old(events.rows)[id := Events.Archivar(old(events.rows)[id])]
      && unchanged(assets) && unchanged(albums)
    ensures action == DeleteEvent ==>
      && events.rows == old(events.rows) - {id}
      && assets.rows == old(assets.rows) - Events.PhotosOfEvents(old(assets.rows), {id})
      && albums.rows == Albums.WithoutPhotos(old(albums.rows), Events.PhotosOfEvents(old(assets.rows), {id}))
                        - Events.AlbumsOfEvents(old(albums.rows), {id})
    ensures action == UnknownAction ==> unchanged(events) && unchanged(assets) && unchanged(albums)
  {
    match action {
      case PublishEvent =>
        Events.ActionPublicar(events, [id], now);
        assert Orm.Members([id]) == {id};
      case ArchiveEvent =>
        Events.ActionArchivar(events, [id]);
        assert Orm.Members([id]) == {id};
      case DeleteEvent =>
        Events.Unlink(events, assets, albums, {id});
      case _ =>
    }
  }

  // ---------------------------------------------------------------------------------------
  // Albums under an event

  /** Why `photographer_album_create` stores no album: a blank name (the page then shows "El
      nombre del álbum es obligatorio."), or the drawn token clashing with a stored album's, which
      makes `create` raise. */
  datatype AlbumCreateError = AlbumNameRequired | TokenClash

  /** `photographer_album_create`: an album named by the stripped name under the event, made by
      the album table's `create`, so the token constraint is checked and kept. */
  method CreateAlbum(albums: Orm.Table<Albums.Album>, event: nat, name: Option<string>, token: string)
    returns (r: Result<nat, AlbumCreateError>)
    requires albums.Valid()
    modifies albums
    ensures albums.Valid()
    ensures var n := Text.Strip(name.GetOr([]));
      var vals := Albums.AlbumVals(n, event, None, None, {}, None);
      && (r == Err(AlbumNameRequired) <==> n == [])
      && (r == Err(TokenClash) <==> n != [] && !Albums.CreateAllowed(old(albums.rows), [vals], [token]))
    ensures r.Err? ==> albums.rows == old(albums.rows)
    ensures Albums.TokensUnique(old(albums.rows)) ==> Albums.TokensUnique(albums.rows)
    ensures r.Ok? ==>
      && r.value !in old(albums.rows) && albums.rows.Keys == old(albums.rows.Keys) + {r.value}
      && Orm.Extends(old(albums.rows), albums.rows)
      && albums.rows[r.value].name == Text.Strip(name.GetOr([]))
      && albums.rows[r.value].event == event && albums.rows[r.value].assets == {}
      && albums.rows[r.value].state == Albums.Draft && albums.rows[r.value].isPrivate
      && albums.rows[r.value].customerToken == Some(token)
  {
    var n := Text.Strip(name.GetOr([]));
    if n == [] {
      return Err(AlbumNameRequired);
    }
    var vals := Albums.AlbumVals(n, event, None, None, {}, None);
    var ok, ids := Albums.Create(albums, [vals], [token]);
    if !ok {
      return Err(TokenClash);
    }
    assert ids[0] in Orm.Members(ids);
    r := Ok(ids[0]);
  }
}
