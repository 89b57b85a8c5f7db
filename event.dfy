/** Events (`tienda.foto.evento`): the production stage flow, the three state actions, the
    normalised website slug, the upload and portal tokens that are filled in once and then kept,
    the link to the photographer's active subscription, and deletion with its photos and albums. */
module Events {
  import opened Wrappers
  import Text
  import Slugs
  import Orm
  import Subscriptions
  import Assets
  import Albums

  datatype Estado = Borrador | Produccion | Revision | Publicado | Archivado

  datatype Stage = Planning | Shooting | Editing | Proofing | Selling | Completed | StageArchived

  /** An event; the empty string stands for an unset token (`False` in the ORM). */
  datatype Event = Event(
    name: string,
    photographer: Option<nat>,
    category: nat,
    planSubscription: Option<nat>,
    websiteSlug: string,
    portalToken: string,
    uploadToken: string,
    websitePublished: bool,
    estado: Estado,
    stage: Stage,
    publishedAt: Option<int>)

  const SLUG_FALLBACK: string := "evento"

  // ---------------------------------------------------------------------------------------
  // action_next_stage

  /** The `stage_flow` table: every stage but archived has a successor. */
  function Successor(s: Stage): (r: Option<Stage>)
    ensures r.None? <==> s == StageArchived
  {
    match s
    case Planning => Some(Shooting)
    case Shooting => Some(Editing)
    case Editing => Some(Proofing)
    case Proofing => Some(Selling)
    case Selling => Some(Completed)
    case Completed => Some(StageArchived)
    case StageArchived => None
  }

  /** The position of a stage in the flow. */
  function Rank(s: Stage): nat {
    match s
    case Planning => 0
    case Shooting => 1
    case Editing => 2
    case Proofing => 3
    case Selling => 4
    case Completed => 5
    case StageArchived => 6
  }

  /** `action_next_stage` on one event: one step moves exactly one place forward along the flow
      and changes nothing else; an archived event stays put. */
  function NextStage(e: Event): (r: Event)
    ensures e.stage == StageArchived ==> r == e
    ensures e.stage != StageArchived ==> Rank(r.stage) == Rank(e.stage) + 1
    ensures r.(stage := e.stage) == e
  {
    var next := Successor(e.stage);
    if next.Some? then e.(stage := next.value) else e
  }

  /** `n` successive calls of the action. */
  function Steps(e: Event, n: nat): Event
    decreases n
  {
    if n == 0 then e else Steps(NextStage(e), n - 1)
  }

  /** Whatever its stage, an event reaches archived after `6 - rank` steps and stays there. */
  lemma {:induction false} StepsReachArchived(e: Event, n: nat)
    requires n >= 6 - Rank(e.stage)
    ensures Steps(e, n).stage == StageArchived
    ensures Steps(e, n).(stage := e.stage) == e
    decreases n
  {
    if n > 0 {
      StepsReachArchived(NextStage(e), n - 1);
    }
  }

  method ActionNextStage(t: Orm.Table<Event>, ids: seq<nat>)
    requires Orm.IsRecordset(ids, t.rows)
    modifies t
    ensures t.nextId == old(t.nextId)
    ensures t.rows == Orm.Updated(old(t.rows), Orm.Members(ids), NextStage)
  {
    t.ApplyEach(ids, NextStage);
  }

  // ---------------------------------------------------------------------------------------
  // Slug and tokens

  /** `_ensure_upload_tokens` on one event: a missing token becomes the sequence's next value or,
      when the sequence gives nothing, the slug of `"<name>-<id>"`. */
  function EnsureUpload(e: Event, id: nat, sequenced: Option<string>): (r: Event)
    ensures e.uploadToken != [] ==> r == e
    ensures r.(uploadToken := e.uploadToken) == e
  {
    if e.uploadToken != [] then e
    else if sequenced.Some? && sequenced.value != [] then e.(uploadToken := sequenced.value)
    else e.(uploadToken := Slugs.Slugify(Some(e.name + "-" + Text.NatToString(id)), SLUG_FALLBACK))
  }

  /** `_ensure_portal_tokens` on one event. */
  function EnsurePortal(e: Event, token: string): (r: Event)
    ensures e.portalToken != [] ==> r == e
    ensures e.portalToken == [] ==> r == e.(portalToken := token)
  {
    if e.portalToken != [] then e else e.(portalToken := token)
  }

  /** The slug function never returns the empty string when its fallback is not empty. */
  lemma SlugifyNonEmpty(value: Option<string>, fallback: string)
    requires fallback != []
    ensures Slugs.Slugify(value, fallback) != []
  {
    Slugs.SlugifyShape(value, fallback);
  }

  /** After the two passes both tokens are set, provided the random token is not empty. */
  lemma EnsuredTokensSet(e: Event, id: nat, sequenced: Option<string>, token: string)
    requires token != []
    ensures EnsurePortal(EnsureUpload(e, id, sequenced), token).uploadToken != []
    ensures EnsurePortal(EnsureUpload(e, id, sequenced), token).portalToken != []
  {
    SlugifyNonEmpty(Some(e.name + "-" + Text.NatToString(id)), SLUG_FALLBACK);
  }

  /** The values given to `create` or `write`; `None` is a key that is absent. */
  datatype EventVals = EventVals(
    name: Option<string>,
    photographer: Option<Option<nat>>,
    category: Option<nat>,
    websiteSlug: Option<string>,
    portalToken: Option<string>,
    uploadToken: Option<string>,
    websitePublished: Option<bool>,
    estado: Option<Estado>,
    stage: Option<Stage>,
    publishedAt: Option<Option<int>>)

  /** The record `super().create` stores for `vals`, the slug rewritten first. */
  function NewEvent(v: EventVals): Event {
    var slugSource := if v.websiteSlug.Some? && v.websiteSlug.value != [] then v.websiteSlug else v.name;
    var slug := Slugs.Slugify(slugSource, SLUG_FALLBACK);
    Event(v.name.GetOr(""), v.photographer.GetOr(None), v.category.GetOr(0), None, slug,
          v.portalToken.GetOr(""), v.uploadToken.GetOr(""), v.websitePublished.GetOr(false),
          v.estado.GetOr(Borrador), v.stage.GetOr(Planning), v.publishedAt.GetOr(None))
  }

  lemma FallbackIsSlug()
    ensures Slugs.IsSlug(SLUG_FALLBACK)
  {
  }

  /** The slug `create` stores is the normalised slug given, or else the normalised name. */
  lemma NewEventSlug(v: EventVals)
    ensures Slugs.IsSlug(NewEvent(v).websiteSlug)
    ensures v.websiteSlug.Some? && v.websiteSlug.value != [] ==>
              NewEvent(v).websiteSlug == Slugs.Slugify(v.websiteSlug, SLUG_FALLBACK)
    ensures (v.websiteSlug.None? || v.websiteSlug.value == []) ==>
              NewEvent(v).websiteSlug == Slugs.Slugify(v.name, SLUG_FALLBACK)
  {
    FallbackIsSlug();
    var slugSource := if v.websiteSlug.Some? && v.websiteSlug.value != [] then v.websiteSlug else v.name;
    Slugs.SlugifyIsSlug(slugSource, SLUG_FALLBACK);
  }

  /** `create` for one value set: insert, then fill the tokens the values left out. */
  function Created(v: EventVals, id: nat, sequenced: Option<string>, token: string): Event {
    EnsurePortal(EnsureUpload(NewEvent(v), id, sequenced), token)
  }

  /** A created event has a well-formed slug and both tokens; tokens given in the values are kept. */
  lemma CreatedShape(v: EventVals, id: nat, sequenced: Option<string>, token: string)
    requires token != []
    ensures var e := Created(v, id, sequenced, token);
      Slugs.IsSlug(e.websiteSlug) && e.uploadToken != [] && e.portalToken != []
      && (v.uploadToken.Some? && v.uploadToken.value != [] ==> e.uploadToken == v.uploadToken.value)
      && (v.portalToken.Some? && v.portalToken.value != [] ==> e.portalToken == v.portalToken.value)
  {
    NewEventSlug(v);
    EnsuredTokensSet(NewEvent(v), id, sequenced, token);
  }

  // ---------------------------------------------------------------------------------------
  // The unique constraints `unique(website_slug)` and `unique(portal_token)`

  /** The two columns under a unique constraint: the slug and the portal token. */
  function Keys(e: Event): (string, string) {
    (e.websiteSlug, e.portalToken)
  }

  /** Two rows that the constraints let stand side by side: an unset value (`NULL` in the
      database) never clashes, a set one clashes with an equal one. */
  predicate Apart(x: (string, string), y: (string, string)) {
    (x.0 == [] || x.0 != y.0) && (x.1 == [] || x.1 != y.1)
  }

  /** No two events share a set slug or a set portal token. */
  predicate KeysUnique(rows: map<nat, Event>) {
    forall a, b :: a in rows && b in rows && a != b ==> Apart(Keys(rows[a]), Keys(rows[b]))
  }

  /** The slug and portal token `create` gives the event of `v`, whatever its id. */
  function NewKeys(v: EventVals, token: string): (string, string) {
    (NewEvent(v).websiteSlug, if v.portalToken.Some? && v.portalToken.value != [] then v.portalToken.value else token)
  }

  lemma CreatedKeys(v: EventVals, id: nat, sequenced: Option<string>, token: string)
    ensures Keys(Created(v, id, sequenced, token)) == NewKeys(v, token)
  {
  }

  /** The rows `create(vals_list)` inserts clash neither with a stored event nor with each other. */
  predicate CreateAllowed(rows: map<nat, Event>, valsList: seq<EventVals>, tokens: seq<string>)
    requires |tokens| == |valsList|
  {
    forall i :: 0 <= i < |valsList| ==>
      && (forall k :: k in rows ==> Apart(NewKeys(valsList[i], tokens[i]), Keys(rows[k])))
      && (forall j :: 0 <= j < |valsList| && j != i ==> Apart(NewKeys(valsList[i], tokens[i]), NewKeys(valsList[j], tokens[j])))
  }

  /** `rows1` is `rows0` with the records `ids` inserted as `create` builds them. */
  ghost predicate Inserted(rows0: map<nat, Event>, rows1: map<nat, Event>, ids: seq<nat>, valsList: seq<EventVals>,
                           sequenced: seq<Option<string>>, tokens: seq<string>)
  {
    && |ids| == |valsList| == |sequenced| == |tokens|
    && Orm.IsRecordset(ids, rows1) && Orm.Extends(rows0, rows1) && rows1.Keys == rows0.Keys + Orm.Members(ids)
    && (forall i :: 0 <= i < |ids| ==> ids[i] !in rows0 && rows1[ids[i]] == Created(valsList[i], ids[i], sequenced[i], tokens[i]))
  }

  /** The insertion keeps the constraints exactly when it is allowed. */
  lemma CreateAllowedIffKeysUnique(rows0: map<nat, Event>, rows1: map<nat, Event>, ids: seq<nat>,
                                   valsList: seq<EventVals>, sequenced: seq<Option<string>>, tokens: seq<string>)
    requires KeysUnique(rows0) && Inserted(rows0, rows1, ids, valsList, sequenced, tokens)
    ensures CreateAllowed(rows0, valsList, tokens) <==> KeysUnique(rows1)
  {
    if CreateAllowed(rows0, valsList, tokens) {
      forall a, b | a in rows1 && b in rows1 && a != b
        ensures Apart(Keys(rows1[a]), Keys(rows1[b]))
      {
        InsertedPair(rows0, rows1, ids, valsList, sequenced, tokens, a, b);
      }
    } else {
      var i :| 0 <= i < |valsList| &&
        !((forall k :: k in rows0 ==> Apart(NewKeys(valsList[i], tokens[i]), Keys(rows0[k])))
          && (forall j :: 0 <= j < |valsList| && j != i ==> Apart(NewKeys(valsList[i], tokens[i]), NewKeys(valsList[j], tokens[j]))));
      CreatedKeys(valsList[i], ids[i], sequenced[i], tokens[i]);
      if exists k :: k in rows0 && !Apart(NewKeys(valsList[i], tokens[i]), Keys(rows0[k])) {
        var k :| k in rows0 && !Apart(NewKeys(valsList[i], tokens[i]), Keys(rows0[k]));
        assert k in rows1 && rows1[k] == rows0[k] && ids[i] != k;
      } else {
        var j :| 0 <= j < |valsList| && j != i && !Apart(NewKeys(valsList[i], tokens[i]), NewKeys(valsList[j], tokens[j]));
        CreatedKeys(valsList[j], ids[j], sequenced[j], tokens[j]);
      }
    }
  }

  /** `Apart` does not depend on the order of its arguments. */
  lemma ApartSymmetric(x: (string, string), y: (string, string))
    ensures Apart(x, y) == Apart(y, x)
  {
  }

  lemma InsertedPair(rows0: map<nat, Event>, rows1: map<nat, Event>, ids: seq<nat>, valsList: seq<EventVals>,
                     sequenced: seq<Option<string>>, tokens: seq<string>, a: nat, b: nat)
    requires KeysUnique(rows0) && Inserted(rows0, rows1, ids, valsList, sequenced, tokens)
    requires CreateAllowed(rows0, valsList, tokens)
    requires a in rows1 && b in rows1 && a != b
    ensures Apart(Keys(rows1[a]), Keys(rows1[b]))
  {
    if a in rows0 && b in rows0 {
      assert rows1[a] == rows0[a] && rows1[b] == rows0[b];
    } else if a in rows0 {
      var j :| 0 <= j < |ids| && ids[j] == b;
      CreatedKeys(valsList[j], ids[j], sequenced[j], tokens[j]);
      assert rows1[a] == rows0[a];
      ApartSymmetric(Keys(rows1[a]), Keys(rows1[b]));
    } else if b in rows0 {
      var i :| 0 <= i < |ids| && ids[i] == a;
      CreatedKeys(valsList[i], ids[i], sequenced[i], tokens[i]);
      assert rows1[b] == rows0[b];
    } else {
      var i :| 0 <= i < |ids| && ids[i] == a;
      var j :| 0 <= j < |ids| && ids[j] == b;
      CreatedKeys(valsList[i], ids[i], sequenced[i], tokens[i]);
      CreatedKeys(valsList[j], ids[j], sequenced[j], tokens[j]);
    }
  }

  /** Inserting a single value set adds exactly its record under its fresh id. */
  lemma InsertedOne(rows0: map<nat, Event>, rows1: map<nat, Event>, ids: seq<nat>, v: EventVals,
                    sequenced: Option<string>, token: string)
    requires Inserted(rows0, rows1, ids, [v], [sequenced], [token])
    ensures |ids| == 1 && ids[0] !in rows0 && rows1 == rows0[ids[0] := Created(v, ids[0], sequenced, token)]
  {
    assert ids[0] !in rows0 && rows1[ids[0]] == Created([v][0], ids[0], [sequenced][0], [token][0]);
    Orm.InsertedSingle(rows0, rows1, ids, Created(v, ids[0], sequenced, token));
  }

  /** Two events named alike get the same slug: creating one whose name slugs to a slug that a
      stored event holds is refused, as the database refuses it. */
  lemma SameNameRefused(rows: map<nat, Event>, k: nat, v: EventVals, token: string)
    requires k in rows && (v.websiteSlug.None? || v.websiteSlug == Some([]))
    requires rows[k].websiteSlug == Slugs.Slugify(v.name, SLUG_FALLBACK)
    ensures !CreateAllowed(rows, [v], [token])
  {
    NewEventSlug(v);
    var x := NewKeys(v, token);
    assert x.0 == rows[k].websiteSlug && x.0 != [];
    assert !Apart(x, Keys(rows[k]));
    assert [v][0] == v && [token][0] == token;
  }

  /** `create(vals_list)`. `sequenced[i]` is what `ir.sequence` hands out for the i-th event and
      `tokens[i]` the random portal token drawn for it. A row that breaks a unique constraint
      makes the database raise, and nothing is created. */
  method Create(t: Orm.Table<Event>, valsList: seq<EventVals>, sequenced: seq<Option<string>>, tokens: seq<string>)
    returns (ok: bool, ids: seq<nat>)
    requires t.Valid() && |sequenced| == |valsList| && |tokens| == |valsList|
    modifies t
    ensures t.Valid()
    ensures ok <==> CreateAllowed(old(t.rows), valsList, tokens)
    ensures !ok ==> ids == [] && t.rows == old(t.rows)
    ensures ok ==> Inserted(old(t.rows), t.rows, ids, valsList, sequenced, tokens)
    ensures ok && KeysUnique(old(t.rows)) ==> KeysUnique(t.rows)
  {
    ok := CreateAllowed(t.rows, valsList, tokens);
    if !ok {
      return false, [];
    }
    var args := seq(|valsList|, i requires 0 <= i < |valsList| => (valsList[i], sequenced[i], tokens[i]));
    ids := t.CreateEach(args, (a: (EventVals, Option<string>, string), id: nat) => Created(a.0, id, a.1, a.2));
    if KeysUnique(old(t.rows)) {
      CreateAllowedIffKeysUnique(old(t.rows), t.rows, ids, valsList, sequenced, tokens);
    }
  }

  /** The slug `write` stores: a non-empty slug is normalised, an empty one written as given. */
  function WrittenSlug(old_: string, given: Option<string>): (r: string)
    ensures given.Some? && given.value != [] ==> Slugs.IsSlug(r)
    ensures given.None? ==> r == old_
  {
    if given.None? then old_
    else if given.value == [] then []
    else
      FallbackIsSlug();
      Slugs.SlugifyIsSlug(given, SLUG_FALLBACK);
      Slugs.Slugify(given, SLUG_FALLBACK)
  }

  /** `super().write(vals)` on one event. */
  function Assign(e: Event, v: EventVals): Event {
    Event(v.name.GetOr(e.name), v.photographer.GetOr(e.photographer), v.category.GetOr(e.category),
          e.planSubscription, WrittenSlug(e.websiteSlug, v.websiteSlug),
          v.portalToken.GetOr(e.portalToken), v.uploadToken.GetOr(e.uploadToken),
          v.websitePublished.GetOr(e.websitePublished), v.estado.GetOr(e.estado),
          v.stage.GetOr(e.stage), v.publishedAt.GetOr(e.publishedAt))
  }

  /** `write(vals)` on one event: the upload token is re-ensured when the name or the slug is
      written, the portal token when it is written empty. */
  function Written(e: Event, id: nat, v: EventVals, sequenced: Option<string>, token: string): Event {
    var a := Assign(e, v);
    var b := if v.websiteSlug.Some? || v.name.Some? then EnsureUpload(a, id, sequenced) else a;
    if v.portalToken.Some? && v.portalToken.value == [] then EnsurePortal(b, token) else b
  }

  /** Tokens already set are never replaced unless the values themselves write them. */
  lemma WriteKeepsTokens(e: Event, id: nat, v: EventVals, sequenced: Option<string>, token: string)
    ensures e.uploadToken != [] && v.uploadToken.None? ==> Written(e, id, v, sequenced, token).uploadToken == e.uploadToken
    ensures e.portalToken != [] && v.portalToken.None? ==> Written(e, id, v, sequenced, token).portalToken == e.portalToken
    ensures v.portalToken.Some? && v.portalToken.value == [] && token != [] ==>
              Written(e, id, v, sequenced, token).portalToken == token
  {
  }

  /** `write` normalises a slug it is given and leaves the slug alone otherwise. */
  lemma WriteSlug(e: Event, id: nat, v: EventVals, sequenced: Option<string>, token: string)
    ensures v.websiteSlug.Some? && v.websiteSlug.value != [] ==>
              Written(e, id, v, sequenced, token).websiteSlug == Slugs.Slugify(v.websiteSlug, SLUG_FALLBACK)
              && Slugs.IsSlug(Written(e, id, v, sequenced, token).websiteSlug)
    ensures v.websiteSlug.None? ==> Written(e, id, v, sequenced, token).websiteSlug == e.websiteSlug
  {
  }

  /** Rewriting a stored slug gives back the same slug. */
  lemma RewriteSlugIsStable(e: Event)
    requires Slugs.IsSlug(e.websiteSlug)
    ensures WrittenSlug(e.websiteSlug, Some(e.websiteSlug)) == e.websiteSlug
  {
    Slugs.SlugOfSlug(e.websiteSlug, SLUG_FALLBACK);
  }

  /** The slug and portal token `write(v)` leaves on `e`; `token` is the random token drawn when
      the portal token is written empty. */
  function WrittenKeys(e: Event, v: EventVals, token: string): (string, string) {
    (WrittenSlug(e.websiteSlug, v.websiteSlug), if v.portalToken == Some([]) then token else v.portalToken.GetOr(e.portalToken))
  }

  lemma WrittenKeysOf(e: Event, id: nat, v: EventVals, sequenced: Option<string>, token: string)
    ensures Keys(Written(e, id, v, sequenced, token)) == WrittenKeys(e, v, token)
  {
  }

  /** The rows `write(v)` produces on the recordset `ids` clash neither with an event left alone
      nor with each other. */
  predicate WriteAllowed(rows: map<nat, Event>, ids: seq<nat>, v: EventVals, tokens: seq<string>)
    requires Orm.IsRecordset(ids, rows) && |tokens| == |ids|
  {
    forall i :: 0 <= i < |ids| ==>
      && (forall k :: k in rows && k !in ids ==> Apart(WrittenKeys(rows[ids[i]], v, tokens[i]), Keys(rows[k])))
      && (forall j :: 0 <= j < |ids| && j != i ==>
            Apart(WrittenKeys(rows[ids[i]], v, tokens[i]), WrittenKeys(rows[ids[j]], v, tokens[j])))
  }

  /** `rows1` is `rows0` with the recordset `ids` written with `v`. */
  ghost predicate Rewritten(rows0: map<nat, Event>, rows1: map<nat, Event>, ids: seq<nat>, v: EventVals,
                            sequenced: seq<Option<string>>, tokens: seq<string>)
  {
    && Orm.IsRecordset(ids, rows0) && |sequenced| == |ids| && |tokens| == |ids| && rows1.Keys == rows0.Keys
    && (forall i :: 0 <= i < |ids| ==> rows1[ids[i]] == Written(rows0[ids[i]], ids[i], v, sequenced[i], tokens[i]))
    && (forall k :: k in rows0 && k !in ids ==> rows1[k] == rows0[k])
  }

  /** The write keeps the constraints exactly when it is allowed. */
  lemma WriteAllowedIffKeysUnique(rows0: map<nat, Event>, rows1: map<nat, Event>, ids: seq<nat>, v: EventVals,
                                  sequenced: seq<Option<string>>, tokens: seq<string>)
    requires KeysUnique(rows0) && Rewritten(rows0, rows1, ids, v, sequenced, tokens)
    ensures WriteAllowed(rows0, ids, v, tokens) <==> KeysUnique(rows1)
  {
    if WriteAllowed(rows0, ids, v, tokens) {
      forall a, b | a in rows1 && b in rows1 && a != b
        ensures Apart(Keys(rows1[a]), Keys(rows1[b]))
      {
        RewrittenPair(rows0, rows1, ids, v, sequenced, tokens, a, b);
      }
    } else {
      var i :| 0 <= i < |ids| &&
        !((forall k :: k in rows0 && k !in ids ==> Apart(WrittenKeys(rows0[ids[i]], v, tokens[i]), Keys(rows0[k])))
          && (forall j :: 0 <= j < |ids| && j != i ==>
                Apart(WrittenKeys(rows0[ids[i]], v, tokens[i]), WrittenKeys(rows0[ids[j]], v, tokens[j]))));
      WrittenKeysOf(rows0[ids[i]], ids[i], v, sequenced[i], tokens[i]);
      if exists k :: k in rows0 && k !in ids && !Apart(WrittenKeys(rows0[ids[i]], v, tokens[i]), Keys(rows0[k])) {
        var k :| k in rows0 && k !in ids && !Apart(WrittenKeys(rows0[ids[i]], v, tokens[i]), Keys(rows0[k]));
        assert rows1[k] == rows0[k] && ids[i] != k;
      } else {
        var j :| 0 <= j < |ids| && j != i &&
          !Apart(WrittenKeys(rows0[ids[i]], v, tokens[i]), WrittenKeys(rows0[ids[j]], v, tokens[j]));
        WrittenKeysOf(rows0[ids[j]], ids[j], v, sequenced[j], tokens[j]);
      }
    }
  }

  lemma RewrittenPair(rows0: map<nat, Event>, rows1: map<nat, Event>, ids: seq<nat>, v: EventVals,
                      sequenced: seq<Option<string>>, tokens: seq<string>, a: nat, b: nat)
    requires KeysUnique(rows0) && Rewritten(rows0, rows1, ids, v, sequenced, tokens)
    requires WriteAllowed(rows0, ids, v, tokens)
    requires a in rows1 && b in rows1 && a != b
    ensures Apart(Keys(rows1[a]), Keys(rows1[b]))
  {
    if a !in ids && b !in ids {
      assert rows1[a] == rows0[a] && rows1[b] == rows0[b];
    } else if a !in ids {
      var j :| 0 <= j < |ids| && ids[j] == b;
      WrittenKeysOf(rows0[b], b, v, sequenced[j], tokens[j]);
      assert rows1[a] == rows0[a];
      ApartSymmetric(Keys(rows1[a]), Keys(rows1[b]));
    } else if b !in ids {
      var i :| 0 <= i < |ids| && ids[i] == a;
      WrittenKeysOf(rows0[a], a, v, sequenced[i], tokens[i]);
      assert rows1[b] == rows0[b];
    } else {
      var i :| 0 <= i < |ids| && ids[i] == a;
      var j :| 0 <= j < |ids| && ids[j] == b;
      WrittenKeysOf(rows0[a], a, v, sequenced[i], tokens[i]);
      WrittenKeysOf(rows0[b], b, v, sequenced[j], tokens[j]);
    }
  }

  /** A write that sets neither the slug nor the portal token never trips the constraints. */
  lemma KeylessWriteAllowed(rows: map<nat, Event>, ids: seq<nat>, v: EventVals, tokens: seq<string>)
    requires Orm.IsRecordset(ids, rows) && |tokens| == |ids| && KeysUnique(rows)
    requires v.websiteSlug.None? && v.portalToken.None?
    ensures WriteAllowed(rows, ids, v, tokens)
  {
    forall i | 0 <= i < |ids|
      ensures forall k :: k in rows && k !in ids ==> Apart(WrittenKeys(rows[ids[i]], v, tokens[i]), Keys(rows[k]))
      ensures forall j :: 0 <= j < |ids| && j != i ==>
                Apart(WrittenKeys(rows[ids[i]], v, tokens[i]), WrittenKeys(rows[ids[j]], v, tokens[j]))
    {
      assert WrittenKeys(rows[ids[i]], v, tokens[i]) == Keys(rows[ids[i]]);
      forall j | 0 <= j < |ids| && j != i
        ensures Apart(WrittenKeys(rows[ids[i]], v, tokens[i]), WrittenKeys(rows[ids[j]], v, tokens[j]))
      {
        assert WrittenKeys(rows[ids[j]], v, tokens[j]) == Keys(rows[ids[j]]);
      }
    }
  }

  /** One non-empty slug written to two events or more always clashes. */
  lemma SharedSlugRefused(rows: map<nat, Event>, ids: seq<nat>, v: EventVals, tokens: seq<string>)
    requires Orm.IsRecordset(ids, rows) && |tokens| == |ids| && |ids| >= 2
    requires v.websiteSlug.Some? && v.websiteSlug.value != []
    ensures !WriteAllowed(rows, ids, v, tokens)
  {
    var x := WrittenKeys(rows[ids[0]], v, tokens[0]);
    var y := WrittenKeys(rows[ids[1]], v, tokens[1]);
    assert x.0 == y.0 && x.0 != [];
    assert !Apart(x, y);
  }

  /** `write(vals)` on a recordset: rejected by the database, with nothing written, when a
      written slug or portal token clashes. */
  method Write(t: Orm.Table<Event>, ids: seq<nat>, v: EventVals, sequenced: seq<Option<string>>, tokens: seq<string>)
    returns (ok: bool)
    requires Orm.IsRecordset(ids, t.rows) && |sequenced| == |ids| && |tokens| == |ids|
    modifies t
    ensures t.nextId == old(t.nextId)
    ensures ok <==> WriteAllowed(old(t.rows), ids, v, tokens)
    ensures !ok ==> t.rows == old(t.rows)
    ensures ok ==> Rewritten(old(t.rows), t.rows, ids, v, sequenced, tokens)
    ensures ok && KeysUnique(old(t.rows)) ==> KeysUnique(t.rows)
  {
    ok := WriteAllowed(t.rows, ids, v, tokens);
    if ok {
      t.ApplyAt(ids, (i: nat, id: nat, e: Event) =>
        if i < |ids| then Written(e, id, v, sequenced[i], tokens[i]) else e);
      if KeysUnique(old(t.rows)) {
        WriteAllowedIffKeysUnique(old(t.rows), t.rows, ids, v, sequenced, tokens);
      }
    }
  }

  /** `write(vals)` on a single event. */
  method WriteOne(t: Orm.Table<Event>, id: nat, v: EventVals, sequenced: Option<string>, token: string)
    returns (ok: bool)
    requires id in t.rows
    modifies t
    ensures t.nextId == old(t.nextId)
    ensures ok <==> WriteAllowed(old(t.rows), [id], v, [token])
    ensures t.rows == if ok then old(t.rows)[id := Written(old(t.rows)[id], id, v, sequenced, token)] else old(t.rows)
    ensures ok && KeysUnique(old(t.rows)) ==> KeysUnique(t.rows)
  {
    ok := WriteAllowed(t.rows, [id], v, [token]);
    if ok {
      t.rows := t.rows[id := Written(t.rows[id], id, v, sequenced, token)];
      if KeysUnique(old(t.rows)) {
        WriteAllowedIffKeysUnique(old(t.rows), t.rows, [id], v, [sequenced], [token]);
      }
    }
  }

  // ---------------------------------------------------------------------------------------
  // State actions

  /** `action_publicar`: published on the website, selling, stamped with `now`. */
  function PublicarVals(now: int): EventVals {
    EventVals(None, None, None, None, None, None, Some(true), Some(Publicado), Some(Selling), Some(Some(now)))
  }

  /** `action_archivar`. */
  const ArchivarVals: EventVals :=
    EventVals(None, None, None, None, None, None, Some(false), Some(Archivado), Some(StageArchived), None)

  /** `action_volver_borrador`. */
  const VolverBorradorVals: EventVals :=
    EventVals(None, None, None, None, None, None, Some(false), Some(Borrador), Some(Planning), None)

  function Publicar(e: Event, now: int): (r: Event)
    ensures r.estado == Publicado && r.stage == Selling && r.websitePublished && r.publishedAt == Some(now)
    ensures r.(estado := e.estado, stage := e.stage, websitePublished := e.websitePublished, publishedAt := e.publishedAt) == e
  {
    e.(estado := Publicado, stage := Selling, websitePublished := true, publishedAt := Some(now))
  }

  function Archivar(e: Event): (r: Event)
    ensures r.estado == Archivado && r.stage == StageArchived && !r.websitePublished
    ensures r.(estado := e.estado, stage := e.stage, websitePublished := e.websitePublished) == e
  {
    e.(estado := Archivado, stage := StageArchived, websitePublished := false)
  }

  function VolverBorrador(e: Event): (r: Event)
    ensures r.estado == Borrador && r.stage == Planning && !r.websitePublished
    ensures r.(estado := e.estado, stage := e.stage, websitePublished := e.websitePublished) == e
  {
    e.(estado := Borrador, stage := Planning, websitePublished := false)
  }

  /** The actions go through `write`, whose slug and token hooks they never trigger. */
  lemma ActionsAreWrites(e: Event, id: nat, now: int, sequenced: Option<string>, token: string)
    ensures Written(e, id, PublicarVals(now), sequenced, token) == Publicar(e, now)
    ensures Written(e, id, ArchivarVals, sequenced, token) == Archivar(e)
    ensures Written(e, id, VolverBorradorVals, sequenced, token) == VolverBorrador(e)
  {
  }

  /** An archived event has no next stage; back to draft restarts the flow at its beginning. */
  lemma ArchivarStopsFlow(e: Event)
    ensures NextStage(Archivar(e)) == Archivar(e)
    ensures Rank(VolverBorrador(e).stage) == 0
  {
  }

  method ActionPublicar(t: Orm.Table<Event>, ids: seq<nat>, now: int)
    requires Orm.IsRecordset(ids, t.rows)
    modifies t
    ensures t.nextId == old(t.nextId)
    ensures t.rows == Orm.Updated(old(t.rows), Orm.Members(ids), e => Publicar(e, now))
  {
    t.ApplyEach(ids, e => Publicar(e, now));
  }

  method ActionArchivar(t: Orm.Table<Event>, ids: seq<nat>)
    requires Orm.IsRecordset(ids, t.rows)
    modifies t
    ensures t.nextId == old(t.nextId)
    ensures t.rows == Orm.Updated(old(t.rows), Orm.Members(ids), Archivar)
  {
    t.ApplyEach(ids, Archivar);
  }

  method ActionVolverBorrador(t: Orm.Table<Event>, ids: seq<nat>)
    requires Orm.IsRecordset(ids, t.rows)
    modifies t
    ensures t.nextId == old(t.nextId)
    ensures t.rows == Orm.Updated(old(t.rows), Orm.Members(ids), VolverBorrador)
  {
    t.ApplyEach(ids, VolverBorrador);
  }

  // ---------------------------------------------------------------------------------------
  // _compute_plan_subscription

  /** `owned[p]` lists `p.plan_subscription_ids` in their order, each owned by `p`. */
  ghost predicate Ownership(subs: map<nat, Subscriptions.Subscription>, owned: map<nat, seq<nat>>) {
    forall p, i :: p in owned && 0 <= i < |owned[p]| ==> owned[p][i] in subs && subs[owned[p][i]].partner == p
  }

  function Owned(owned: map<nat, seq<nat>>, p: nat): seq<nat> {
    if p in owned then owned[p] else []
  }

  /** The subscription an event is linked to: none without a photographer; the current one if it
      belongs to the photographer; otherwise the photographer's first trial, active or grace
      photographer subscription, if any. */
  function PlanSubscription(e: Event, subs: map<nat, Subscriptions.Subscription>, owned: map<nat, seq<nat>>): (r: Option<nat>)
    requires Ownership(subs, owned)
    ensures e.photographer.None? ==> r.None?
    ensures (e.photographer.Some? && e.planSubscription.Some? && e.planSubscription.value in subs
             && subs[e.planSubscription.value].partner == e.photographer.value) ==> r == e.planSubscription
    ensures r.Some? ==> r.value in subs && e.photographer.Some? && subs[r.value].partner == e.photographer.value
  {
    if e.photographer.None? then None
    else
      var p := e.photographer.value;
      if e.planSubscription.Some? && e.planSubscription.value in subs && subs[e.planSubscription.value].partner == p then
        e.planSubscription
      else
        var r := Orm.First(Owned(owned, p), subs, Subscriptions.ActivePhotographer);
        assert r.Some? ==> r.value in Owned(owned, p);
        r
  }

  /** When the link has to be recomputed, it is the first active photographer subscription in
      the photographer's list, and none exactly when there is no such subscription. */
  lemma PlanSubscriptionPicksFirstActive(e: Event, subs: map<nat, Subscriptions.Subscription>, owned: map<nat, seq<nat>>)
    requires Ownership(subs, owned) && e.photographer.Some?
    requires !(e.planSubscription.Some? && e.planSubscription.value in subs
               && subs[e.planSubscription.value].partner == e.photographer.value)
    ensures var ids := Owned(owned, e.photographer.value);
      var r := PlanSubscription(e, subs, owned);
      (r.None? <==> forall i :: 0 <= i < |ids| ==> !Subscriptions.ActivePhotographer(subs[ids[i]]))
      && (r.Some? ==> exists i :: 0 <= i < |ids| && ids[i] == r.value && Subscriptions.ActivePhotographer(subs[r.value])
                        && forall j :: 0 <= j < i ==> !Subscriptions.ActivePhotographer(subs[ids[j]]))
  {
  }

  /** Recomputing the link right after computing it changes nothing. */
  lemma PlanSubscriptionIdempotent(e: Event, subs: map<nat, Subscriptions.Subscription>, owned: map<nat, seq<nat>>)
    requires Ownership(subs, owned)
    ensures var e2 := e.(planSubscription := PlanSubscription(e, subs, owned));
      PlanSubscription(e2, subs, owned) == e2.planSubscription
  {
    var r := PlanSubscription(e, subs, owned);
    if r.None? && e.photographer.Some? {
      var e2 := e.(planSubscription := r);
      var ids := Owned(owned, e.photographer.value);
      assert Orm.First(ids, subs, Subscriptions.ActivePhotographer).None?;
      assert PlanSubscription(e2, subs, owned) == Orm.First(ids, subs, Subscriptions.ActivePhotographer);
    }
  }

  /** `_compute_plan_subscription` on one event. */
  function Relinked(e: Event, subs: map<nat, Subscriptions.Subscription>, owned: map<nat, seq<nat>>): Event
    requires Ownership(subs, owned)
  {
    e.(planSubscription := PlanSubscription(e, subs, owned))
  }

  method ComputePlanSubscription(t: Orm.Table<Event>, ids: seq<nat>, subs: map<nat, Subscriptions.Subscription>, owned: map<nat, seq<nat>>)
    requires Orm.IsRecordset(ids, t.rows) && Ownership(subs, owned)
    modifies t
    ensures t.nextId == old(t.nextId)
    ensures t.rows == Orm.Updated(old(t.rows), Orm.Members(ids), e => Relinked(e, subs, owned))
  {
    t.ApplyEach(ids, e => Relinked(e, subs, owned));
  }

  // ---------------------------------------------------------------------------------------
  // unlink

  /** The photos whose event is among `ids`. */
  function PhotosOfEvents(assets: map<nat, Assets.Asset>, ids: set<nat>): (r: set<nat>)
    ensures r <= assets.Keys
    ensures forall k :: k in assets ==> (k in r <==> assets[k].event.Some? && assets[k].event.value in ids)
  {
    set k | k in assets && assets[k].event.Some? && assets[k].event.value in ids
  }

  /** The albums whose event is among `ids`. */
  function AlbumsOfEvents(albums: map<nat, Albums.Album>, ids: set<nat>): (r: set<nat>)
    ensures r <= albums.Keys
    ensures forall k :: k in albums ==> (k in r <==> albums[k].event in ids)
  {
    set k | k in albums && albums[k].event in ids
  }

  /** `unlink()` on the events `ids`: their photos are deleted, then their albums (without the
      albums' own photo cleanup), then the events. */
  method Unlink(events: Orm.Table<Event>, assets: Orm.Table<Assets.Asset>, albums: Orm.Table<Albums.Album>, ids: set<nat>)
    modifies events, assets, albums
    ensures events.nextId == old(events.nextId) && assets.nextId == old(assets.nextId) && albums.nextId == old(albums.nextId)
    ensures events.rows == old(events.rows) - ids
    ensures assets.rows == old(assets.rows) - PhotosOfEvents(old(assets.rows), ids)
    ensures albums.rows == Albums.WithoutPhotos(old(albums.rows), PhotosOfEvents(old(assets.rows), ids))
                           - AlbumsOfEvents(old(albums.rows), ids)
  {
    var photos := PhotosOfEvents(assets.rows, ids);
    if photos != {} {
      assets.Unlink(photos);
      albums.rows := Albums.WithoutPhotos(albums.rows, photos);
    } else {
      forall k | k in albums.rows
        ensures Albums.WithoutPhotos(albums.rows, photos)[k] == albums.rows[k]
      {
        assert albums.rows[k].assets - photos == albums.rows[k].assets;
      }
      assert Albums.WithoutPhotos(albums.rows, photos) == albums.rows;
    }
    var gone := AlbumsOfEvents(albums.rows, ids);
    assert gone == AlbumsOfEvents(old(albums.rows), ids);
    if gone != {} {
      Albums.Unlink(albums, assets, gone, true);
    }
    events.Unlink(ids);
  }

  /** After the cascade no remaining photo or album belongs to a deleted event. */
  lemma UnlinkLeavesNoOrphans(assets: map<nat, Assets.Asset>, albums: map<nat, Albums.Album>, ids: set<nat>)
    ensures var a := assets - PhotosOfEvents(assets, ids);
      forall k :: k in a ==> !(a[k].event.Some? && a[k].event.value in ids)
    ensures var b := Albums.WithoutPhotos(albums, PhotosOfEvents(assets, ids)) - AlbumsOfEvents(albums, ids);
      forall k :: k in b ==> b[k].event !in ids && b[k].assets !! PhotosOfEvents(assets, ids)
  {
  }
}
