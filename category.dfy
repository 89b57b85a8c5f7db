/** Categories (`tienda.foto.categoria`): event counts, the normalised and unique slug, the
    `create` that updates an existing system category instead of duplicating it, and the state
    actions. */
module Categories {
  import opened Wrappers
  import Slugs
  import Orm
  import Events

  datatype CatEstado = Borrador | Publicado | Archivado

  datatype Category = Category(
    name: string,
    slug: string,
    estado: CatEstado,
    websitePublished: bool,
    displayOnHomepage: bool,
    isSystem: bool,
    eventCount: nat,
    websiteEventCount: nat)

  const SLUG_FALLBACK: string := "categoria"

  /** The `slug_unique` constraint, and the slug being required. */
  predicate SlugsOk(rows: map<nat, Category>) {
    (forall j, k :: j in rows && k in rows && rows[j].slug == rows[k].slug ==> j == k)
    && forall k :: k in rows ==> rows[k].slug != []
  }

  // ---------------------------------------------------------------------------------------
  // _compute_event_metrics

  /** `evento_ids`: the events of category `cat`, in the order of `order`. */
  function EventsOf(cat: nat, order: seq<nat>, events: map<nat, Events.Event>): seq<nat>
    requires Orm.IsRecordset(order, events)
  {
    Orm.Filter(order, events, (e: Events.Event) => e.category == cat)
  }

  predicate OnWebsite(e: Events.Event) {
    e.websitePublished && e.estado == Events.Publicado
  }

  /** `_compute_event_metrics` on one category. */
  function WithMetrics(c: Category, cat: nat, order: seq<nat>, events: map<nat, Events.Event>): (r: Category)
    requires Orm.IsRecordset(order, events)
  {
    var mine := EventsOf(cat, order, events);
    c.(eventCount := |mine|, websiteEventCount := |Orm.Filter(mine, events, OnWebsite)|)
  }

  /** The website count counts the category's published, website-visible events, so it never
      exceeds the event count; the event count counts every event of the category. */
  lemma MetricsBounds(c: Category, cat: nat, order: seq<nat>, events: map<nat, Events.Event>)
    requires Orm.IsRecordset(order, events)
    ensures var r := WithMetrics(c, cat, order, events);
      r.websiteEventCount <= r.eventCount
      && (forall k :: k in EventsOf(cat, order, events) <==> k in order && events[k].category == cat)
      && (forall k :: k in Orm.Filter(EventsOf(cat, order, events), events, OnWebsite) <==>
            k in order && events[k].category == cat && OnWebsite(events[k]))
      && r.(eventCount := c.eventCount, websiteEventCount := c.websiteEventCount) == c
  {
  }

  method ComputeEventMetrics(t: Orm.Table<Category>, ids: seq<nat>, order: seq<nat>, events: map<nat, Events.Event>)
    requires Orm.IsRecordset(ids, t.rows) && Orm.IsRecordset(order, events)
    modifies t
    ensures t.nextId == old(t.nextId) && t.rows.Keys == old(t.rows).Keys
    ensures forall i :: 0 <= i < |ids| ==> t.rows[ids[i]] == WithMetrics(old(t.rows)[ids[i]], ids[i], order, events)
    ensures forall k :: k in t.rows && k !in ids ==> t.rows[k] == old(t.rows)[k]
  {
    t.ApplyAt(ids, (i: nat, id: nat, c: Category) => WithMetrics(c, id, order, events));
  }

  // ---------------------------------------------------------------------------------------
  // Slug, write and the actions

  /** `_prepare_slug(value)` on a record named `recordName`: `value or name or ''`, slugified
      with the fallback `categoria`. */
  function PrepareSlug(value: Option<string>, recordName: string): string {
    var base := if value.Some? && value.value != [] then value.value else recordName;
    Slugs.Slugify(Some(base), SLUG_FALLBACK)
  }

  /** A prepared slug is always a well-formed slug, never empty. */
  lemma PrepareSlugIsSlug(value: Option<string>, recordName: string)
    ensures Slugs.IsSlug(PrepareSlug(value, recordName))
  {
    FallbackIsSlug();
    var base := if value.Some? && value.value != [] then value.value else recordName;
    Slugs.SlugifyIsSlug(Some(base), SLUG_FALLBACK);
  }

  lemma FallbackIsSlug()
    ensures Slugs.IsSlug(SLUG_FALLBACK)
  {
  }

  /** Preparing a prepared slug gives it back. */
  lemma PrepareSlugIdempotent(value: Option<string>, recordName: string, otherName: string)
    ensures PrepareSlug(Some(PrepareSlug(value, recordName)), otherName) == PrepareSlug(value, recordName)
  {
    PrepareSlugIsSlug(value, recordName);
    Slugs.SlugOfSlug(PrepareSlug(value, recordName), SLUG_FALLBACK);
  }

  /** The values given to `create` or `write`; `None` is an absent key. */
  datatype CatVals = CatVals(
    name: Option<string>,
    slug: Option<string>,
    estado: Option<CatEstado>,
    websitePublished: Option<bool>,
    displayOnHomepage: Option<bool>,
    isSystem: Option<bool>)

  /** `write(vals)` on one category: a non-empty slug is prepared first. */
  function Write(c: Category, v: CatVals): (r: Category)
    ensures v.slug.Some? && v.slug.value != [] ==> r.slug == PrepareSlug(v.slug, c.name)
    ensures v.slug.None? ==> r.slug == c.slug
  {
    var slug := if v.slug.None? then c.slug else if v.slug.value == [] then [] else PrepareSlug(v.slug, c.name);
    Category(v.name.GetOr(c.name), slug, v.estado.GetOr(c.estado), v.websitePublished.GetOr(c.websitePublished),
             v.displayOnHomepage.GetOr(c.displayOnHomepage), v.isSystem.GetOr(c.isSystem),
             c.eventCount, c.websiteEventCount)
  }

  /** Whether the database accepts `write(v)` on `ids`: it writes no slug, or a non-empty one to a
      single record whose prepared slug no other record holds. */
  predicate WriteAllowed(rows: map<nat, Category>, ids: seq<nat>, v: CatVals)
    requires Orm.IsRecordset(ids, rows)
  {
    v.slug.None? || ids == []
    || (v.slug.value != [] && |ids| == 1
        && forall k :: k in rows && k != ids[0] ==> rows[k].slug != PrepareSlug(v.slug, rows[ids[0]].name))
  }

  function WriteAll(rows: map<nat, Category>, ids: seq<nat>, v: CatVals): map<nat, Category> {
    Orm.Updated(rows, Orm.Members(ids), c => Write(c, v))
  }

  /** A write that leaves every slug as it was. */
  lemma SlugsUnchanged(rows: map<nat, Category>, ids: seq<nat>, v: CatVals)
    requires Orm.IsRecordset(ids, rows) && SlugsOk(rows)
    requires forall k :: k in rows ==> WriteAll(rows, ids, v)[k].slug == rows[k].slug
    ensures SlugsOk(WriteAll(rows, ids, v))
  {
  }

  /** A write of one slug to one record whose new slug no other record holds. */
  lemma OneFreshSlug(rows: map<nat, Category>, id: nat, v: CatVals)
    requires id in rows && SlugsOk(rows) && v.slug.Some? && v.slug.value != []
    requires forall k :: k in rows && k != id ==> rows[k].slug != PrepareSlug(v.slug, rows[id].name)
    ensures SlugsOk(WriteAll(rows, [id], v))
  {
    var after := WriteAll(rows, [id], v);
    var slug := PrepareSlug(v.slug, rows[id].name);
    PrepareSlugIsSlug(v.slug, rows[id].name);
    assert Orm.Members([id]) == {id};
    assert after[id].slug == slug;
    forall j, k | j in after && k in after && after[j].slug == after[k].slug
      ensures j == k
    {
      if j != id {
        assert after[j] == rows[j];
      }
      if k != id {
        assert after[k] == rows[k];
      }
    }
  }

  /** A write the database lets through keeps the slugs unique and set; one it stops would have
      duplicated a slug or emptied a required one. */
  lemma WriteAllowedIffSlugsOk(rows: map<nat, Category>, ids: seq<nat>, v: CatVals)
    requires Orm.IsRecordset(ids, rows) && SlugsOk(rows)
    ensures WriteAllowed(rows, ids, v) <==> SlugsOk(WriteAll(rows, ids, v))
  {
    if v.slug.None? || ids == [] {
      SlugsUnchanged(rows, ids, v);
    } else if v.slug.value == [] {
      EmptySlugRejected(rows, ids, v);
    } else if |ids| > 1 {
      SharedSlugRejected(rows, ids, v);
    } else if WriteAllowed(rows, ids, v) {
      assert ids == [ids[0]];
      OneFreshSlug(rows, ids[0], v);
    } else {
      TakenSlugRejected(rows, ids, v);
    }
  }

  lemma EmptySlugRejected(rows: map<nat, Category>, ids: seq<nat>, v: CatVals)
    requires Orm.IsRecordset(ids, rows) && ids != [] && v.slug == Some([])
    ensures !SlugsOk(WriteAll(rows, ids, v))
  {
    assert ids[0] in Orm.Members(ids);
    assert WriteAll(rows, ids, v)[ids[0]].slug == [];
  }

  lemma SharedSlugRejected(rows: map<nat, Category>, ids: seq<nat>, v: CatVals)
    requires Orm.IsRecordset(ids, rows) && |ids| > 1 && v.slug.Some? && v.slug.value != []
    ensures !SlugsOk(WriteAll(rows, ids, v))
  {
    var after := WriteAll(rows, ids, v);
    assert ids[0] in Orm.Members(ids) && ids[1] in Orm.Members(ids);
    assert after[ids[0]].slug == PrepareSlug(v.slug, rows[ids[0]].name);
    assert after[ids[1]].slug == PrepareSlug(v.slug, rows[ids[1]].name);
    PrepareSlugNameless(v.slug, rows[ids[0]].name, rows[ids[1]].name);
    assert ids[0] != ids[1];
  }

  /** A non-empty slug value is prepared the same whatever the record's name. */
  lemma PrepareSlugNameless(value: Option<string>, name1: string, name2: string)
    requires value.Some? && value.value != []
    ensures PrepareSlug(value, name1) == PrepareSlug(value, name2)
  {
  }

  lemma TakenSlugRejected(rows: map<nat, Category>, ids: seq<nat>, v: CatVals)
    requires Orm.IsRecordset(ids, rows) && |ids| == 1 && v.slug.Some? && v.slug.value != []
    requires !WriteAllowed(rows, ids, v)
    ensures !SlugsOk(WriteAll(rows, ids, v))
  {
    var after := WriteAll(rows, ids, v);
    var k :| k in rows && k != ids[0] && rows[k].slug == PrepareSlug(v.slug, rows[ids[0]].name);
    assert ids == [ids[0]];
    assert k !in Orm.Members(ids) && ids[0] in Orm.Members(ids);
    assert after[k].slug == after[ids[0]].slug;
  }

  /** `write(vals)`: rejected by the `slug_unique` constraint (or the required slug) and rolled
      back, or applied to every record. */
  method WriteRecords(t: Orm.Table<Category>, ids: seq<nat>, v: CatVals) returns (ok: bool)
    requires Orm.IsRecordset(ids, t.rows)
    modifies t
    ensures ok <==> WriteAllowed(old(t.rows), ids, v)
    ensures t.nextId == old(t.nextId)
    ensures t.rows == if ok then WriteAll(old(t.rows), ids, v) else old(t.rows)
  {
    ok := WriteAllowed(t.rows, ids, v);
    if ok {
      t.ApplyEach(ids, c => Write(c, v));
    }
  }

  const PublicarVals: CatVals := CatVals(None, None, Some(Publicado), Some(true), None, None)
  const ArchivarVals: CatVals := CatVals(None, None, Some(Archivado), Some(false), None, None)
  const VolverBorradorVals: CatVals := CatVals(None, None, Some(Borrador), None, None, None)
  const MarkSystemVals: CatVals := CatVals(None, None, None, None, None, Some(true))

  /** Publishing sets (publicado, on the website), archiving (archivado, off the website),
      back to draft only the state; none touches the slug. */
  lemma ActionsEffects(c: Category)
    ensures Write(c, PublicarVals) == c.(estado := Publicado, websitePublished := true)
    ensures Write(c, ArchivarVals) == c.(estado := Archivado, websitePublished := false)
    ensures Write(c, VolverBorradorVals) == c.(estado := Borrador)
    ensures Write(c, MarkSystemVals) == c.(isSystem := true)
  {
  }

  /** The actions never trip the constraint. */
  lemma ActionsAllowed(rows: map<nat, Category>, ids: seq<nat>)
    requires Orm.IsRecordset(ids, rows)
    ensures WriteAllowed(rows, ids, PublicarVals) && WriteAllowed(rows, ids, ArchivarVals)
    ensures WriteAllowed(rows, ids, VolverBorradorVals) && WriteAllowed(rows, ids, MarkSystemVals)
  {
  }

  method ActionPublicar(t: Orm.Table<Category>, ids: seq<nat>)
    requires Orm.IsRecordset(ids, t.rows)
    modifies t
    ensures t.nextId == old(t.nextId)
    ensures t.rows == WriteAll(old(t.rows), ids, PublicarVals)
  {
    var ok := WriteRecords(t, ids, PublicarVals);
  }

  method ActionArchivar(t: Orm.Table<Category>, ids: seq<nat>)
    requires Orm.IsRecordset(ids, t.rows)
    modifies t
    ensures t.nextId == old(t.nextId)
    ensures t.rows == WriteAll(old(t.rows), ids, ArchivarVals)
  {
    var ok := WriteRecords(t, ids, ArchivarVals);
  }

  method ActionVolverBorrador(t: Orm.Table<Category>, ids: seq<nat>)
    requires Orm.IsRecordset(ids, t.rows)
    modifies t
    ensures t.nextId == old(t.nextId)
    ensures t.rows == WriteAll(old(t.rows), ids, VolverBorradorVals)
  {
    var ok := WriteRecords(t, ids, VolverBorradorVals);
  }

  method ActionMarkSystem(t: Orm.Table<Category>, ids: seq<nat>)
    requires Orm.IsRecordset(ids, t.rows)
    modifies t
    ensures t.nextId == old(t.nextId)
    ensures t.rows == WriteAll(old(t.rows), ids, MarkSystemVals)
  {
    var ok := WriteRecords(t, ids, MarkSystemVals);
  }

  // ---------------------------------------------------------------------------------------
  // create: the system-category upsert

  /** The slug `create` prepares for one value set: `vals['slug'] or vals['name']`, prepared on
      the empty recordset (whose name is unset). */
  function SlugOf(v: CatVals): string {
    PrepareSlug(if v.slug.Some? && v.slug.value != [] then v.slug else v.name, "")
  }

  /** The first statement of the loop of `create`, on every value set. */
  function PrepareAll(vs: seq<CatVals>): (ps: seq<CatVals>)
    ensures |ps| == |vs| && forall i :: 0 <= i < |vs| ==> ps[i] == vs[i].(slug := Some(SlugOf(vs[i])))
  {
    seq(|vs|, i requires 0 <= i < |vs| => vs[i].(slug := Some(SlugOf(vs[i]))))
  }

  /** Every prepared value set carries a well-formed slug. */
  predicate AllPrepared(ps: seq<CatVals>) {
    forall i :: 0 <= i < |ps| ==> ps[i].slug.Some? && Slugs.IsSlug(ps[i].slug.value)
  }

  lemma PrepareAllPrepared(vs: seq<CatVals>)
    ensures AllPrepared(PrepareAll(vs))
  {
    forall i | 0 <= i < |vs|
      ensures Slugs.IsSlug(SlugOf(vs[i]))
    {
      PrepareSlugIsSlug(if vs[i].slug.Some? && vs[i].slug.value != [] then vs[i].slug else vs[i].name, "");
    }
  }

  predicate SystemVals(v: CatVals) { v.isSystem == Some(true) }

  /** Some record of `rows` holds `slug`: what `search([('slug', '=', slug)], limit=1)` finds. */
  predicate Holds(rows: map<nat, Category>, slug: string) {
    exists k :: k in rows && rows[k].slug == slug
  }

  /** A prepared value set that updates an existing record: a system category whose slug is taken. */
  predicate Upserts(rows: map<nat, Category>, p: CatVals) {
    SystemVals(p) && Holds(rows, p.slug.GetOr([]))
  }

  /** An existing category after the prepared value sets `ps`: each system value set carrying its
      slug is written to it, in order. */
  function Upsert(c: Category, ps: seq<CatVals>): Category
    decreases |ps|
  {
    if ps == [] then c
    else
      var before := Upsert(c, ps[..|ps| - 1]);
      var p := ps[|ps| - 1];
      if SystemVals(p) && p.slug == Some(before.slug) then Write(before, p) else before
  }

  /** Writing a prepared value set back to the category that holds its slug keeps that slug. */
  lemma {:induction false} UpsertKeepsSlug(c: Category, ps: seq<CatVals>)
    requires AllPrepared(ps)
    ensures Upsert(c, ps).slug == c.slug
    decreases |ps|
  {
    if ps != [] {
      UpsertKeepsSlug(c, ps[..|ps| - 1]);
      var p := ps[|ps| - 1];
      Slugs.SlugOfSlug(p.slug.value, SLUG_FALLBACK);
    }
  }

  /** The prepared value sets `create` passes on to `super().create`, in order. */
  function Inserts(rows: map<nat, Category>, ps: seq<CatVals>): (r: seq<CatVals>)
    ensures |r| <= |ps|
    ensures forall i :: 0 <= i < |r| ==> r[i] in ps
    decreases |ps|
  {
    if ps == [] then []
    else
      var rest := Inserts(rows, ps[..|ps| - 1]);
      var p := ps[|ps| - 1];
      if Upserts(rows, p) then rest else rest + [p]
  }

  /** The database accepts the insertion: the inserted slugs are distinct and none is taken. */
  predicate CreateAllowed(rows: map<nat, Category>, vs: seq<CatVals>) {
    InsertAllowed(rows, Inserts(rows, PrepareAll(vs)))
  }

  /** The inserted slugs `ins` are distinct and none is held in `rows`. */
  predicate InsertAllowed(rows: map<nat, Category>, ins: seq<CatVals>) {
    (forall i, j :: 0 <= i < j < |ins| ==> ins[i].slug != ins[j].slug)
    && forall i :: 0 <= i < |ins| ==> !Holds(rows, ins[i].slug.GetOr([]))
  }

  /** Whether some system value set carries the slug `slug`. */
  predicate Touched(slug: string, ps: seq<CatVals>) {
    exists i :: 0 <= i < |ps| && SystemVals(ps[i]) && ps[i].slug == Some(slug)
  }

  /** The record `super().create` stores for prepared values. */
  function NewCategory(p: CatVals): Category {
    Category(p.name.GetOr(""), p.slug.GetOr(""), p.estado.GetOr(Borrador), p.websitePublished.GetOr(false),
             p.displayOnHomepage.GetOr(false), p.isSystem.GetOr(false), 0, 0)
  }

  /** A system value set whose slug is taken updates the one record holding it and inserts
      nothing; every other value set is inserted. */
  lemma UpsertNext(rows: map<nat, Category>, ps: seq<CatVals>, i: nat)
    requires SlugsOk(rows) && AllPrepared(ps) && i < |ps|
    ensures Inserts(rows, ps[..i + 1]) ==
              if Upserts(rows, ps[i]) then Inserts(rows, ps[..i]) else Inserts(rows, ps[..i]) + [ps[i]]
    ensures forall k :: k in rows ==>
              Upsert(rows[k], ps[..i + 1]) ==
                if SystemVals(ps[i]) && ps[i].slug == Some(rows[k].slug) then Write(Upsert(rows[k], ps[..i]), ps[i])
                else Upsert(rows[k], ps[..i])
  {
    assert ps[..i + 1][..i] == ps[..i];
    assert AllPrepared(ps[..i]);
    forall k | k in rows
      ensures Upsert(rows[k], ps[..i]).slug == rows[k].slug
    {
      UpsertKeepsSlug(rows[k], ps[..i]);
    }
  }

  /** Every inserted value set carries a non-empty slug. */
  lemma InsertsPrepared(rows: map<nat, Category>, ps: seq<CatVals>)
    requires AllPrepared(ps)
    ensures forall i :: 0 <= i < |Inserts(rows, ps)| ==>
              Inserts(rows, ps)[i].slug.Some? && Inserts(rows, ps)[i].slug.value != []
  {
  }

  /** The table `after` the commit of `create`: the upserted copy `cur` of the records `rows`
      (their slugs unchanged) and the allowed insertions `ins` under the new ids `ids`. */
  ghost predicate Committed(rows: map<nat, Category>, cur: map<nat, Category>, ins: seq<CatVals>,
                            ids: seq<nat>, after: map<nat, Category>) {
    cur.Keys == rows.Keys
    && (forall k :: k in cur ==> cur[k].slug == rows[k].slug)
    && (forall i, j :: 0 <= i < j < |ins| ==> ins[i].slug != ins[j].slug)
    && (forall i :: 0 <= i < |ins| ==> !Holds(rows, ins[i].slug.GetOr([])))
    && (forall i :: 0 <= i < |ins| ==> ins[i].slug.Some? && ins[i].slug.value != [])
    && |ids| == |ins| && after.Keys == cur.Keys + Orm.Members(ids)
    && (forall k :: k in cur ==> after[k] == cur[k])
    && (forall i :: 0 <= i < |ids| ==> ids[i] !in cur && after[ids[i]] == NewCategory(ins[i]))
  }

  /** An inserted record carries its value set's slug, which is non-empty and held by no
      existing record. */
  lemma InsertedRecord(rows: map<nat, Category>, cur: map<nat, Category>, ins: seq<CatVals>,
                       ids: seq<nat>, after: map<nat, Category>, k: nat)
    requires Committed(rows, cur, ins, ids, after) && k in after && k !in cur
    ensures exists i :: 0 <= i < |ids| && ids[i] == k && after[k].slug == ins[i].slug.value
    ensures after[k].slug != [] && forall j :: j in cur ==> cur[j].slug != after[k].slug
  {
    var i :| 0 <= i < |ids| && ids[i] == k;
    assert after[k].slug == ins[i].slug.value;
    assert !Holds(rows, ins[i].slug.GetOr([]));
  }

  /** Two records of the committed table that share a slug are the same record. */
  lemma CommittedPair(rows: map<nat, Category>, cur: map<nat, Category>, ins: seq<CatVals>,
                      ids: seq<nat>, after: map<nat, Category>, j: nat, k: nat)
    requires SlugsOk(rows) && Committed(rows, cur, ins, ids, after)
    requires j in after && k in after && after[j].slug == after[k].slug
    ensures j == k
  {
    if j !in cur {
      InsertedRecord(rows, cur, ins, ids, after, j);
    }
    if k !in cur {
      InsertedRecord(rows, cur, ins, ids, after, k);
    }
    if j !in cur && k !in cur {
      var a :| 0 <= a < |ids| && ids[a] == j && after[j].slug == ins[a].slug.value;
      var b :| 0 <= b < |ids| && ids[b] == k && after[k].slug == ins[b].slug.value;
      assert ins[a].slug == ins[b].slug;
    }
  }

  /** The table after the upserts and the insertions still satisfies the constraints when the
      insertion was allowed. */
  lemma CommittedSlugsOk(rows: map<nat, Category>, cur: map<nat, Category>, ins: seq<CatVals>,
                         ids: seq<nat>, after: map<nat, Category>)
    requires SlugsOk(rows) && Committed(rows, cur, ins, ids, after)
    ensures SlugsOk(after)
  {
    forall k | k in after && k !in cur
      ensures after[k].slug != []
    {
      InsertedRecord(rows, cur, ins, ids, after, k);
    }
    forall j, k | j in after && k in after && after[j].slug == after[k].slug
      ensures j == k
    {
      CommittedPair(rows, cur, ins, ids, after, j, k);
    }
  }

  /** One more value set adds its slug to those touched when it is a system one. */
  lemma TouchedNext(slug: string, ps: seq<CatVals>, i: nat)
    requires i < |ps|
    ensures Touched(slug, ps[..i + 1]) <==> Touched(slug, ps[..i]) || (SystemVals(ps[i]) && ps[i].slug == Some(slug))
  {
    var longer, shorter := ps[..i + 1], ps[..i];
    if Touched(slug, longer) {
      var j :| 0 <= j < |longer| && SystemVals(longer[j]) && longer[j].slug == Some(slug);
      if j < i {
        assert shorter[j] == longer[j];
      }
    }
    if Touched(slug, shorter) {
      var j :| 0 <= j < |shorter| && SystemVals(shorter[j]) && shorter[j].slug == Some(slug);
      assert shorter[j] == longer[j];
    }
    assert longer[i] == ps[i];
  }

  /** The loop of `create` after `i` value sets: the upserts written to a copy `cur` of the
      records, the value sets left to insert, the existing records touched. */
  ghost predicate Planned(rows: map<nat, Category>, ps: seq<CatVals>, i: nat,
                          cur: map<nat, Category>, toCreate: seq<CatVals>, records: seq<nat>) {
    i <= |ps| && cur.Keys == rows.Keys
    && (forall k :: k in cur ==> cur[k] == Upsert(rows[k], ps[..i]))
    && toCreate == Inserts(rows, ps[..i])
    && Orm.IsRecordset(records, rows)
    && (forall k :: k in records <==> k in rows && Touched(rows[k].slug, ps[..i]))
  }

  /** The copy of the records after one more value set: only the record holding its slug, if
      it is a system one, is written. */
  lemma CurNext(rows: map<nat, Category>, ps: seq<CatVals>, i: nat, cur: map<nat, Category>,
                holder: Option<nat>, cur': map<nat, Category>)
    requires SlugsOk(rows) && AllPrepared(ps) && i < |ps| && cur.Keys == rows.Keys
    requires forall k :: k in cur ==> cur[k] == Upsert(rows[k], ps[..i])
    requires holder.Some? ==> (SystemVals(ps[i]) && holder.value in rows && ps[i].slug == Some(rows[holder.value].slug)
                               && cur' == cur[holder.value := Write(cur[holder.value], ps[i])])
    requires holder.None? ==> !Upserts(rows, ps[i]) && cur' == cur
    ensures cur'.Keys == rows.Keys
    ensures forall k :: k in cur' ==> cur'[k] == Upsert(rows[k], ps[..i + 1])
  {
    UpsertNext(rows, ps, i);
    forall k | k in cur'
      ensures cur'[k] == Upsert(rows[k], ps[..i + 1])
    {
      if holder.Some? && k != holder.value {
        assert rows[k].slug != rows[holder.value].slug;
      }
    }
  }

  /** The touched records after one more value set: the record holding its slug joins them. */
  lemma RecordsNext(rows: map<nat, Category>, ps: seq<CatVals>, i: nat, records: seq<nat>,
                    holder: Option<nat>, records': seq<nat>)
    requires SlugsOk(rows) && AllPrepared(ps) && i < |ps|
    requires Orm.IsRecordset(records, rows)
    requires forall k :: k in records <==> k in rows && Touched(rows[k].slug, ps[..i])
    requires holder.Some? ==> (SystemVals(ps[i]) && holder.value in rows && ps[i].slug == Some(rows[holder.value].slug)
                               && records' == if holder.value in records then records else records + [holder.value])
    requires holder.None? ==> !Upserts(rows, ps[i]) && records' == records
    ensures Orm.IsRecordset(records', rows)
    ensures forall k :: k in records' <==> k in rows && Touched(rows[k].slug, ps[..i + 1])
  {
    forall k | k in rows
      ensures Touched(rows[k].slug, ps[..i + 1]) <==> Touched(rows[k].slug, ps[..i]) || (SystemVals(ps[i]) && ps[i].slug == Some(rows[k].slug))
    {
      TouchedNext(rows[k].slug, ps, i);
    }
    if holder.Some? {
      forall k | k in rows && SystemVals(ps[i]) && ps[i].slug == Some(rows[k].slug)
        ensures k == holder.value
      {
        assert rows[k].slug == rows[holder.value].slug;
      }
    }
  }

  /** One iteration of the loop of `create`. */
  method PlanStep(rows: map<nat, Category>, ps: seq<CatVals>, i: nat,
                  cur: map<nat, Category>, toCreate: seq<CatVals>, records: seq<nat>)
    returns (cur': map<nat, Category>, toCreate': seq<CatVals>, records': seq<nat>)
    requires SlugsOk(rows) && AllPrepared(ps) && i < |ps| && Planned(rows, ps, i, cur, toCreate, records)
    ensures Planned(rows, ps, i + 1, cur', toCreate', records')
  {
    var p := ps[i];
    UpsertNext(rows, ps, i);
    var holder: Option<nat> := None;
    cur', toCreate', records' := cur, toCreate, records;
    if SystemVals(p) && exists k :: k in rows && rows[k].slug == p.slug.value {
      var k :| k in rows && rows[k].slug == p.slug.value;
      holder := Some(k);
      cur' := cur[k := Write(cur[k], p)];
      if k !in records {
        records' := records + [k];
      }
    } else {
      toCreate' := toCreate + [p];
    }
    CurNext(rows, ps, i, cur, holder, cur');
    RecordsNext(rows, ps, i, records, holder, records');
  }

  /** The loop of `create` up to `super().create`. */
  method PlanCreate(rows: map<nat, Category>, ps: seq<CatVals>) returns (cur: map<nat, Category>, toCreate: seq<CatVals>, records: seq<nat>)
    requires SlugsOk(rows) && AllPrepared(ps)
    ensures Planned(rows, ps, |ps|, cur, toCreate, records)
  {
    cur := rows;
    toCreate := [];
    records := [];
    var i := 0;
    while i < |ps|
      invariant i <= |ps| && Planned(rows, ps, i, cur, toCreate, records)
    {
      cur, toCreate, records := PlanStep(rows, ps, i, cur, toCreate, records);
      i := i + 1;
    }
  }

  /** The planned upserts followed by the insertion of the planned value sets, when the
      insertion is allowed, leave the slugs unique and non-empty. */
  lemma PlanCommitted(rows: map<nat, Category>, ps: seq<CatVals>, cur: map<nat, Category>,
                      ids: seq<nat>, after: map<nat, Category>)
    requires SlugsOk(rows) && AllPrepared(ps) && cur.Keys == rows.Keys
    requires forall k :: k in cur ==> cur[k] == Upsert(rows[k], ps)
    requires InsertAllowed(rows, Inserts(rows, ps))
    requires |ids| == |Inserts(rows, ps)| && after.Keys == cur.Keys + Orm.Members(ids)
    requires forall k :: k in cur ==> k in after && after[k] == cur[k]
    requires forall i :: 0 <= i < |ids| ==> ids[i] !in cur && after[ids[i]] == NewCategory(Inserts(rows, ps)[i])
    ensures SlugsOk(after)
  {
    forall k | k in cur
      ensures cur[k].slug == rows[k].slug
    {
      UpsertKeepsSlug(rows[k], ps);
    }
    InsertsPrepared(rows, ps);
    CommittedSlugsOk(rows, cur, Inserts(rows, ps), ids, after);
  }

  /** `create` once every value set is prepared. On a constraint violation the whole call is
      rolled back. */
  method CreatePrepared(t: Orm.Table<Category>, ps: seq<CatVals>) returns (r: Option<seq<nat>>, inserted: seq<nat>)
    requires t.Valid() && SlugsOk(t.rows) && AllPrepared(ps)
    modifies t
    ensures t.Valid()
    ensures r.Some? <==> InsertAllowed(old(t.rows), Inserts(old(t.rows), ps))
    ensures r.None? ==> t.rows == old(t.rows)
    ensures r.Some? ==> SlugsOk(t.rows)
    ensures r.Some? ==> forall k :: k in old(t.rows) ==> k in t.rows && t.rows[k] == Upsert(old(t.rows)[k], ps)
    ensures r.Some? ==> |inserted| == |Inserts(old(t.rows), ps)| && Orm.IsRecordset(inserted, t.rows)
                        && t.rows.Keys == old(t.rows).Keys + Orm.Members(inserted)
                        && forall i :: 0 <= i < |inserted| ==>
                             inserted[i] !in old(t.rows) && t.rows[inserted[i]] == NewCategory(Inserts(old(t.rows), ps)[i])
    ensures r.Some? ==> forall k :: k in r.value <==>
                          (k in old(t.rows) && Touched(old(t.rows)[k].slug, ps)) || k in inserted
  {
    var cur, toCreate, records := PlanCreate(t.rows, ps);
    assert ps[..|ps|] == ps;
    inserted := [];
    r := None;
    if InsertAllowed(t.rows, toCreate) {
      var rows0 := t.rows;
      t.rows := cur;
      inserted := t.CreateEach(toCreate, (p: CatVals, id: nat) => NewCategory(p));
      PlanCommitted(rows0, ps, cur, inserted, t.rows);
      r := Some(records + inserted);
    }
  }

  /** `create(vals_list)`: every value set's slug prepared, then the upsert and the insertion. */
  method Create(t: Orm.Table<Category>, vs: seq<CatVals>) returns (r: Option<seq<nat>>, inserted: seq<nat>)
    requires t.Valid() && SlugsOk(t.rows)
    modifies t
    ensures t.Valid()
    ensures r.Some? <==> CreateAllowed(old(t.rows), vs)
    ensures r.None? ==> t.rows == old(t.rows)
    ensures r.Some? ==> SlugsOk(t.rows)
    ensures r.Some? ==> forall k :: k in old(t.rows) ==> k in t.rows && t.rows[k] == Upsert(old(t.rows)[k], PrepareAll(vs))
    ensures r.Some? ==> |inserted| == |Inserts(old(t.rows), PrepareAll(vs))| && Orm.IsRecordset(inserted, t.rows)
                        && t.rows.Keys == old(t.rows).Keys + Orm.Members(inserted)
                        && forall i :: 0 <= i < |inserted| ==>
                             inserted[i] !in old(t.rows) && t.rows[inserted[i]] == NewCategory(Inserts(old(t.rows), PrepareAll(vs))[i])
    ensures r.Some? ==> forall k :: k in r.value <==>
                          (k in old(t.rows) && Touched(old(t.rows)[k].slug, PrepareAll(vs))) || k in inserted
  {
    var ps := PrepareAll(vs);
    PrepareAllPrepared(vs);
    r, inserted := CreatePrepared(t, ps);
  }

  /** A system category whose slug is already taken is never inserted again: it updates the
      record that holds the slug. */
  lemma SystemDuplicateUpdates(rows: map<nat, Category>, vs: seq<CatVals>, i: nat, k: nat)
    requires SlugsOk(rows) && i < |vs| && SystemVals(vs[i]) && k in rows && rows[k].slug == SlugOf(vs[i])
    ensures PrepareAll(vs)[i] !in Inserts(rows, PrepareAll(vs)) || exists j :: j != i && 0 <= j < |vs| && PrepareAll(vs)[j] == PrepareAll(vs)[i]
    ensures Touched(rows[k].slug, PrepareAll(vs))
  {
    var ps := PrepareAll(vs);
    assert ps[i].slug == Some(rows[k].slug);
    assert Upserts(rows, ps[i]);
    InsertsSkipUpserts(rows, ps, i);
  }

  lemma {:induction false} InsertsSkipUpserts(rows: map<nat, Category>, ps: seq<CatVals>, i: nat)
    requires i < |ps| && Upserts(rows, ps[i])
    ensures ps[i] !in Inserts(rows, ps) || exists j :: j != i && 0 <= j < |ps| && ps[j] == ps[i]
    decreases |ps|
  {
    var rest := ps[..|ps| - 1];
    var p := ps[|ps| - 1];
    if i < |ps| - 1 {
      InsertsSkipUpserts(rows, rest, i);
      if exists j :: j != i && 0 <= j < |rest| && rest[j] == rest[i] {
        var j :| j != i && 0 <= j < |rest| && rest[j] == rest[i];
        assert ps[j] == rest[j];
      }
    } else {
      if ps[i] in Inserts(rows, rest) {
        var j :| 0 <= j < |rest| && rest[j] == ps[i];
        assert ps[j] == rest[j];
      }
    }
  }
}
