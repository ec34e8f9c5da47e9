/**
 * The remote content store the seeder talks to, reduced to what the seeder relies on:
 * four collections (sites, categories, recipes, recipe packs), each indexed by natural
 * key, a create request that may fail, and a filtered read by natural key.
 *
 * A create fails when an entity with the same natural key exists (the store is assumed
 * to keep natural keys unique) or when the key is one the store refuses for any other
 * reason (a validation or permission error). Refusals are per collection and per key, so
 * a refused pack slug says nothing about a category with the same slug, and a slug
 * refused in one site may be accepted in another; they are fixed for the store's
 * lifetime. A create that succeeds assigns the next id from a counter that starts at 1.
 */
module ContentApi {
  import opened Wrappers
  import opened Fixtures

  /**
   * The natural key of an entity: a site is keyed by its domain in the global scope 0;
   * a category, recipe or pack by its slug within the site whose id is `scope`.
   */
  datatype Key = Key(name: string, scope: nat)

  /** A stored entity: the id the store assigned and the payload it was created from. */
  datatype Row<P> = Row(id: nat, data: P)

  /** Why a create request failed. */
  datatype ApiError = DuplicateKey | Rejected

  type Table<P> = map<Key, Row<P>>

  /** The keys the store refuses to create, per collection. */
  datatype Refusals = Refusals(sites: set<Key>, categories: set<Key>, recipes: set<Key>, packs: set<Key>)

  /**
   * The outcome of a create request against one collection: a taken key is a duplicate,
   * a refused key is rejected, and otherwise the row is made with the given id.
   */
  function Insert<P>(table: Table<P>, key: Key, refused: set<Key>, id: nat, data: P): (r: Result<Row<P>, ApiError>)
    ensures r.Success? <==> key !in table && key !in refused
    ensures r.Success? ==> r.value == Row(id, data)
    ensures r.Failure? ==> (r.error == DuplicateKey <==> key in table)
  {
    if key in table then Failure(DuplicateKey)
    else if key in refused then Failure(Rejected)
    else Success(Row(id, data))
  }

  /** A read filtered by equality on the natural key: the row under the key, if any. */
  function Matching<P>(table: Table<P>, key: Key): (r: seq<Row<P>>)
    ensures |r| <= 1
    ensures |r| == 1 <==> key in table
    ensures |r| == 1 ==> r[0] == table[key]
  {
    if key in table then [table[key]] else []
  }

  ghost predicate IdsPositive<P>(table: Table<P>) {
    forall k :: k in table ==> table[k].id > 0
  }

  /**
   * `t2` extends `t1`: every entity of `t1` is still there unchanged, and no entity
   * that was added has a refused key.
   */
  ghost predicate Extends<P>(t1: Table<P>, t2: Table<P>, refused: set<Key>) {
    && (forall k :: k in t1 ==> k in t2 && t2[k] == t1[k])
    && (forall k :: k in t2 && k !in t1 ==> k !in refused)
  }

  /** An operation's result together with the store state after it. */
  datatype Step<T> = Step(out: T, db: Db)

  /** The whole store as a value. */
  datatype Db = Db(sites: Table<SitePayload>, categories: Table<CategoryPayload>,
                   recipes: Table<RecipePayload>, packs: Table<PackPayload>,
                   nextId: nat, refused: Refusals)
  {
    /** Every assigned id is truthy, and so is the next one. */
    ghost predicate Valid() {
      nextId > 0 && IdsPositive(sites) && IdsPositive(categories) && IdsPositive(recipes) && IdsPositive(packs)
    }

    /** POST /sites */
    function PostSite(data: SitePayload): (s: Step<Result<Row<SitePayload>, ApiError>>)
      ensures s.out.Success? <==> Key(data.domain, 0) !in sites && Key(data.domain, 0) !in refused.sites
      ensures s.out.Success? ==> s.out.value == Row(nextId, data)
      ensures s.out.Success? ==> s.db == this.(sites := sites[Key(data.domain, 0) := s.out.value], nextId := nextId + 1)
      ensures s.out.Failure? ==> s.db == this
      ensures Grows(this, s.db)
      ensures Valid() ==> s.db.Valid()
    {
      var key := Key(data.domain, 0);
      var r := Insert(sites, key, refused.sites, nextId, data);
      if r.Success? then Step(r, this.(sites := sites[key := r.value], nextId := nextId + 1))
      else Step(r, this)
    }

    /** GET /sites?filters[domain][$eq]=domain */
    function FindSites(domain: string): (r: seq<Row<SitePayload>>)
      ensures |r| <= 1
      ensures |r| == 1 <==> Key(domain, 0) in sites
      ensures |r| == 1 ==> r[0] == sites[Key(domain, 0)]
    {
      Matching(sites, Key(domain, 0))
    }

    /** POST /categories */
    function PostCategory(data: CategoryPayload): (s: Step<Result<Row<CategoryPayload>, ApiError>>)
      ensures s.out.Success? <==> Key(data.slug, data.site) !in categories && Key(data.slug, data.site) !in refused.categories
      ensures s.out.Success? ==> s.out.value == Row(nextId, data)
      ensures s.out.Success? ==> s.db == this.(categories := categories[Key(data.slug, data.site) := s.out.value], nextId := nextId + 1)
      ensures s.out.Failure? ==> s.db == this
      ensures Grows(this, s.db)
      ensures Valid() ==> s.db.Valid()
    {
      var key := Key(data.slug, data.site);
      var r := Insert(categories, key, refused.categories, nextId, data);
      if r.Success? then Step(r, this.(categories := categories[key := r.value], nextId := nextId + 1))
      else Step(r, this)
    }

    /** GET /categories?filters[slug][$eq]=slug&filters[site][id][$eq]=siteId */
    function FindCategories(slug: string, siteId: nat): (r: seq<Row<CategoryPayload>>)
      ensures |r| <= 1
      ensures |r| == 1 <==> Key(slug, siteId) in categories
      ensures |r| == 1 ==> r[0] == categories[Key(slug, siteId)]
    {
      Matching(categories, Key(slug, siteId))
    }

    /** POST /recipes */
    function PostRecipe(data: RecipePayload): (s: Step<Result<Row<RecipePayload>, ApiError>>)
      ensures s.out.Success? <==> Key(data.slug, data.site) !in recipes && Key(data.slug, data.site) !in refused.recipes
      ensures s.out.Success? ==> s.out.value == Row(nextId, data)
      ensures s.out.Success? ==> s.db == this.(recipes := recipes[Key(data.slug, data.site) := s.out.value], nextId := nextId + 1)
      ensures s.out.Failure? ==> s.db == this
      ensures Grows(this, s.db)
      ensures Valid() ==> s.db.Valid()
    {
      var key := Key(data.slug, data.site);
      var r := Insert(recipes, key, refused.recipes, nextId, data);
      if r.Success? then Step(r, this.(recipes := recipes[key := r.value], nextId := nextId + 1))
      else Step(r, this)
    }

    /** POST /recipe-packs */
    function PostPack(data: PackPayload): (s: Step<Result<Row<PackPayload>, ApiError>>)
      ensures s.out.Success? <==> Key(data.slug, data.site) !in packs && Key(data.slug, data.site) !in refused.packs
      ensures s.out.Success? ==> s.out.value == Row(nextId, data)
      ensures s.out.Success? ==> s.db == this.(packs := packs[Key(data.slug, data.site) := s.out.value], nextId := nextId + 1)
      ensures s.out.Failure? ==> s.db == this
      ensures Grows(this, s.db)
      ensures Valid() ==> s.db.Valid()
    {
      var key := Key(data.slug, data.site);
      var r := Insert(packs, key, refused.packs, nextId, data);
      if r.Success? then Step(r, this.(packs := packs[key := r.value], nextId := nextId + 1))
      else Step(r, this)
    }
  }

  /**
   * `after` is reachable from `before` by creates alone: nothing is removed or changed,
   * nothing refused is added, and the refused keys stay the same.
   */
  ghost predicate Grows(before: Db, after: Db) {
    && after.refused == before.refused
    && Extends(before.sites, after.sites, before.refused.sites)
    && Extends(before.categories, after.categories, before.refused.categories)
    && Extends(before.recipes, after.recipes, before.refused.recipes)
    && Extends(before.packs, after.packs, before.refused.packs)
  }

  lemma GrowsTransitive(a: Db, b: Db, c: Db)
    requires Grows(a, b) && Grows(b, c)
    ensures Grows(a, c)
  {
  }

  /**
   * The store as the seeder holds it: one object whose collections the create requests
   * extend in place.
   */
  class Store {
    var sites: Table<SitePayload>
    var categories: Table<CategoryPayload>
    var recipes: Table<RecipePayload>
    var packs: Table<PackPayload>
    var nextId: nat
    const refused: Refusals

    function State(): Db
      reads this
    {
      Db(sites, categories, recipes, packs, nextId, refused)
    }

    /** An empty store that refuses the given keys. */
    constructor (refused: Refusals)
      ensures State() == Db(map[], map[], map[], map[], 1, refused)
      ensures State().Valid()
    {
      sites, categories, recipes, packs := map[], map[], map[], map[];
      nextId := 1;
      this.refused := refused;
    }

    method PostSite(data: SitePayload) returns (r: Result<Row<SitePayload>, ApiError>)
      modifies this
      ensures Step(r, State()) == old(State()).PostSite(data)
    {
      var key := Key(data.domain, 0);
      r := Insert(sites, key, refused.sites, nextId, data);
      if r.Success? {
        sites := sites[key := r.value];
        nextId := nextId + 1;
      }
    }

    function FindSites(domain: string): (r: seq<Row<SitePayload>>)
      reads this
      ensures |r| <= 1
      ensures |r| == 1 <==> Key(domain, 0) in sites
      ensures |r| == 1 ==> r[0] == sites[Key(domain, 0)]
    {
      State().FindSites(domain)
    }

    method PostCategory(data: CategoryPayload) returns (r: Result<Row<CategoryPayload>, ApiError>)
      modifies this
      ensures Step(r, State()) == old(State()).PostCategory(data)
    {
      var key := Key(data.slug, data.site);
      r := Insert(categories, key, refused.categories, nextId, data);
      if r.Success? {
        categories := categories[key := r.value];
        nextId := nextId + 1;
      }
    }

    function FindCategories(slug: string, siteId: nat): (r: seq<Row<CategoryPayload>>)
      reads this
      ensures |r| <= 1
      ensures |r| == 1 <==> Key(slug, siteId) in categories
      ensures |r| == 1 ==> r[0] == categories[Key(slug, siteId)]
    {
      State().FindCategories(slug, siteId)
    }

    method PostRecipe(data: RecipePayload) returns (r: Result<Row<RecipePayload>, ApiError>)
      modifies this
      ensures Step(r, State()) == old(State()).PostRecipe(data)
    {
      var key := Key(data.slug, data.site);
      r := Insert(recipes, key, refused.recipes, nextId, data);
      if r.Success? {
        recipes := recipes[key := r.value];
        nextId := nextId + 1;
      }
    }

    method PostPack(data: PackPayload) returns (r: Result<Row<PackPayload>, ApiError>)
      modifies this
      ensures Step(r, State()) == old(State()).PostPack(data)
    {
      var key := Key(data.slug, data.site);
      r := Insert(packs, key, refused.packs, nextId, data);
      if r.Success? {
        packs := packs[key := r.value];
        nextId := nextId + 1;
      }
    }
  }
}
