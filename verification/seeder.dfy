/**
 * The seed pipeline: for every configured site, create the site, its ten standard
 * categories, the recipes of its fixture and the recipe packs of its fixture, in that
 * order, against the remote store.
 *
 * Each step is given twice: as a function on store values (SiteUpsert, CategoryPhase,
 * RecipePhase, ...) whose contract says what the step achieves, and as a method on the
 * Store object that does the work request by request and is proved to end in exactly
 * the state and result the function describes.
 */
module Seeder {
  import opened Wrappers
  import opened Fixtures
  import opened ContentApi

  // ---------------------------------------------------------------------------
  // Configuration
  // ---------------------------------------------------------------------------

  /** The sites the pipeline seeds, in order. */
  const Sites: seq<SiteConfig> := [
    SiteConfig("proteincookies.co", "ProteinCookies", "Cookies", "#f59e0b"),
    SiteConfig("proteinmuffins.com", "ProteinMuffins", "Muffins", "#f59e0b"),
    SiteConfig("proteinpancakes.co", "ProteinPancakes", "Pancakes", "#f59e0b"),
    SiteConfig("proteinbrownies.co", "ProteinBrownies", "Brownies", "#f59e0b"),
    SiteConfig("protein-bread.com", "ProteinBread", "Bread", "#f59e0b"),
    SiteConfig("proteinbars.co", "ProteinBars", "Bars", "#f59e0b"),
    SiteConfig("proteinbites.co", "ProteinBites", "Bites", "#f59e0b"),
    SiteConfig("proteindonuts.co", "ProteinDonuts", "Donuts", "#f59e0b"),
    SiteConfig("proteinoatmeal.co", "ProteinOatmeal", "Oatmeal", "#f59e0b"),
    SiteConfig("proteincheesecake.co", "ProteinCheesecake", "Cheesecake", "#f59e0b"),
    SiteConfig("proteinpizzas.co", "ProteinPizzas", "Pizza", "#f59e0b"),
    SiteConfig("proteinpudding.co", "ProteinPudding", "Pudding", "#f59e0b")
  ]

  /** The standard categories every site gets, in creation order. */
  const Categories: seq<CategoryDef> := [
    CategoryDef("All Recipes", "all", "Browse all recipes"),
    CategoryDef("Classic", "classic", "Traditional favorites with a protein boost"),
    CategoryDef("High Protein", "high-protein", "Maximum protein per serving (25g+)"),
    CategoryDef("Dessert", "dessert", "Sweet treats that fit your macros"),
    CategoryDef("Quick & Easy", "quick", "Ready in 30 minutes or less"),
    CategoryDef("Gluten-Free", "gluten-free", "Delicious without the gluten"),
    CategoryDef("Vegan", "vegan", "Plant-based protein recipes"),
    CategoryDef("Kids", "kids", "Kid-approved protein treats"),
    CategoryDef("Seasonal", "seasonal", "Holiday and seasonal favorites"),
    CategoryDef("No-Bake", "no-bake", "No oven required")
  ]

  /**
   * What a site's fixture directory holds: the recipes of recipes.json and, when
   * packs.json exists, its packs.
   */
  datatype SiteFixture = SiteFixture(recipes: seq<RawRecipe>, packs: Option<seq<RawPack>>)

  /**
   * What seeding one site produced: the site's id, the category slug to id map and,
   * when the site had a recipes fixture, the recipe slug to id map.
   */
  datatype SiteReport = SiteReport(siteId: nat, categoryMap: map<string, nat>, recipeMap: Option<map<string, nat>>)

  function CategorySlugs(cats: seq<CategoryDef>): seq<string> {
    if cats == [] then [] else [cats[0].slug] + CategorySlugs(cats[1..])
  }

  function RecipeSlugs(recipes: seq<RawRecipe>): seq<string> {
    if recipes == [] then [] else [recipes[0].slug] + RecipeSlugs(recipes[1..])
  }

  function PackSlugs(packs: seq<RawPack>): seq<string> {
    if packs == [] then [] else [packs[0].slug] + PackSlugs(packs[1..])
  }

  /** The fixture of the site with this domain, looked up under the domain's directory name. */
  function FixtureFor(fixtures: map<string, SiteFixture>, domain: string): (r: Option<SiteFixture>)
    ensures r.Some? <==> DomainKey(domain) in fixtures
    ensures r.Some? ==> r.value == fixtures[DomainKey(domain)]
  {
    var key := DomainKey(domain);
    if key in fixtures then Some(fixtures[key]) else None
  }

  // ---------------------------------------------------------------------------
  // Single entities
  // ---------------------------------------------------------------------------

  /**
   * Create the site, and when the create fails fall back to the first site with the
   * same domain; with none, the create's own error stands.
   */
  function SiteUpsert(db: Db, cfg: SiteConfig): (s: Step<Result<Row<SitePayload>, ApiError>>)
    ensures s.out.Success? <==> Key(cfg.domain, 0) in db.sites || Key(cfg.domain, 0) !in db.refused.sites
    ensures Key(cfg.domain, 0) in db.sites ==> s == Step(Success(db.sites[Key(cfg.domain, 0)]), db)
    ensures Key(cfg.domain, 0) !in db.sites && s.out.Success? ==>
      && s.out.value == Row(db.nextId, SitePayloadOf(cfg))
      && s.db == db.(sites := db.sites[Key(cfg.domain, 0) := s.out.value], nextId := db.nextId + 1)
    ensures s.out.Success? ==> Key(cfg.domain, 0) in s.db.sites && s.db.sites[Key(cfg.domain, 0)] == s.out.value
    ensures s.out.Failure? ==> s.out.error == Rejected && s.db == db
    ensures Grows(db, s.db) && (db.Valid() ==> s.db.Valid())
  {
    var created := db.PostSite(SitePayloadOf(cfg));
    if created.out.Success? then created
    else
      var existing := created.db.FindSites(cfg.domain);
      if |existing| > 0 then Step(Success(existing[0]), created.db)
      else Step(Failure(created.out.error), created.db)
  }

  /**
   * Create the category in the site, and when the create fails fall back to the first
   * category with the same slug in that site; with none, the create's own error stands.
   */
  function CategoryUpsert(db: Db, category: CategoryDef, siteId: nat): (s: Step<Result<Row<CategoryPayload>, ApiError>>)
    ensures s.out.Success? <==> Key(category.slug, siteId) in db.categories || Key(category.slug, siteId) !in db.refused.categories
    ensures Key(category.slug, siteId) in db.categories ==>
      s == Step(Success(db.categories[Key(category.slug, siteId)]), db)
    ensures Key(category.slug, siteId) !in db.categories && s.out.Success? ==>
      && s.out.value == Row(db.nextId, CategoryPayloadOf(category, siteId))
      && s.db == db.(categories := db.categories[Key(category.slug, siteId) := s.out.value], nextId := db.nextId + 1)
    ensures s.out.Success? ==>
      Key(category.slug, siteId) in s.db.categories && s.db.categories[Key(category.slug, siteId)] == s.out.value
    ensures s.out.Failure? ==> s.out.error == Rejected && s.db == db
    ensures Grows(db, s.db) && (db.Valid() ==> s.db.Valid())
  {
    var created := db.PostCategory(CategoryPayloadOf(category, siteId));
    if created.out.Success? then created
    else
      var existing := created.db.FindCategories(category.slug, siteId);
      if |existing| > 0 then Step(Success(existing[0]), created.db)
      else Step(Failure(created.out.error), created.db)
  }

  /** Create the recipe; a failed create yields None and no lookup is made. */
  function RecipeCreation(db: Db, recipe: RawRecipe, siteId: nat, categoryMap: map<string, nat>): (s: Step<Option<Row<RecipePayload>>>)
    ensures s.out.Some? <==> Key(recipe.slug, siteId) !in db.recipes && Key(recipe.slug, siteId) !in db.refused.recipes
    ensures s.out.Some? ==>
      && s.out.value == Row(db.nextId, BuildRecipe(recipe, siteId, categoryMap))
      && s.db == db.(recipes := db.recipes[Key(recipe.slug, siteId) := s.out.value], nextId := db.nextId + 1)
    ensures s.out.None? ==> s.db == db
    ensures Grows(db, s.db) && (db.Valid() ==> s.db.Valid())
  {
    var posted := db.PostRecipe(BuildRecipe(recipe, siteId, categoryMap));
    Step(if posted.out.Success? then Some(posted.out.value) else None, posted.db)
  }

  /** Create the pack; a failed create yields None and no lookup is made. */
  function PackCreation(db: Db, pack: RawPack, siteId: nat, recipeMap: map<string, nat>): (s: Step<Option<Row<PackPayload>>>)
    ensures s.out.Some? <==> Key(pack.slug, siteId) !in db.packs && Key(pack.slug, siteId) !in db.refused.packs
    ensures s.out.Some? ==>
      && s.out.value == Row(db.nextId, BuildPack(pack, siteId, recipeMap))
      && s.db == db.(packs := db.packs[Key(pack.slug, siteId) := s.out.value], nextId := db.nextId + 1)
    ensures s.out.None? ==> s.db == db
    ensures Grows(db, s.db) && (db.Valid() ==> s.db.Valid())
  {
    var posted := db.PostPack(BuildPack(pack, siteId, recipeMap));
    Step(if posted.out.Success? then Some(posted.out.value) else None, posted.db)
  }

  // ---------------------------------------------------------------------------
  // Phases of one site
  // ---------------------------------------------------------------------------

  /**
   * Upsert the categories in order, recording slug to id in `acc`; the first failure
   * ends the phase with that error.
   */
  function CategoryPhase(db: Db, siteId: nat, cats: seq<CategoryDef>, acc: map<string, nat>): (s: Step<Result<map<string, nat>, ApiError>>)
    decreases |cats|
    ensures s.db == db.(categories := s.db.categories, nextId := s.db.nextId)
    ensures Grows(db, s.db) && (db.Valid() ==> s.db.Valid())
  {
    if cats == [] then Step(Success(acc), db)
    else
      var c := CategoryUpsert(db, cats[0], siteId);
      if c.out.Failure? then Step(Failure(c.out.error), c.db)
      else
        var rest := CategoryPhase(c.db, siteId, cats[1..], acc[cats[0].slug := c.out.value.id]);
        GrowsTransitive(db, c.db, rest.db);
        rest
  }

  /**
   * Create the recipes in order, recording slug to id in `acc` for each create that
   * succeeds; a failure skips that recipe and the phase goes on.
   */
  function RecipePhase(db: Db, siteId: nat, categoryMap: map<string, nat>, recipes: seq<RawRecipe>, acc: map<string, nat>): (s: Step<map<string, nat>>)
    decreases |recipes|
    ensures s.db == db.(recipes := s.db.recipes, nextId := s.db.nextId)
    ensures Grows(db, s.db) && (db.Valid() ==> s.db.Valid())
  {
    if recipes == [] then Step(acc, db)
    else
      var c := RecipeCreation(db, recipes[0], siteId, categoryMap);
      var acc' := if c.out.Some? then acc[recipes[0].slug := c.out.value.id] else acc;
      var rest := RecipePhase(c.db, siteId, categoryMap, recipes[1..], acc');
      GrowsTransitive(db, c.db, rest.db);
      rest
  }

  /** Create the packs in order; a failure skips that pack and the phase goes on. */
  function PackPhase(db: Db, siteId: nat, recipeMap: map<string, nat>, packs: seq<RawPack>): (after: Db)
    decreases |packs|
    ensures after == db.(packs := after.packs, nextId := after.nextId)
    ensures Grows(db, after) && (db.Valid() ==> after.Valid())
  {
    if packs == [] then db
    else
      var c := PackCreation(db, packs[0], siteId, recipeMap);
      var rest := PackPhase(c.db, siteId, recipeMap, packs[1..]);
      GrowsTransitive(db, c.db, rest);
      rest
  }

  /**
   * The fixture part of seeding a site: its recipes, then, when the fixture has packs,
   * its packs, resolved through the recipes this run created. Sites and categories are
   * left alone.
   */
  function FixtureSeeding(db: Db, siteId: nat, categoryMap: map<string, nat>, fixture: SiteFixture): (s: Step<map<string, nat>>)
    ensures s.db == db.(recipes := s.db.recipes, packs := s.db.packs, nextId := s.db.nextId)
    ensures Grows(db, s.db) && (db.Valid() ==> s.db.Valid())
  {
    var recipes := RecipePhase(db, siteId, categoryMap, fixture.recipes, map[]);
    var after := if fixture.packs.Some?
                 then PackPhase(recipes.db, siteId, recipes.out, fixture.packs.value)
                 else recipes.db;
    GrowsTransitive(db, recipes.db, after);
    Step(recipes.out, after)
  }

  /**
   * Seed one site: the site, then its categories (a failure here fails the site), then,
   * when it has a fixture, the fixture's recipes and packs.
   */
  function SiteSeeding(db: Db, cfg: SiteConfig, categories: seq<CategoryDef>, fixture: Option<SiteFixture>): (s: Step<Result<SiteReport, ApiError>>)
    ensures Grows(db, s.db) && (db.Valid() ==> s.db.Valid())
  {
    var site := SiteUpsert(db, cfg);
    if site.out.Failure? then Step(Failure(site.out.error), site.db)
    else
      var siteId := site.out.value.id;
      var cats := CategoryPhase(site.db, siteId, categories, map[]);
      GrowsTransitive(db, site.db, cats.db);
      if cats.out.Failure? then Step(Failure(cats.out.error), cats.db)
      else if fixture.None? then Step(Success(SiteReport(siteId, cats.out.value, None)), cats.db)
      else
        var seeded := FixtureSeeding(cats.db, siteId, cats.out.value, fixture.value);
        GrowsTransitive(db, cats.db, seeded.db);
        Step(Success(SiteReport(siteId, cats.out.value, Some(seeded.out))), seeded.db)
  }

  /**
   * The site loop, for a given way of seeding one site: the sites in order, each against
   * the store the ones before it left behind, every outcome kept whatever it is.
   */
  function RunSites<R>(db: Db, cfgs: seq<SiteConfig>, seedOne: (Db, SiteConfig) -> Step<R>): (s: Step<seq<R>>)
    decreases |cfgs|
    ensures |s.out| == |cfgs|
  {
    if cfgs == [] then Step([], db)
    else
      var before := RunSites(db, cfgs[..|cfgs| - 1], seedOne);
      var last := seedOne(before.db, cfgs[|cfgs| - 1]);
      Step(before.out + [last.out], last.db)
  }

  /** Seeding one site with the given categories and the fixture found under its domain. */
  function SeedOne(categories: seq<CategoryDef>, fixtures: map<string, SiteFixture>): (Db, SiteConfig) -> Step<Result<SiteReport, ApiError>> {
    (db: Db, cfg: SiteConfig) => SiteSeeding(db, cfg, categories, FixtureFor(fixtures, cfg.domain))
  }

  /** Seed the sites in order; a site that fails does not stop the ones after it. */
  function Seeding(db: Db, cfgs: seq<SiteConfig>, categories: seq<CategoryDef>, fixtures: map<string, SiteFixture>): (s: Step<seq<Result<SiteReport, ApiError>>>)
    ensures |s.out| == |cfgs|
  {
    RunSites(db, cfgs, SeedOne(categories, fixtures))
  }

  // ---------------------------------------------------------------------------
  // The pipeline on the store object
  // ---------------------------------------------------------------------------

  method CreateSite(store: Store, cfg: SiteConfig) returns (site: Result<Row<SitePayload>, ApiError>)
    modifies store
    ensures Step(site, store.State()) == SiteUpsert(old(store.State()), cfg)
  {
    site := store.PostSite(SitePayloadOf(cfg));
    if site.Failure? {
      var existing := store.FindSites(cfg.domain);
      if |existing| > 0 {
        site := Success(existing[0]);
      }
    }
  }

  method CreateCategory(store: Store, category: CategoryDef, siteId: nat) returns (cat: Result<Row<CategoryPayload>, ApiError>)
    modifies store
    ensures Step(cat, store.State()) == CategoryUpsert(old(store.State()), category, siteId)
  {
    cat := store.PostCategory(CategoryPayloadOf(category, siteId));
    if cat.Failure? {
      var existing := store.FindCategories(category.slug, siteId);
      if |existing| > 0 {
        cat := Success(existing[0]);
      }
    }
  }

  method CreateRecipe(store: Store, recipe: RawRecipe, siteId: nat, categoryMap: map<string, nat>) returns (created: Option<Row<RecipePayload>>)
    modifies store
    ensures Step(created, store.State()) == RecipeCreation(old(store.State()), recipe, siteId, categoryMap)
  {
    var posted := store.PostRecipe(BuildRecipe(recipe, siteId, categoryMap));
    created := if posted.Success? then Some(posted.value) else None;
  }

  method CreateRecipePack(store: Store, pack: RawPack, siteId: nat, recipeMap: map<string, nat>) returns (created: Option<Row<PackPayload>>)
    modifies store
    ensures Step(created, store.State()) == PackCreation(old(store.State()), pack, siteId, recipeMap)
  {
    var posted := store.PostPack(BuildPack(pack, siteId, recipeMap));
    created := if posted.Success? then Some(posted.value) else None;
  }

  /** The category loop of one site; the first failure is returned, not thrown. */
  method SeedCategories(store: Store, siteId: nat, categories: seq<CategoryDef>) returns (categoryMap: Result<map<string, nat>, ApiError>)
    modifies store
    ensures Step(categoryMap, store.State()) == CategoryPhase(old(store.State()), siteId, categories, map[])
  {
    var ids: map<string, nat> := map[];
    for i := 0 to |categories|
      invariant CategoryPhase(store.State(), siteId, categories[i..], ids)
             == CategoryPhase(old(store.State()), siteId, categories, map[])
    {
      assert categories[i..][1..] == categories[i + 1..];
      var cat := CreateCategory(store, categories[i], siteId);
      if cat.Failure? {
        return Failure(cat.error);
      }
      ids := ids[categories[i].slug := cat.value.id];
    }
    categoryMap := Success(ids);
  }

  /** The recipe loop of one site: a recipe whose create fails is left out of the map. */
  method SeedRecipes(store: Store, siteId: nat, categoryMap: map<string, nat>, recipes: seq<RawRecipe>) returns (recipeMap: map<string, nat>)
    modifies store
    ensures Step(recipeMap, store.State()) == RecipePhase(old(store.State()), siteId, categoryMap, recipes, map[])
  {
    recipeMap := map[];
    for i := 0 to |recipes|
      invariant RecipePhase(store.State(), siteId, categoryMap, recipes[i..], recipeMap)
             == RecipePhase(old(store.State()), siteId, categoryMap, recipes, map[])
    {
      assert recipes[i..][1..] == recipes[i + 1..];
      var created := CreateRecipe(store, recipes[i], siteId, categoryMap);
      if created.Some? {
        recipeMap := recipeMap[recipes[i].slug := created.value.id];
      }
    }
  }

  /** The pack loop of one site. */
  method SeedPacks(store: Store, siteId: nat, recipeMap: map<string, nat>, packs: seq<RawPack>)
    modifies store
    ensures store.State() == PackPhase(old(store.State()), siteId, recipeMap, packs)
  {
    for i := 0 to |packs|
      invariant PackPhase(store.State(), siteId, recipeMap, packs[i..])
             == PackPhase(old(store.State()), siteId, recipeMap, packs)
    {
      assert packs[i..][1..] == packs[i + 1..];
      var _ := CreateRecipePack(store, packs[i], siteId, recipeMap);
    }
  }

  /** The recipes and then the packs of a site's fixture. */
  method SeedFixture(store: Store, siteId: nat, categoryMap: map<string, nat>, fixture: SiteFixture) returns (recipeMap: map<string, nat>)
    modifies store
    ensures Step(recipeMap, store.State()) == FixtureSeeding(old(store.State()), siteId, categoryMap, fixture)
  {
    recipeMap := SeedRecipes(store, siteId, categoryMap, fixture.recipes);
    if fixture.packs.Some? {
      SeedPacks(store, siteId, recipeMap, fixture.packs.value);
    }
  }

  /** Seed one site; a failure of the site or of a category is returned, not thrown. */
  method SeedSite(store: Store, cfg: SiteConfig, categories: seq<CategoryDef>, fixture: Option<SiteFixture>) returns (report: Result<SiteReport, ApiError>)
    modifies store
    ensures Step(report, store.State()) == SiteSeeding(old(store.State()), cfg, categories, fixture)
  {
    var site := CreateSite(store, cfg);
    if site.Failure? {
      return Failure(site.error);
    }
    var siteId := site.value.id;
    var categoryMap := SeedCategories(store, siteId, categories);
    if categoryMap.Failure? {
      return Failure(categoryMap.error);
    }
    if fixture.None? {
      return Success(SiteReport(siteId, categoryMap.value, None));
    }
    var recipeMap := SeedFixture(store, siteId, categoryMap.value, fixture.value);
    report := Success(SiteReport(siteId, categoryMap.value, Some(recipeMap)));
  }

  /** The run over a non-empty list of sites is the run over all but the last, then the last. */
  lemma SeedingLast(db: Db, cfgs: seq<SiteConfig>, categories: seq<CategoryDef>, fixtures: map<string, SiteFixture>)
    requires cfgs != []
    ensures var n := |cfgs| - 1;
      var before := Seeding(db, cfgs[..n], categories, fixtures);
      var last := SiteSeeding(before.db, cfgs[n], categories, FixtureFor(fixtures, cfgs[n].domain));
      Seeding(db, cfgs, categories, fixtures) == Step(before.out + [last.out], last.db)
  {
  }

  /** Seed every site in order, catching each site's failure so that the next one still runs. */
  method SeedSites(store: Store, cfgs: seq<SiteConfig>, categories: seq<CategoryDef>, fixtures: map<string, SiteFixture>) returns (outcomes: seq<Result<SiteReport, ApiError>>)
    modifies store
    ensures Step(outcomes, store.State()) == Seeding(old(store.State()), cfgs, categories, fixtures)
  {
    outcomes := [];
    for i := 0 to |cfgs|
      invariant Step(outcomes, store.State()) == Seeding(old(store.State()), cfgs[..i], categories, fixtures)
    {
      var fixture := FixtureFor(fixtures, cfgs[i].domain);
      var outcome := SeedSite(store, cfgs[i], categories, fixture);
      SeedingLast(old(store.State()), cfgs[..i + 1], categories, fixtures);
      assert cfgs[..i + 1][..i] == cfgs[..i];
      outcomes := outcomes + [outcome];
    }
    assert cfgs[..|cfgs|] == cfgs;
  }

  /**
   * The whole run: every configured site, in order, with the standard categories and
   * the fixtures found on disk.
   */
  method SeedAll(store: Store, fixtures: map<string, SiteFixture>) returns (outcomes: seq<Result<SiteReport, ApiError>>)
    modifies store
    ensures |outcomes| == |Sites|
    ensures Step(outcomes, store.State()) == Seeding(old(store.State()), Sites, Categories, fixtures)
  {
    outcomes := SeedSites(store, Sites, Categories, fixtures);
  }
}
