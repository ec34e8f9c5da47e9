/**
 * What each phase of the seed pipeline achieves, stated against the store it started
 * from: which maps it builds, which entities it creates, and in which order the sites
 * are seeded.
 */
module PhaseFacts {
  import opened Wrappers
  import opened Fixtures
  import opened ContentApi
  import opened Seeder

  // ---------------------------------------------------------------------------
  // Categories
  // ---------------------------------------------------------------------------

  /**
   * The category phase succeeds exactly when every category either exists already in
   * the site or is one the store accepts; when it fails, the error is the refusal.
   */
  lemma {:induction false} CategoryPhaseOutcome(db: Db, siteId: nat, cats: seq<CategoryDef>, acc: map<string, nat>)
    ensures var s := CategoryPhase(db, siteId, cats, acc);
      && (s.out.Success? <==>
            forall slug :: slug in CategorySlugs(cats) ==> Key(slug, siteId) in db.categories || Key(slug, siteId) !in db.refused.categories)
      && (s.out.Failure? ==> s.out.error == Rejected)
    decreases |cats|
  {
    if cats != [] {
      var c := CategoryUpsert(db, cats[0], siteId);
      if c.out.Success? {
        CategoryPhaseOutcome(c.db, siteId, cats[1..], acc[cats[0].slug := c.out.value.id]);
        forall slug | slug in CategorySlugs(cats[1..]) && Key(slug, siteId) in db.refused.categories
          ensures Key(slug, siteId) in c.db.categories <==> Key(slug, siteId) in db.categories
        {
        }
      }
    }
  }

  /**
   * A category phase that succeeds maps every category slug, and only those besides
   * the ones already in `acc`, to the id of the category the store holds for it in the
   * site; entries of `acc` for other slugs are kept.
   */
  lemma {:induction false} CategoryPhaseMap(db: Db, siteId: nat, cats: seq<CategoryDef>, acc: map<string, nat>)
    ensures var s := CategoryPhase(db, siteId, cats, acc);
      s.out.Success? ==>
        && (forall slug :: slug in s.out.value <==> slug in acc || slug in CategorySlugs(cats))
        && (forall slug :: slug in CategorySlugs(cats) ==>
              Key(slug, siteId) in s.db.categories && s.out.value[slug] == s.db.categories[Key(slug, siteId)].id)
        && (forall slug :: slug in acc && slug !in CategorySlugs(cats) ==> s.out.value[slug] == acc[slug])
    decreases |cats|
  {
    if cats != [] {
      var c := CategoryUpsert(db, cats[0], siteId);
      if c.out.Success? {
        var acc' := acc[cats[0].slug := c.out.value.id];
        CategoryPhaseMap(c.db, siteId, cats[1..], acc');
        var s := CategoryPhase(c.db, siteId, cats[1..], acc');
        assert Grows(c.db, s.db);
      }
    }
  }

  // ---------------------------------------------------------------------------
  // Recipes
  // ---------------------------------------------------------------------------

  /**
   * Every recipe of the list is attempted, failures included: afterwards the site holds
   * every recipe slug of the list the store accepts, and nothing else was added.
   */
  lemma {:induction false} RecipePhaseTable(db: Db, siteId: nat, categoryMap: map<string, nat>, recipes: seq<RawRecipe>, acc: map<string, nat>)
    ensures var s := RecipePhase(db, siteId, categoryMap, recipes, acc);
      forall k :: k in s.db.recipes <==>
        k in db.recipes || (k.scope == siteId && k.name in RecipeSlugs(recipes) && k !in db.refused.recipes)
    decreases |recipes|
  {
    if recipes != [] {
      var c := RecipeCreation(db, recipes[0], siteId, categoryMap);
      var acc' := if c.out.Some? then acc[recipes[0].slug := c.out.value.id] else acc;
      RecipePhaseTable(c.db, siteId, categoryMap, recipes[1..], acc');
    }
  }

  /** A slug enters the map exactly when this phase created its recipe. */
  lemma {:induction false} RecipePhaseMapKeys(db: Db, siteId: nat, categoryMap: map<string, nat>, recipes: seq<RawRecipe>, acc: map<string, nat>)
    ensures var s := RecipePhase(db, siteId, categoryMap, recipes, acc);
      forall slug :: slug in s.out <==>
        slug in acc || (slug in RecipeSlugs(recipes) && Key(slug, siteId) !in db.recipes && Key(slug, siteId) !in db.refused.recipes)
    decreases |recipes|
  {
    if recipes != [] {
      var c := RecipeCreation(db, recipes[0], siteId, categoryMap);
      var acc' := if c.out.Some? then acc[recipes[0].slug := c.out.value.id] else acc;
      RecipePhaseMapKeys(c.db, siteId, categoryMap, recipes[1..], acc');
    }
  }

  /** A recipe this phase creates, for a slug that is new to the site and accepted. */
  ghost predicate CreatedHere(db: Db, siteId: nat, recipes: seq<RawRecipe>, slug: string) {
    slug in RecipeSlugs(recipes) && Key(slug, siteId) !in db.recipes && Key(slug, siteId) !in db.refused.recipes
  }

  /** Entries of `acc` for slugs whose recipe this phase does not create are kept. */
  lemma {:induction false} RecipePhaseKeeps(db: Db, siteId: nat, categoryMap: map<string, nat>, recipes: seq<RawRecipe>, acc: map<string, nat>)
    ensures var s := RecipePhase(db, siteId, categoryMap, recipes, acc);
      forall slug :: slug in acc && !CreatedHere(db, siteId, recipes, slug) ==> slug in s.out && s.out[slug] == acc[slug]
    decreases |recipes|
  {
    if recipes != [] {
      var c := RecipeCreation(db, recipes[0], siteId, categoryMap);
      var acc' := if c.out.Some? then acc[recipes[0].slug := c.out.value.id] else acc;
      RecipePhaseKeeps(c.db, siteId, categoryMap, recipes[1..], acc');
      forall slug | slug in acc && !CreatedHere(db, siteId, recipes, slug)
        ensures slug in acc' && acc'[slug] == acc[slug] && !CreatedHere(c.db, siteId, recipes[1..], slug)
      {
        assert c.out.Some? ==> slug != recipes[0].slug;
      }
    }
  }

  /** The map records, for each recipe this phase created, the id the store assigned to it. */
  lemma {:induction false} RecipePhaseIds(db: Db, siteId: nat, categoryMap: map<string, nat>, recipes: seq<RawRecipe>, acc: map<string, nat>)
    ensures var s := RecipePhase(db, siteId, categoryMap, recipes, acc);
      forall slug :: CreatedHere(db, siteId, recipes, slug) ==>
        slug in s.out && Key(slug, siteId) in s.db.recipes && s.out[slug] == s.db.recipes[Key(slug, siteId)].id
    decreases |recipes|
  {
    if recipes != [] {
      var c := RecipeCreation(db, recipes[0], siteId, categoryMap);
      var acc' := if c.out.Some? then acc[recipes[0].slug := c.out.value.id] else acc;
      var s := RecipePhase(c.db, siteId, categoryMap, recipes[1..], acc');
      RecipePhaseIds(c.db, siteId, categoryMap, recipes[1..], acc');
      RecipePhaseKeeps(c.db, siteId, categoryMap, recipes[1..], acc');
      forall slug | CreatedHere(db, siteId, recipes, slug)
        ensures slug in s.out && Key(slug, siteId) in s.db.recipes && s.out[slug] == s.db.recipes[Key(slug, siteId)].id
      {
        if slug == recipes[0].slug {
          assert c.out.Some? && !CreatedHere(c.db, siteId, recipes[1..], slug);
          assert Grows(c.db, s.db);
        } else {
          assert CreatedHere(c.db, siteId, recipes[1..], slug);
        }
      }
    }
  }

  /** The first recipe of the list with this slug. */
  function FirstRecipe(recipes: seq<RawRecipe>, slug: string): (r: RawRecipe)
    requires slug in RecipeSlugs(recipes)
    ensures r in recipes && r.slug == slug
  {
    if recipes[0].slug == slug then recipes[0] else FirstRecipe(recipes[1..], slug)
  }

  /** The recipe a successful creation adds, and the payload it is stored with. */
  lemma RecipeCreationAdds(db: Db, siteId: nat, categoryMap: map<string, nat>, recipe: RawRecipe, k: Key)
    requires k in RecipeCreation(db, recipe, siteId, categoryMap).db.recipes && k !in db.recipes
    ensures k == Key(recipe.slug, siteId)
    ensures RecipeCreation(db, recipe, siteId, categoryMap).db.recipes[k].data == BuildRecipe(recipe, siteId, categoryMap)
  {
  }

  /**
   * Each recipe the phase added was built from the first recipe of the list with that
   * slug: a later recipe with the same slug finds it taken.
   */
  lemma {:induction false} RecipePhasePayloads(db: Db, siteId: nat, categoryMap: map<string, nat>, recipes: seq<RawRecipe>, acc: map<string, nat>)
    ensures var s := RecipePhase(db, siteId, categoryMap, recipes, acc);
      forall k :: k in s.db.recipes && k !in db.recipes ==>
        k.name in RecipeSlugs(recipes) && s.db.recipes[k].data == BuildRecipe(FirstRecipe(recipes, k.name), siteId, categoryMap)
    decreases |recipes|
  {
    if recipes != [] {
      var c := RecipeCreation(db, recipes[0], siteId, categoryMap);
      var acc' := if c.out.Some? then acc[recipes[0].slug := c.out.value.id] else acc;
      RecipePhasePayloads(c.db, siteId, categoryMap, recipes[1..], acc');
      RecipePhaseTable(c.db, siteId, categoryMap, recipes[1..], acc');
      var s := RecipePhase(c.db, siteId, categoryMap, recipes[1..], acc');
      forall k | k in s.db.recipes && k !in db.recipes
        ensures k.name in RecipeSlugs(recipes) && s.db.recipes[k].data == BuildRecipe(FirstRecipe(recipes, k.name), siteId, categoryMap)
      {
        if k in c.db.recipes {
          RecipeCreationAdds(db, siteId, categoryMap, recipes[0], k);
          assert Grows(c.db, s.db);
        } else {
          assert k.scope == siteId;
          assert k !in db.refused.recipes;
          assert k.name != recipes[0].slug;
          assert FirstRecipe(recipes, k.name) == FirstRecipe(recipes[1..], k.name);
        }
      }
    }
  }

  // ---------------------------------------------------------------------------
  // Packs
  // ---------------------------------------------------------------------------

  /**
   * Every pack of the list is attempted: afterwards the site holds every pack slug of
   * the list the store accepts, and nothing else was added.
   */
  lemma {:induction false} PackPhaseKeys(db: Db, siteId: nat, recipeMap: map<string, nat>, packs: seq<RawPack>)
    ensures var after := PackPhase(db, siteId, recipeMap, packs);
      forall k :: k in after.packs <==>
        k in db.packs || (k.scope == siteId && k.name in PackSlugs(packs) && k !in db.refused.packs)
    decreases |packs|
  {
    if packs != [] {
      var c := PackCreation(db, packs[0], siteId, recipeMap);
      PackPhaseKeys(c.db, siteId, recipeMap, packs[1..]);
    }
  }

  /** The first pack of the list with this slug. */
  function FirstPack(packs: seq<RawPack>, slug: string): (p: RawPack)
    requires slug in PackSlugs(packs)
    ensures p in packs && p.slug == slug
  {
    if packs[0].slug == slug then packs[0] else FirstPack(packs[1..], slug)
  }

  /** Each pack the phase added was built from the first pack of the list with that slug. */
  lemma {:induction false} PackPhasePayloads(db: Db, siteId: nat, recipeMap: map<string, nat>, packs: seq<RawPack>)
    ensures var after := PackPhase(db, siteId, recipeMap, packs);
      forall k :: k in after.packs && k !in db.packs ==>
        k.name in PackSlugs(packs) && after.packs[k].data == BuildPack(FirstPack(packs, k.name), siteId, recipeMap)
    decreases |packs|
  {
    if packs != [] {
      var c := PackCreation(db, packs[0], siteId, recipeMap);
      PackPhasePayloads(c.db, siteId, recipeMap, packs[1..]);
      PackPhaseKeys(c.db, siteId, recipeMap, packs[1..]);
      var after := PackPhase(c.db, siteId, recipeMap, packs[1..]);
      forall k | k in after.packs && k !in db.packs
        ensures k.name in PackSlugs(packs) && after.packs[k].data == BuildPack(FirstPack(packs, k.name), siteId, recipeMap)
      {
        if k in c.db.packs {
          assert k == Key(packs[0].slug, siteId) && Grows(c.db, after);
        } else {
          assert k.scope == siteId;
          assert k !in db.refused.packs;
          assert k.name != packs[0].slug;
          assert FirstPack(packs, k.name) == FirstPack(packs[1..], k.name);
        }
      }
    }
  }

  // ---------------------------------------------------------------------------
  // Sites
  // ---------------------------------------------------------------------------

  /** Why seeding a site fails: its domain is new and refused, or a standard category is. */
  ghost predicate SiteBlocked(db: Db, after: Db, cfg: SiteConfig, categories: seq<CategoryDef>) {
    var site := Key(cfg.domain, 0);
    || (site !in db.sites && site in db.refused.sites)
    || (site in after.sites &&
        exists slug :: slug in CategorySlugs(categories) &&
          Key(slug, after.sites[site].id) in db.refused.categories && Key(slug, after.sites[site].id) !in db.categories)
  }

  /** A site whose seeding fails is blocked, and the error is the refusal. */
  lemma SiteSeedingFailure(db: Db, cfg: SiteConfig, categories: seq<CategoryDef>, fixture: Option<SiteFixture>)
    ensures var s := SiteSeeding(db, cfg, categories, fixture);
      s.out.Failure? ==> s.out.error == Rejected && SiteBlocked(db, s.db, cfg, categories)
  {
    var s := SiteSeeding(db, cfg, categories, fixture);
    var u := SiteUpsert(db, cfg);
    if u.out.Success? {
      var siteId := u.out.value.id;
      var cats := CategoryPhase(u.db, siteId, categories, map[]);
      if cats.out.Failure? {
        CategoryPhaseOutcome(u.db, siteId, categories, map[]);
        assert u.db.categories == db.categories && u.db.refused == db.refused;
        assert s == Step(Failure(cats.out.error), cats.db);
        assert cats.db.sites == u.db.sites;
      }
    }
  }

  /** A blocked site fails. */
  lemma SiteSeedingBlocked(db: Db, cfg: SiteConfig, categories: seq<CategoryDef>, fixture: Option<SiteFixture>)
    ensures var s := SiteSeeding(db, cfg, categories, fixture);
      SiteBlocked(db, s.db, cfg, categories) ==> s.out.Failure?
  {
    var s := SiteSeeding(db, cfg, categories, fixture);
    var u := SiteUpsert(db, cfg);
    if u.out.Success? {
      var siteId := u.out.value.id;
      var cats := CategoryPhase(u.db, siteId, categories, map[]);
      if cats.out.Success? {
        CategoryPhaseOutcome(u.db, siteId, categories, map[]);
        assert u.db.categories == db.categories && u.db.refused == db.refused;
        assert Grows(u.db, cats.db) && Grows(cats.db, s.db);
        assert s.db.sites[Key(cfg.domain, 0)].id == siteId;
      }
    }
  }

  /**
   * Seeding a site fails exactly when its domain is new and refused, or when one of
   * the standard categories is missing from the site and refused; the error is the
   * refusal.
   */
  lemma SiteSeedingOutcome(db: Db, cfg: SiteConfig, categories: seq<CategoryDef>, fixture: Option<SiteFixture>)
    ensures var s := SiteSeeding(db, cfg, categories, fixture);
      && (s.out.Failure? <==> SiteBlocked(db, s.db, cfg, categories))
      && (s.out.Failure? ==> s.out.error == Rejected)
  {
    SiteSeedingFailure(db, cfg, categories, fixture);
    SiteSeedingBlocked(db, cfg, categories, fixture);
  }

  /**
   * A site that was seeded reports the id the store holds for its domain, every
   * standard category slug mapped to the id of that category in the site, and a recipe
   * map exactly when it has a fixture.
   */
  lemma SiteSeedingCategories(db: Db, cfg: SiteConfig, categories: seq<CategoryDef>, fixture: Option<SiteFixture>)
    ensures var s := SiteSeeding(db, cfg, categories, fixture);
      s.out.Success? ==>
        var r := s.out.value;
        && Key(cfg.domain, 0) in s.db.sites && s.db.sites[Key(cfg.domain, 0)].id == r.siteId
        && (forall slug :: slug in r.categoryMap <==> slug in CategorySlugs(categories))
        && (forall slug :: slug in CategorySlugs(categories) ==>
              Key(slug, r.siteId) in s.db.categories && r.categoryMap[slug] == s.db.categories[Key(slug, r.siteId)].id)
        && (r.recipeMap.Some? <==> fixture.Some?)
  {
    var s := SiteSeeding(db, cfg, categories, fixture);
    var u := SiteUpsert(db, cfg);
    if u.out.Success? {
      var siteId := u.out.value.id;
      var cats := CategoryPhase(u.db, siteId, categories, map[]);
      if cats.out.Success? {
        CategoryPhaseMap(u.db, siteId, categories, map[]);
        assert cats.db.sites == u.db.sites;
        if fixture.Some? {
          var seeded := FixtureSeeding(cats.db, siteId, cats.out.value, fixture.value);
          assert s == Step(Success(SiteReport(siteId, cats.out.value, Some(seeded.out))), seeded.db);
        }
      }
    }
  }

  /**
   * A site with a fixture that was seeded reports exactly the recipes this run created,
   * each with its id.
   */
  lemma SiteSeedingRecipes(db: Db, cfg: SiteConfig, categories: seq<CategoryDef>, fixture: Option<SiteFixture>)
    ensures var s := SiteSeeding(db, cfg, categories, fixture);
      s.out.Success? && s.out.value.recipeMap.Some? ==>
        var r := s.out.value;
        && (forall slug :: slug in r.recipeMap.value <==>
              slug in RecipeSlugs(fixture.value.recipes) && Key(slug, r.siteId) !in db.recipes && Key(slug, r.siteId) !in db.refused.recipes)
        && (forall slug :: slug in r.recipeMap.value ==>
              Key(slug, r.siteId) in s.db.recipes && r.recipeMap.value[slug] == s.db.recipes[Key(slug, r.siteId)].id)
  {
    var s := SiteSeeding(db, cfg, categories, fixture);
    var u := SiteUpsert(db, cfg);
    if u.out.Success? {
      var siteId := u.out.value.id;
      var cats := CategoryPhase(u.db, siteId, categories, map[]);
      if cats.out.Success? && fixture.Some? {
        var seeded := FixtureSeeding(cats.db, siteId, cats.out.value, fixture.value);
        assert s == Step(Success(SiteReport(siteId, cats.out.value, Some(seeded.out))), seeded.db);
        assert cats.db.recipes == db.recipes && cats.db.refused == db.refused;
        FixtureSeedingRecipes(cats.db, siteId, cats.out.value, fixture.value);
      }
    }
  }

  /**
   * The recipe map of a fixture holds exactly the recipes this run created, each with
   * the id the store holds for it once the packs are done too.
   */
  lemma FixtureSeedingRecipes(db: Db, siteId: nat, categoryMap: map<string, nat>, fixture: SiteFixture)
    ensures var s := FixtureSeeding(db, siteId, categoryMap, fixture);
      && (forall slug :: slug in s.out <==> CreatedHere(db, siteId, fixture.recipes, slug))
      && (forall slug :: slug in s.out ==>
            Key(slug, siteId) in s.db.recipes && s.out[slug] == s.db.recipes[Key(slug, siteId)].id)
  {
    var recipes := RecipePhase(db, siteId, categoryMap, fixture.recipes, map[]);
    RecipePhaseMapKeys(db, siteId, categoryMap, fixture.recipes, map[]);
    RecipePhaseIds(db, siteId, categoryMap, fixture.recipes, map[]);
    if fixture.packs.Some? {
      var after := PackPhase(recipes.db, siteId, recipes.out, fixture.packs.value);
      assert after.recipes == recipes.db.recipes;
    }
  }

  /**
   * Each recipe a fixture added is a recipe of this site, built from the first recipe of
   * the fixture with that slug; the pack phase leaves the recipes alone.
   */
  lemma FixtureSeedingPayloads(db: Db, siteId: nat, categoryMap: map<string, nat>, fixture: SiteFixture)
    ensures var s := FixtureSeeding(db, siteId, categoryMap, fixture);
      forall k :: k in s.db.recipes && k !in db.recipes ==>
        && k.scope == siteId && k.name in RecipeSlugs(fixture.recipes)
        && s.db.recipes[k].data == BuildRecipe(FirstRecipe(fixture.recipes, k.name), siteId, categoryMap)
  {
    var recipes := RecipePhase(db, siteId, categoryMap, fixture.recipes, map[]);
    RecipePhaseTable(db, siteId, categoryMap, fixture.recipes, map[]);
    RecipePhasePayloads(db, siteId, categoryMap, fixture.recipes, map[]);
    if fixture.packs.Some? {
      var after := PackPhase(recipes.db, siteId, recipes.out, fixture.packs.value);
      assert after.recipes == recipes.db.recipes;
    }
  }

  /**
   * In a store whose ids are positive, every recipe a seeded site created carries the
   * category ids of its own slugs, looked up in the site's category map; when all of its
   * slugs are standard categories, none is dropped and entry `i` is the id the store
   * holds for category `i` of the site.
   */
  lemma SiteSeedingRecipeCategories(db: Db, cfg: SiteConfig, categories: seq<CategoryDef>, fixture: Option<SiteFixture>)
    requires db.Valid()
    ensures var s := SiteSeeding(db, cfg, categories, fixture);
      s.out.Success? && fixture.Some? ==>
        var r := s.out.value;
        forall k :: k in s.db.recipes && k !in db.recipes ==>
          && k.scope == r.siteId && k.name in RecipeSlugs(fixture.value.recipes)
          && var slugs := OrEmpty(FirstRecipe(fixture.value.recipes, k.name).categories);
          && s.db.recipes[k].data.categories == ResolveIds(slugs, r.categoryMap)
          && ((forall i :: 0 <= i < |slugs| ==> slugs[i] in CategorySlugs(categories)) ==>
                && |s.db.recipes[k].data.categories| == |slugs|
                && forall i :: 0 <= i < |slugs| ==>
                     Key(slugs[i], r.siteId) in s.db.categories &&
                     s.db.recipes[k].data.categories[i] == s.db.categories[Key(slugs[i], r.siteId)].id)
  {
    var s := SiteSeeding(db, cfg, categories, fixture);
    var u := SiteUpsert(db, cfg);
    if s.out.Success? && fixture.Some? {
      var siteId := u.out.value.id;
      var cats := CategoryPhase(u.db, siteId, categories, map[]);
      var seeded := FixtureSeeding(cats.db, siteId, cats.out.value, fixture.value);
      assert s == Step(Success(SiteReport(siteId, cats.out.value, Some(seeded.out))), seeded.db);
      assert cats.db.recipes == db.recipes;
      FixtureSeedingPayloads(cats.db, siteId, cats.out.value, fixture.value);
      SiteSeedingCategories(db, cfg, categories, fixture);
      var r := s.out.value;
      forall k | k in s.db.recipes && k !in db.recipes
        ensures var slugs := OrEmpty(FirstRecipe(fixture.value.recipes, k.name).categories);
          && s.db.recipes[k].data.categories == ResolveIds(slugs, r.categoryMap)
          && ((forall i :: 0 <= i < |slugs| ==> slugs[i] in CategorySlugs(categories)) ==>
                && |s.db.recipes[k].data.categories| == |slugs|
                && forall i :: 0 <= i < |slugs| ==>
                     Key(slugs[i], r.siteId) in s.db.categories &&
                     s.db.recipes[k].data.categories[i] == s.db.categories[Key(slugs[i], r.siteId)].id)
      {
        var recipe := FirstRecipe(fixture.value.recipes, k.name);
        BuildRecipeFields(recipe, siteId, r.categoryMap);
        var slugs := OrEmpty(recipe.categories);
        if forall i :: 0 <= i < |slugs| ==> slugs[i] in CategorySlugs(categories) {
          assert forall i :: 0 <= i < |slugs| ==> s.db.categories[Key(slugs[i], siteId)].id > 0;
          ResolveIdsAllKnown(slugs, r.categoryMap);
        }
      }
    }
  }

  /**
   * A fixture whose recipes all exist already creates none, so its recipe map is empty
   * and every pack it adds is created with no recipe ids.
   */
  lemma EmptyPackWhenRecipesExist(db: Db, siteId: nat, categoryMap: map<string, nat>, fixture: SiteFixture)
    requires forall slug :: slug in RecipeSlugs(fixture.recipes) ==> Key(slug, siteId) in db.recipes
    ensures var s := FixtureSeeding(db, siteId, categoryMap, fixture);
      && s.out == map[]
      && forall k :: k in s.db.packs && k !in db.packs ==> s.db.packs[k].data.recipes == []
  {
    var recipes := RecipePhase(db, siteId, categoryMap, fixture.recipes, map[]);
    RecipePhaseMapKeys(db, siteId, categoryMap, fixture.recipes, map[]);
    assert recipes.out == map[];
    if fixture.packs.Some? {
      var packs := fixture.packs.value;
      var after := PackPhase(recipes.db, siteId, recipes.out, packs);
      PackPhasePayloads(recipes.db, siteId, recipes.out, packs);
      assert recipes.db.packs == db.packs;
      forall k | k in after.packs && k !in db.packs
        ensures after.packs[k].data.recipes == []
      {
        ResolveIdsNothingKnown(OrEmpty(FirstPack(packs, k.name).recipes), map[]);
      }
    }
  }

  /** Running one more site leaves the outcomes of the sites before it as they were. */
  lemma RunSitesDropLast<R>(db: Db, cfgs: seq<SiteConfig>, seedOne: (Db, SiteConfig) -> Step<R>)
    requires cfgs != []
    ensures var n := |cfgs| - 1;
      RunSites(db, cfgs, seedOne).out[..n] == RunSites(db, cfgs[..n], seedOne).out
  {
  }

  /** The first `k` outcomes are those of the first `k` sites: a later site does not change them. */
  lemma {:induction false} RunSitesPrefix<R>(db: Db, cfgs: seq<SiteConfig>, seedOne: (Db, SiteConfig) -> Step<R>, k: nat)
    requires k <= |cfgs|
    ensures RunSites(db, cfgs, seedOne).out[..k] == RunSites(db, cfgs[..k], seedOne).out
    decreases |cfgs|
  {
    if k < |cfgs| {
      var n := |cfgs| - 1;
      var init := cfgs[..n];
      RunSitesDropLast(db, cfgs, seedOne);
      RunSitesPrefix(db, init, seedOne, k);
      assert init[..k] == cfgs[..k];
      assert RunSites(db, cfgs, seedOne).out[..k] == RunSites(db, cfgs, seedOne).out[..n][..k];
    } else {
      assert cfgs[..k] == cfgs;
    }
  }

  /**
   * Outcome `i` of the loop is site `i` seeded against the store the sites before it
   * left behind.
   */
  lemma RunSitesInOrder<R>(db: Db, cfgs: seq<SiteConfig>, seedOne: (Db, SiteConfig) -> Step<R>, i: nat)
    requires i < |cfgs|
    ensures RunSites(db, cfgs, seedOne).out[i] == seedOne(RunSites(db, cfgs[..i], seedOne).db, cfgs[i]).out
  {
    var upto := cfgs[..i + 1];
    RunSitesPrefix(db, cfgs, seedOne, i + 1);
    assert RunSites(db, cfgs, seedOne).out[i] == RunSites(db, cfgs, seedOne).out[..i + 1][i];
    assert upto[..i] == cfgs[..i] && upto[i] == cfgs[i];
  }

  /**
   * The site loop runs every site, in list order, whatever happened to the ones before:
   * outcome `i` is what seeding site `i` gives against the store the sites before it
   * left behind.
   */
  lemma SeedingInOrder(db: Db, cfgs: seq<SiteConfig>, categories: seq<CategoryDef>, fixtures: map<string, SiteFixture>, i: nat)
    requires i < |cfgs|
    ensures Seeding(db, cfgs, categories, fixtures).out[i]
         == SiteSeeding(Seeding(db, cfgs[..i], categories, fixtures).db, cfgs[i], categories, FixtureFor(fixtures, cfgs[i].domain)).out
  {
    RunSitesInOrder(db, cfgs, SeedOne(categories, fixtures), i);
  }

  /**
   * The pipeline only adds: nothing in the store is removed or changed, nothing refused
   * is added, and the ids stay truthy.
   */
  lemma {:induction false} SeedingGrows(db: Db, cfgs: seq<SiteConfig>, categories: seq<CategoryDef>, fixtures: map<string, SiteFixture>)
    ensures var s := Seeding(db, cfgs, categories, fixtures);
      Grows(db, s.db) && (db.Valid() ==> s.db.Valid())
    decreases |cfgs|
  {
    if cfgs != [] {
      var n := |cfgs| - 1;
      var before := Seeding(db, cfgs[..n], categories, fixtures);
      var last := SiteSeeding(before.db, cfgs[n], categories, FixtureFor(fixtures, cfgs[n].domain));
      assert Seeding(db, cfgs, categories, fixtures).db == last.db;
      SeedingGrows(db, cfgs[..n], categories, fixtures);
      GrowsTransitive(db, before.db, last.db);
    }
  }
}
