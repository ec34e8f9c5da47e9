/**
 * Running the seed pipeline a second time changes nothing.
 *
 * A store is "settled" for a site when every create the pipeline would send for that
 * site is bound to fail: the entity exists already, or the store refuses it. The first
 * run leaves every site settled, later sites and phases only add entities, and a run
 * over a settled store sends no create that succeeds. Because recipes have no lookup
 * fallback, the second run reports an empty recipe map for every site with a fixture.
 *
 * The theorem rests on what the store model builds in. Both runs meet the same refused
 * keys, since `Grows` keeps `refused` fixed. No request fails for a passing reason:
 * a create fails only on an existing or a refused key. The store keeps domains and
 * (slug, site) pairs unique, which is what makes the second run's creates fail.
 */
module Rerun {
  import opened Wrappers
  import opened Fixtures
  import opened ContentApi
  import opened Seeder
  import opened PhaseFacts

  // ---------------------------------------------------------------------------
  // Categories
  // ---------------------------------------------------------------------------

  /**
   * Upserting the categories in order changes nothing: each exists in the site, up to
   * the first missing one, which the store refuses (and which ends the phase).
   */
  ghost predicate CategoriesSettled(db: Db, siteId: nat, cats: seq<CategoryDef>)
    decreases |cats|
  {
    cats == [] ||
    if Key(cats[0].slug, siteId) in db.categories then CategoriesSettled(db, siteId, cats[1..])
    else Key(cats[0].slug, siteId) in db.refused.categories
  }

  ghost predicate AllCategoriesExist(db: Db, siteId: nat, cats: seq<CategoryDef>) {
    forall slug :: slug in CategorySlugs(cats) ==> Key(slug, siteId) in db.categories
  }

  /**
   * On a settled store the category phase changes nothing, and it succeeds exactly when
   * every category exists already.
   */
  lemma {:induction false} CategoryPhaseOnSettled(db: Db, siteId: nat, cats: seq<CategoryDef>, acc: map<string, nat>)
    requires CategoriesSettled(db, siteId, cats)
    ensures var s := CategoryPhase(db, siteId, cats, acc);
      s.db == db && (s.out.Success? <==> AllCategoriesExist(db, siteId, cats))
    decreases |cats|
  {
    if cats != [] {
      var c := CategoryUpsert(db, cats[0], siteId);
      if Key(cats[0].slug, siteId) in db.categories {
        assert c == Step(Success(db.categories[Key(cats[0].slug, siteId)]), db);
        CategoryPhaseOnSettled(db, siteId, cats[1..], acc[cats[0].slug := c.out.value.id]);
      } else {
        assert c.out.Failure? && c.db == db;
        assert cats[0].slug in CategorySlugs(cats);
      }
    }
  }

  /**
   * The category phase leaves the site settled; it has created every category when it
   * succeeds, and not all of them when it fails.
   */
  lemma {:induction false} CategoryPhaseSettles(db: Db, siteId: nat, cats: seq<CategoryDef>, acc: map<string, nat>)
    ensures var s := CategoryPhase(db, siteId, cats, acc);
      && CategoriesSettled(s.db, siteId, cats)
      && (s.out.Success? <==> AllCategoriesExist(s.db, siteId, cats))
    decreases |cats|
  {
    if cats != [] {
      var s := CategoryPhase(db, siteId, cats, acc);
      var c := CategoryUpsert(db, cats[0], siteId);
      var key := Key(cats[0].slug, siteId);
      assert cats[0].slug in CategorySlugs(cats);
      if c.out.Success? {
        CategoryPhaseSettles(c.db, siteId, cats[1..], acc[cats[0].slug := c.out.value.id]);
        assert Grows(c.db, s.db);
      } else {
        assert s.db == db && key !in db.categories;
      }
    }
  }

  /** Settled categories stay settled as the store grows, and a missing one stays missing. */
  lemma {:induction false} CategoriesSettledGrows(db: Db, db': Db, siteId: nat, cats: seq<CategoryDef>)
    requires CategoriesSettled(db, siteId, cats) && Grows(db, db')
    ensures CategoriesSettled(db', siteId, cats)
    ensures AllCategoriesExist(db', siteId, cats) ==> AllCategoriesExist(db, siteId, cats)
    decreases |cats|
  {
    if cats != [] {
      assert cats[0].slug in CategorySlugs(cats);
      if Key(cats[0].slug, siteId) in db.categories {
        CategoriesSettledGrows(db, db', siteId, cats[1..]);
      }
    }
  }

  // ---------------------------------------------------------------------------
  // Recipes and packs
  // ---------------------------------------------------------------------------

  /** Creating the recipes changes nothing: each exists in the site or is refused. */
  ghost predicate RecipesSettled(db: Db, siteId: nat, recipes: seq<RawRecipe>) {
    forall slug :: slug in RecipeSlugs(recipes) ==> Key(slug, siteId) in db.recipes || Key(slug, siteId) in db.refused.recipes
  }

  /** Creating the packs changes nothing: each exists in the site or is refused. */
  ghost predicate PacksSettled(db: Db, siteId: nat, packs: seq<RawPack>) {
    forall slug :: slug in PackSlugs(packs) ==> Key(slug, siteId) in db.packs || Key(slug, siteId) in db.refused.packs
  }

  ghost predicate FixtureSettled(db: Db, siteId: nat, fixture: SiteFixture) {
    RecipesSettled(db, siteId, fixture.recipes) && (fixture.packs.Some? ==> PacksSettled(db, siteId, fixture.packs.value))
  }

  /** On a settled store the recipe phase creates nothing and records nothing. */
  lemma {:induction false} RecipePhaseOnSettled(db: Db, siteId: nat, categoryMap: map<string, nat>, recipes: seq<RawRecipe>, acc: map<string, nat>)
    requires RecipesSettled(db, siteId, recipes)
    ensures RecipePhase(db, siteId, categoryMap, recipes, acc) == Step(acc, db)
    decreases |recipes|
  {
    if recipes != [] {
      assert recipes[0].slug in RecipeSlugs(recipes);
      var c := RecipeCreation(db, recipes[0], siteId, categoryMap);
      assert c == Step(None, db);
      RecipePhaseOnSettled(db, siteId, categoryMap, recipes[1..], acc);
    }
  }

  /** On a settled store the pack phase creates nothing. */
  lemma {:induction false} PackPhaseOnSettled(db: Db, siteId: nat, recipeMap: map<string, nat>, packs: seq<RawPack>)
    requires PacksSettled(db, siteId, packs)
    ensures PackPhase(db, siteId, recipeMap, packs) == db
    decreases |packs|
  {
    if packs != [] {
      assert packs[0].slug in PackSlugs(packs);
      var c := PackCreation(db, packs[0], siteId, recipeMap);
      assert c == Step(None, db);
      PackPhaseOnSettled(db, siteId, recipeMap, packs[1..]);
    }
  }

  /** Settled recipes and packs stay settled as the store grows. */
  lemma FixtureSettledGrows(db: Db, db': Db, siteId: nat, fixture: SiteFixture)
    requires FixtureSettled(db, siteId, fixture) && Grows(db, db')
    ensures FixtureSettled(db', siteId, fixture)
  {
  }

  /** On a settled store the fixture part creates nothing and its recipe map is empty. */
  lemma FixtureSeedingOnSettled(db: Db, siteId: nat, categoryMap: map<string, nat>, fixture: SiteFixture)
    requires FixtureSettled(db, siteId, fixture)
    ensures FixtureSeeding(db, siteId, categoryMap, fixture) == Step(map[], db)
  {
    RecipePhaseOnSettled(db, siteId, categoryMap, fixture.recipes, map[]);
    if fixture.packs.Some? {
      PackPhaseOnSettled(db, siteId, map[], fixture.packs.value);
    }
  }

  /** The fixture part leaves the site's recipes and packs settled. */
  lemma FixtureSeedingSettles(db: Db, siteId: nat, categoryMap: map<string, nat>, fixture: SiteFixture)
    ensures FixtureSettled(FixtureSeeding(db, siteId, categoryMap, fixture).db, siteId, fixture)
  {
    var recipes := RecipePhase(db, siteId, categoryMap, fixture.recipes, map[]);
    RecipePhaseTable(db, siteId, categoryMap, fixture.recipes, map[]);
    assert RecipesSettled(recipes.db, siteId, fixture.recipes);
    if fixture.packs.Some? {
      var after := PackPhase(recipes.db, siteId, recipes.out, fixture.packs.value);
      PackPhaseKeys(recipes.db, siteId, recipes.out, fixture.packs.value);
      assert after.recipes == recipes.db.recipes && after.refused == recipes.db.refused;
    }
  }

  // ---------------------------------------------------------------------------
  // Single upserts
  // ---------------------------------------------------------------------------

  /** Upserting a site twice gives the same site and creates nothing the second time. */
  lemma SiteUpsertTwice(db: Db, cfg: SiteConfig)
    ensures var first := SiteUpsert(db, cfg);
      SiteUpsert(first.db, cfg) == first
  {
  }

  /** Upserting a category twice gives the same category and creates nothing the second time. */
  lemma CategoryUpsertTwice(db: Db, category: CategoryDef, siteId: nat)
    ensures var first := CategoryUpsert(db, category, siteId);
      CategoryUpsert(first.db, category, siteId) == first
  {
  }

  // ---------------------------------------------------------------------------
  // Sites
  // ---------------------------------------------------------------------------

  /**
   * Seeding the site changes nothing: either its domain is missing and refused, or it
   * exists, its categories are settled and, when they all exist, so is its fixture.
   */
  ghost predicate SiteSettled(db: Db, cfg: SiteConfig, categories: seq<CategoryDef>, fixture: Option<SiteFixture>) {
    var site := Key(cfg.domain, 0);
    if site !in db.sites then site in db.refused.sites
    else
      var siteId := db.sites[site].id;
      && CategoriesSettled(db, siteId, categories)
      && (AllCategoriesExist(db, siteId, categories) && fixture.Some? ==> FixtureSettled(db, siteId, fixture.value))
  }

  /**
   * On a settled store, seeding the site changes nothing, reports the site that is
   * there, and reports an empty recipe map.
   */
  lemma SiteSeedingOnSettled(db: Db, cfg: SiteConfig, categories: seq<CategoryDef>, fixture: Option<SiteFixture>)
    requires SiteSettled(db, cfg, categories, fixture)
    ensures var s := SiteSeeding(db, cfg, categories, fixture);
      && s.db == db
      && (s.out.Success? ==> s.out.value.siteId == db.sites[Key(cfg.domain, 0)].id)
      && (s.out.Success? && s.out.value.recipeMap.Some? ==> s.out.value.recipeMap.value == map[])
  {
    var s := SiteSeeding(db, cfg, categories, fixture);
    var u := SiteUpsert(db, cfg);
    if u.out.Success? {
      var siteId := u.out.value.id;
      assert u.db == db;
      var cats := CategoryPhase(db, siteId, categories, map[]);
      CategoryPhaseOnSettled(db, siteId, categories, map[]);
      if cats.out.Success? && fixture.Some? {
        FixtureSeedingOnSettled(db, siteId, cats.out.value, fixture.value);
        assert s == Step(Success(SiteReport(siteId, cats.out.value, Some(map[]))), db);
      }
    }
  }

  /** Seeding a site leaves it settled. */
  lemma SiteSeedingSettles(db: Db, cfg: SiteConfig, categories: seq<CategoryDef>, fixture: Option<SiteFixture>)
    ensures SiteSettled(SiteSeeding(db, cfg, categories, fixture).db, cfg, categories, fixture)
  {
    var s := SiteSeeding(db, cfg, categories, fixture);
    var site := Key(cfg.domain, 0);
    var u := SiteUpsert(db, cfg);
    if u.out.Success? {
      var siteId := u.out.value.id;
      var cats := CategoryPhase(u.db, siteId, categories, map[]);
      CategoryPhaseSettles(u.db, siteId, categories, map[]);
      assert cats.db.sites == u.db.sites;
      if cats.out.Failure? || fixture.None? {
        assert s.db == cats.db;
      } else {
        var seeded := FixtureSeeding(cats.db, siteId, cats.out.value, fixture.value);
        assert s.db == seeded.db;
        FixtureSeedingSettles(cats.db, siteId, cats.out.value, fixture.value);
        CategoriesSettledGrows(cats.db, seeded.db, siteId, categories);
      }
    }
  }

  /** A settled site stays settled as the store grows. */
  lemma SiteSettledGrows(db: Db, db': Db, cfg: SiteConfig, categories: seq<CategoryDef>, fixture: Option<SiteFixture>)
    requires SiteSettled(db, cfg, categories, fixture) && Grows(db, db')
    ensures SiteSettled(db', cfg, categories, fixture)
  {
    var site := Key(cfg.domain, 0);
    if site in db.sites {
      var siteId := db.sites[site].id;
      CategoriesSettledGrows(db, db', siteId, categories);
      if AllCategoriesExist(db', siteId, categories) && fixture.Some? {
        FixtureSettledGrows(db, db', siteId, fixture.value);
      }
    }
  }

  // ---------------------------------------------------------------------------
  // Whole runs
  // ---------------------------------------------------------------------------

  ghost predicate AllSettled(db: Db, cfgs: seq<SiteConfig>, categories: seq<CategoryDef>, fixtures: map<string, SiteFixture>) {
    forall i :: 0 <= i < |cfgs| ==> SiteSettled(db, cfgs[i], categories, FixtureFor(fixtures, cfgs[i].domain))
  }

  /** Settled sites stay settled as the store grows. */
  lemma AllSettledGrows(db: Db, db': Db, cfgs: seq<SiteConfig>, categories: seq<CategoryDef>, fixtures: map<string, SiteFixture>)
    requires AllSettled(db, cfgs, categories, fixtures) && Grows(db, db')
    ensures AllSettled(db', cfgs, categories, fixtures)
  {
    forall i | 0 <= i < |cfgs|
      ensures SiteSettled(db', cfgs[i], categories, FixtureFor(fixtures, cfgs[i].domain))
    {
      SiteSettledGrows(db, db', cfgs[i], categories, FixtureFor(fixtures, cfgs[i].domain));
    }
  }

  /** The sites before the last are settled, and so is the last: all are. */
  lemma AllSettledSnoc(db: Db, cfgs: seq<SiteConfig>, categories: seq<CategoryDef>, fixtures: map<string, SiteFixture>)
    requires cfgs != []
    requires AllSettled(db, cfgs[..|cfgs| - 1], categories, fixtures)
    requires SiteSettled(db, cfgs[|cfgs| - 1], categories, FixtureFor(fixtures, cfgs[|cfgs| - 1].domain))
    ensures AllSettled(db, cfgs, categories, fixtures)
  {
    var n := |cfgs| - 1;
    forall i | 0 <= i < n
      ensures SiteSettled(db, cfgs[i], categories, FixtureFor(fixtures, cfgs[i].domain))
    {
      assert cfgs[..n][i] == cfgs[i];
    }
  }

  /** A run leaves every site it seeded settled, the later sites notwithstanding. */
  lemma {:induction false} SeedingSettles(db: Db, cfgs: seq<SiteConfig>, categories: seq<CategoryDef>, fixtures: map<string, SiteFixture>)
    ensures AllSettled(Seeding(db, cfgs, categories, fixtures).db, cfgs, categories, fixtures)
    decreases |cfgs|
  {
    if cfgs != [] {
      var n := |cfgs| - 1;
      var before := Seeding(db, cfgs[..n], categories, fixtures);
      var last := SiteSeeding(before.db, cfgs[n], categories, FixtureFor(fixtures, cfgs[n].domain));
      assert Seeding(db, cfgs, categories, fixtures).db == last.db;
      SeedingSettles(db, cfgs[..n], categories, fixtures);
      SiteSeedingSettles(before.db, cfgs[n], categories, FixtureFor(fixtures, cfgs[n].domain));
      AllSettledGrows(before.db, last.db, cfgs[..n], categories, fixtures);
      AllSettledSnoc(last.db, cfgs, categories, fixtures);
    }
  }

  /** On a store where every site is settled, a run changes nothing and records no recipe. */
  lemma {:induction false} SeedingOnSettled(db: Db, cfgs: seq<SiteConfig>, categories: seq<CategoryDef>, fixtures: map<string, SiteFixture>)
    requires AllSettled(db, cfgs, categories, fixtures)
    ensures var s := Seeding(db, cfgs, categories, fixtures);
      && s.db == db
      && (forall i :: 0 <= i < |cfgs| && s.out[i].Success? && s.out[i].value.recipeMap.Some? ==>
            s.out[i].value.recipeMap.value == map[])
    decreases |cfgs|
  {
    if cfgs != [] {
      var n := |cfgs| - 1;
      var before := Seeding(db, cfgs[..n], categories, fixtures);
      var last := SiteSeeding(before.db, cfgs[n], categories, FixtureFor(fixtures, cfgs[n].domain));
      assert Seeding(db, cfgs, categories, fixtures) == Step(before.out + [last.out], last.db);
      assert AllSettled(db, cfgs[..n], categories, fixtures) by {
        forall i | 0 <= i < n
          ensures SiteSettled(db, cfgs[..n][i], categories, FixtureFor(fixtures, cfgs[..n][i].domain))
        {
          assert cfgs[..n][i] == cfgs[i];
        }
      }
      SeedingOnSettled(db, cfgs[..n], categories, fixtures);
      SiteSeedingOnSettled(db, cfgs[n], categories, FixtureFor(fixtures, cfgs[n].domain));
    }
  }

  /**
   * Running the whole pipeline a second time creates nothing: the store ends as the
   * first run left it, and no site reports a recipe it created.
   */
  lemma SecondRunChangesNothing(db: Db, cfgs: seq<SiteConfig>, categories: seq<CategoryDef>, fixtures: map<string, SiteFixture>)
    ensures var first := Seeding(db, cfgs, categories, fixtures);
      var second := Seeding(first.db, cfgs, categories, fixtures);
      && second.db == first.db
      && (forall i :: 0 <= i < |cfgs| && second.out[i].Success? && second.out[i].value.recipeMap.Some? ==>
            second.out[i].value.recipeMap.value == map[])
  {
    SeedingSettles(db, cfgs, categories, fixtures);
    SeedingOnSettled(Seeding(db, cfgs, categories, fixtures).db, cfgs, categories, fixtures);
  }
}
