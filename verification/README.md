# Protein Empire CMS seed pipeline, in Dafny

This project models the data seed script of the Protein Empire CMS
(`scripts/seed-data.js`). The script fills a Strapi content store with twelve recipe
sites. For every configured site, in order, it does four things:

1. It creates the site, or finds it when the create fails.
2. It creates the ten standard categories of the site the same way, building a
   category slug to id map.
3. It creates the recipes of the site's `recipes.json`, building a recipe slug to id
   map from the creates that succeed.
4. It creates the recipe packs of the site's `packs.json`, with the pack's recipe
   slugs resolved through that map.

A failure while seeding a site is caught, and the next site is seeded anyway.

The model has two layers, as the script does.

- `fixtures.dfy` (module `Fixtures`) holds the pure normalisation of fixture records
  into request bodies:
  - slug to id resolution with unknown and falsy ids dropped;
  - ingredient and instruction formatting;
  - numeric defaults under JavaScript `||`, where a missing field, `0` and `""` are
    all falsy;
  - the `isFree` rule;
  - the fixture directory name of a domain.
- `content_api.dfy` (module `ContentApi`) models the remote store. There is a value
  model `Db`, with one map per collection from natural key to `Row(id, payload)`, and
  a `Store` class whose create methods update those maps in place.
  - A create fails when the natural key exists already (`DuplicateKey`).
  - A create also fails when its natural key is among the store's refused keys for
    that collection (`Rejected`). There is one set of refused keys per collection, and
    a key is a name within a site. This stands for every other refusal, such as
    validation or permission errors.
  - A create that succeeds takes the next id from a counter that starts at 1, so
    every id is truthy.
- `seeder.dfy` (module `Seeder`) is the pipeline. Every step appears twice:
  - as a function on `Db` values whose contract says what the step achieves
    (`SiteUpsert`, `CategoryPhase`, `RecipePhase`, `SiteSeeding`, `Seeding`, ...);
  - as a method on the `Store` object that sends the requests one by one
    (`CreateSite`, `SeedCategories`, `SeedRecipes`, `SeedSite`, `SeedSites`, ...).
    Each method is proved to end in exactly the result and store state the function
    gives.

  `seedSite` returns nothing in the script. Its outcome is modelled as a `Result`
  holding what it built: the site id, the category map and, for a site with a fixture,
  the recipe map. A thrown error becomes a `Failure`.
- `phase_facts.dfy` (module `PhaseFacts`) proves what each phase achieves against the
  store it started from. It covers:
  - when the category phase fails, and which maps it builds;
  - which recipes and packs get created, and from which fixture record;
  - that the recipe map holds exactly the recipes created in this run;
  - that sites are seeded in list order whatever happened to the ones before;
  - that the pipeline only ever adds to the store.
- `rerun.dfy` (module `Rerun`) proves that running the pipeline a second time
  changes nothing. Because recipes have no lookup fallback, the second run reports an
  empty recipe map for every site with a fixture. The theorem assumes three things:
  the store refuses the same keys in both runs; no request fails for a passing
  reason; and the store itself keeps domains and (slug, site) pairs unique.

The standard categories and the site list are the constants `Seeder.Categories` and
`Seeder.Sites`. The site-level functions and lemmas take the category list as a
parameter, so they hold for any list. `Seeder.SeedAll`, the model of `main`, runs them
on the constants.

Where the system's design documentation and the script disagree, the model follows
the script:

- The design says a recipe whose create fails falls back to a lookup, so that a
  rerun keeps the existing recipe's id in the recipe map. `createRecipe` has no such
  fallback: it returns `null` (`scripts/seed-data.js:183-186`). The model returns
  `None`. `Rerun.SecondRunChangesNothing` shows the consequence: the rerun's recipe
  maps are empty.
- The design says an entity whose create and lookup both fail is skipped while
  the batch continues. For a category, `createCategory` rethrows and the whole site is
  abandoned (`scripts/seed-data.js:129`, `229`). The model fails the site.
- A pack's recipe ids come only from the recipe map of the same run, which holds only
  the recipes that run created. So a pack added after its recipes exist, as in a rerun
  where only the pack is new, is created with no recipe ids.
  `PhaseFacts.EmptyPackWhenRecipesExist` states this.

## Model

| member | source | states |
|---|---|---|
| Fixtures.ResolveIds | scripts/seed-data.js:137-139 | an id is in the result iff some slug is in the map with that non-zero id; the result is never longer than the slugs, and it has the same length iff every slug is known with a truthy id |
| Fixtures.ResolveIdsAppend | scripts/seed-data.js:193-195 | resolving a concatenation is the concatenation of the resolutions, so surviving ids keep their slugs' order |
| Fixtures.ResolveIdsNothingKnown | scripts/seed-data.js:193-195 | when no slug is known, nothing survives resolution |
| Fixtures.ResolveIdsAllKnown | scripts/seed-data.js:137-139 | when every slug is known with a truthy id, the result keeps the length and id `i` is the map value of slug `i` |
| Fixtures.FormatIngredient | scripts/seed-data.js:142-147 | a bare string `s` becomes `{name: s, amount: "", unit: "", notes: ""}`; a record keeps each given field, turns each falsy field into `""`, and a falsy name falls back to the whole record |
| Fixtures.FormatIngredients | scripts/seed-data.js:142-147 | same length as the input, entry `i` formatted from input entry `i` |
| Fixtures.StepText | scripts/seed-data.js:152 | a bare string is the step; a record gives its `text` when truthy and its `instruction` otherwise, so the result is truthy whenever either field is |
| Fixtures.FormatInstructions | scripts/seed-data.js:150-153 | same length; step `i` is numbered `i + 1`; a bare string is copied; a record gives `text` when it is truthy, else `instruction` |
| Fixtures.FirstGivenSingle | scripts/seed-data.js:161-162 | `a \|\| fallback` is the first given value of the chain `[a]`, else the fallback |
| Fixtures.FirstGivenPair | scripts/seed-data.js:164-171 | `a \|\| b \|\| fallback` is the first given value of the chain `[a, b]`, else the fallback |
| Fixtures.FirstGivenNeverFalsy | scripts/seed-data.js:161-171 | a chain with a non-zero fallback never yields 0, and yields either the fallback or one of its given candidates |
| Fixtures.RecipeMacros | scripts/seed-data.js:166-171 | each nutrient is the nested `nutrition` value, else the top-level value, else its constant (150/15/10/5/2/3), and is never 0 |
| Fixtures.BuildRecipeFields | scripts/seed-data.js:155-179 | the recipe body: prep time defaults to 10, cook time to 15, total time to effective prep plus effective cook, servings to `yield` then 12, difficulty to "Easy"; nutrition as in RecipeMacros; categories resolved through the category map; ingredients, instructions, tips and tags formatted or defaulted to `[]`; the site id; published |
| Fixtures.IsFree | scripts/seed-data.js:203 | a pack is free unless its flag is exactly the boolean false; any other boolean is taken as given |
| Fixtures.BuildPack | scripts/seed-data.js:193-206 | the pack body: recipe ids resolved through the recipe map (never more than the slugs), paid iff the flag is exactly false, name, slug, description and site copied |
| Fixtures.DomainKey | scripts/seed-data.js:234 | same length as the domain; every `.` becomes `-`, every other character is unchanged; the key has no `.` |
| Fixtures.SitePayloadOf | scripts/seed-data.js:87-95 | the site body carries the whole configuration (domain, name, food type, brand colour) and marks the site active |
| Fixtures.CategoryPayloadOf | scripts/seed-data.js:115-120 | the category body carries the whole definition (name, slug, description) and the site id |
| ContentApi.Insert | scripts/seed-data.js:86-96 | the store's create rule: a row is created iff the key is new and not refused; the row holds the next id and the payload; the error is `DuplicateKey` iff the key exists |
| ContentApi.Matching | scripts/seed-data.js:101 | a lookup by natural key yields at most one row, one iff the key is stored, and that row is the stored one |
| ContentApi.Db.FindSites | scripts/seed-data.js:101 | the lookup by domain yields at most one row, one iff the domain is stored, and that row is the stored site |
| ContentApi.Db.FindCategories | scripts/seed-data.js:125 | the lookup by slug and site yields at most one row, one iff the category is stored, and that row is the stored category |
| ContentApi.Db.PostSite | scripts/seed-data.js:86-96 | the create succeeds iff the domain is new and not refused; on success the row gets the next id and is added under the domain, and the counter moves on; on failure nothing changes; the store only grows and ids stay truthy |
| ContentApi.Db.PostCategory | scripts/seed-data.js:114-121 | the same for a category keyed by slug within its site |
| ContentApi.Db.PostRecipe | scripts/seed-data.js:156-180 | the same for a recipe keyed by slug within its site |
| ContentApi.Db.PostPack | scripts/seed-data.js:198-207 | the same for a pack keyed by slug within its site |
| ContentApi.Store.constructor | scripts/seed-data.js:60-80 | a new store is empty, refuses the given keys, and its first id is 1 |
| ContentApi.Store.PostSite | scripts/seed-data.js:86 | the request's result and the new state are those of `Db.PostSite` on the old state |
| ContentApi.Store.PostCategory | scripts/seed-data.js:114 | the request's result and the new state are those of `Db.PostCategory` on the old state |
| ContentApi.Store.PostRecipe | scripts/seed-data.js:156 | the request's result and the new state are those of `Db.PostRecipe` on the old state |
| ContentApi.Store.PostPack | scripts/seed-data.js:198 | the request's result and the new state are those of `Db.PostPack` on the old state |
| ContentApi.Store.FindSites | scripts/seed-data.js:101 | the lookup by domain on the live store yields at most one row, one iff the domain is stored, and that row is the stored site |
| ContentApi.Store.FindCategories | scripts/seed-data.js:125 | the lookup by slug and site on the live store yields at most one row, one iff the category is stored, and that row is the stored category |
| Seeder.FixtureFor | scripts/seed-data.js:234-241 | a site has a fixture iff its domain's directory name is among the fixtures, and then it is that fixture |
| Seeder.SiteUpsert | scripts/seed-data.js:82-108 | succeeds iff the site exists or its domain is not refused; an existing site is returned as it is, with nothing created; a new one is created with the next id; after success the store holds the returned site under the domain; the only failure is the refusal, and it changes nothing |
| Seeder.CategoryUpsert | scripts/seed-data.js:110-131 | the same for a category within a site |
| Seeder.RecipeCreation | scripts/seed-data.js:133-187 | yields a row iff the slug is new in the site and not refused, and the row holds the next id and the built recipe body; otherwise yields None and leaves the store as it was (no lookup) |
| Seeder.PackCreation | scripts/seed-data.js:189-214 | the same for a pack with the built pack body |
| Seeder.CategoryPhase | scripts/seed-data.js:227-231 | only categories and the id counter change; the store only grows and ids stay truthy |
| Seeder.RecipePhase | scripts/seed-data.js:248-254 | only recipes and the id counter change; the store only grows and ids stay truthy |
| Seeder.PackPhase | scripts/seed-data.js:264-266 | only packs and the id counter change; the store only grows and ids stay truthy |
| Seeder.FixtureSeeding | scripts/seed-data.js:243-267 | only recipes, packs and the id counter change; the store only grows and ids stay truthy |
| Seeder.SiteSeeding | scripts/seed-data.js:216-270 | seeding a site only adds to the store and keeps ids truthy |
| Seeder.RunSites | scripts/seed-data.js:289-295 | the loop yields one outcome per site |
| Seeder.Seeding | scripts/seed-data.js:289-295 | one outcome per configured site, failures included |
| Seeder.CreateSite | scripts/seed-data.js:82-108 | the method's result and new store state are those of SiteUpsert on the old state |
| Seeder.CreateCategory | scripts/seed-data.js:110-131 | the method's result and new store state are those of CategoryUpsert on the old state |
| Seeder.CreateRecipe | scripts/seed-data.js:133-187 | the method's result and new store state are those of RecipeCreation on the old state |
| Seeder.CreateRecipePack | scripts/seed-data.js:189-214 | the method's result and new store state are those of PackCreation on the old state |
| Seeder.SeedCategories | scripts/seed-data.js:226-231 | the category loop returns the map, or the first failure, and leaves the store that CategoryPhase gives |
| Seeder.SeedRecipes | scripts/seed-data.js:247-254 | the recipe loop returns the map and leaves the store that RecipePhase gives |
| Seeder.SeedPacks | scripts/seed-data.js:259-267 | the pack loop leaves the store that PackPhase gives |
| Seeder.SeedFixture | scripts/seed-data.js:243-267 | the recipes, then the packs when there are any, give the map and store that FixtureSeeding gives |
| Seeder.SeedSite | scripts/seed-data.js:216-270 | the outcome and new store are those of SiteSeeding |
| Seeder.SeedSites | scripts/seed-data.js:288-295 | the outcomes and new store are those of Seeding |
| Seeder.SeedAll | scripts/seed-data.js:272-296 | one outcome per configured site; the outcomes and store are those of Seeding over the twelve sites with the ten standard categories |
| PhaseFacts.CategoryPhaseOutcome | scripts/seed-data.js:227-231 | the category phase succeeds iff every category slug exists in the site already or is not refused; a failure is the refusal |
| PhaseFacts.CategoryPhaseMap | scripts/seed-data.js:227-231 | on success the map has exactly the category slugs (besides prior entries), each mapped to the id the store holds for that category in the site; other prior entries are kept |
| PhaseFacts.RecipePhaseTable | scripts/seed-data.js:249-254 | every recipe is attempted, failures included: afterwards the site holds a recipe for every fixture slug the store accepts, and nothing else was added |
| PhaseFacts.RecipePhaseMapKeys | scripts/seed-data.js:249-254 | a slug is in the recipe map iff it was already there, or this phase created its recipe (the slug was new in the site and not refused) |
| PhaseFacts.RecipePhaseKeeps | scripts/seed-data.js:249-254 | prior map entries for slugs this phase does not create are kept |
| PhaseFacts.RecipePhaseIds | scripts/seed-data.js:250-253 | every recipe this phase created is in the map with the id the store assigned it |
| PhaseFacts.RecipeCreationAdds | scripts/seed-data.js:155-180 | the only recipe a creation adds is the recipe's own slug in the site, stored with the built body |
| PhaseFacts.RecipePhasePayloads | scripts/seed-data.js:249-251 | each recipe the phase added is stored with the body built from the first fixture record with that slug |
| PhaseFacts.PackPhaseKeys | scripts/seed-data.js:264-266 | every pack is attempted: afterwards the site holds a pack for every fixture slug the store accepts, and nothing else was added |
| PhaseFacts.PackPhasePayloads | scripts/seed-data.js:264-266 | each pack the phase added is stored with the body built from the first fixture record with that slug |
| PhaseFacts.SiteSeedingFailure | scripts/seed-data.js:222-231 | when seeding a site fails, the error is the refusal, and the site is blocked: its domain is new and refused, or a standard category missing from it is refused |
| PhaseFacts.SiteSeedingBlocked | scripts/seed-data.js:222-231 | a blocked site fails |
| PhaseFacts.SiteSeedingOutcome | scripts/seed-data.js:222-231 | seeding a site fails iff it is blocked, and the error is the refusal |
| PhaseFacts.SiteSeedingCategories | scripts/seed-data.js:222-231 | a seeded site reports the id the store holds for its domain, a category map with exactly the standard slugs, each mapped to the id of that category in the site, and a recipe map iff it has a fixture |
| PhaseFacts.SiteSeedingRecipes | scripts/seed-data.js:248-254 | a seeded site's recipe map holds exactly the fixture slugs that were new in the site and accepted, each with the id the store holds for it |
| PhaseFacts.FixtureSeedingPayloads | scripts/seed-data.js:248-267 | each recipe a fixture added is in the site, and is stored with the body built from the fixture's first record with that slug |
| PhaseFacts.SiteSeedingRecipeCategories | scripts/seed-data.js:137-139 | in a store with truthy ids, each recipe a seeded site created carries its slugs resolved through the site's category map; when all its slugs are standard categories, none is dropped and id `i` is the store's id for category `i` in the site |
| PhaseFacts.EmptyPackWhenRecipesExist | scripts/seed-data.js:193-195 | when every recipe of a fixture exists already, the recipe map is empty and every pack the fixture adds has no recipe ids |
| PhaseFacts.FixtureSeedingRecipes | scripts/seed-data.js:248-267 | the fixture's recipe map holds exactly the recipes created in this run, with their ids, once the packs are done too |
| PhaseFacts.RunSitesDropLast | scripts/seed-data.js:289-295 | seeding one more site leaves the outcomes of the earlier sites as they were |
| PhaseFacts.RunSitesPrefix | scripts/seed-data.js:289-295 | the first `k` outcomes are those of the first `k` sites alone |
| PhaseFacts.RunSitesInOrder | scripts/seed-data.js:289-295 | outcome `i` is site `i` seeded against the store the sites before it left |
| PhaseFacts.SeedingInOrder | scripts/seed-data.js:289-295 | outcome `i` of the pipeline is SiteSeeding of site `i`, with its fixture, against the store the earlier sites left, whether they failed or not |
| PhaseFacts.SeedingGrows | scripts/seed-data.js:289-295 | a run removes and changes nothing, adds nothing refused, and keeps ids truthy |
| Rerun.CategoryPhaseOnSettled | scripts/seed-data.js:227-231 | on a settled site the category phase changes nothing, and succeeds iff every category exists |
| Rerun.CategoryPhaseSettles | scripts/seed-data.js:227-231 | the category phase leaves the site settled, and it succeeded iff every category exists afterwards |
| Rerun.CategoriesSettledGrows | scripts/seed-data.js:227-231 | settled categories stay settled as the store grows, and a missing one stays missing |
| Rerun.RecipePhaseOnSettled | scripts/seed-data.js:183-186 | when every recipe exists or is refused, the recipe phase creates nothing and records nothing |
| Rerun.PackPhaseOnSettled | scripts/seed-data.js:210-213 | when every pack exists or is refused, the pack phase creates nothing |
| Rerun.FixtureSettledGrows | scripts/seed-data.js:248-267 | settled recipes and packs stay settled as the store grows |
| Rerun.FixtureSeedingOnSettled | scripts/seed-data.js:248-267 | on a settled fixture the fixture part creates nothing and its recipe map is empty |
| Rerun.FixtureSeedingSettles | scripts/seed-data.js:248-267 | the fixture part leaves the site's recipes and packs settled |
| Rerun.SiteUpsertTwice | scripts/seed-data.js:85-107 | upserting a site again returns the same site and creates nothing |
| Rerun.CategoryUpsertTwice | scripts/seed-data.js:113-130 | upserting a category again returns the same category and creates nothing |
| Rerun.SiteSeedingOnSettled | scripts/seed-data.js:216-270 | on a settled site, seeding it changes nothing, reports the site that is there and reports an empty recipe map |
| Rerun.SiteSeedingSettles | scripts/seed-data.js:216-270 | seeding a site leaves it settled |
| Rerun.SiteSettledGrows | scripts/seed-data.js:216-270 | a settled site stays settled as the store grows |
| Rerun.AllSettledGrows | scripts/seed-data.js:289-295 | settled sites stay settled as the store grows |
| Rerun.SeedingSettles | scripts/seed-data.js:289-295 | a run leaves every site it seeded settled, later sites notwithstanding |
| Rerun.SeedingOnSettled | scripts/seed-data.js:289-295 | on a store where every site is settled, a run changes nothing and no site reports a created recipe |
| Rerun.SecondRunChangesNothing | scripts/seed-data.js:289-295 | running the pipeline again leaves the store as the first run left it, and every recipe map of the second run is empty |

## Left out

- HTTP transport, URL and header building, JSON encoding and decoding, and console logging (`apiRequest`, `scripts/seed-data.js:60-80`). A request is a call on the store that succeeds or fails.
- A lookup that itself fails (network error during the fallback `GET`): lookups in the model always answer.
- The credential check and `process.exit` (`scripts/seed-data.js:16-23`), and the connectivity probe at the start of `main` (`scripts/seed-data.js:279-286`): they abort before any seeding.
- File-system access: whether `recipes.json` and `packs.json` exist, and their contents, are inputs (`SiteFixture`, looked up by `FixtureFor` under `DomainKey` of the domain). The path building and a fixture file that fails to parse are not modelled.
- `recipesData.recipes || recipesData` and `packsData.packs || packsData` (`scripts/seed-data.js:244`, `261`): a fixture is given directly as its list of records.
- The `tagline` and `metaDescription` texts of a site (`scripts/seed-data.js:92-93`): they are cosmetic string templates.
- JavaScript values outside the modelled shapes: non-integer or non-numeric numbers, `NaN`, inherited prototype keys such as `constructor` in the slug maps, a record without a slug, and an ingredient whose `amount`, `unit` or `notes` is a number rather than a string (the script passes a non-zero number through and turns `0` into `""`; the model types these fields as optional strings). Fixture fields are optional values with falsiness made explicit.
- What the store does beyond key uniqueness and refusal: each collection has one fixed set of refused keys, standing for every validation or permission error. Whether a create is refused depends only on its natural key, not on the rest of the payload. The real store's own id assignment is modelled as a counter from 1.
- Passing failures (a timeout, a dropped connection, a server error on one attempt): a refused key is refused on every attempt and in every run. `Rerun.SecondRunChangesNothing` therefore assumes that the second run meets the same refusals as the first.
- Uniqueness of a site's domain and of a (slug, site) pair is enforced by the store in the model. The rerun theorem relies on it; a real store without such constraints would accept duplicate creates.
- Formatting errors. `createRecipe` formats the categories, ingredients and instructions before its `try` (`scripts/seed-data.js:137-153`, `try` at 155), and `createRecipePack` resolves its recipe slugs before its `try` (`scripts/seed-data.js:193-195`, `try` at 197). So a fixture record such as `ingredients: [null]`, `instructions: [null]` or `categories: "vegan"` throws a `TypeError`. That error escapes through `seedSite` (`scripts/seed-data.js:250`, `265`) to the catch in `main` (`scripts/seed-data.js:292`), and the site's remaining recipes and all of its packs are abandoned. The model's fixture records cannot express these shapes (null list entries, and `ingredients`, `instructions`, `categories`, a pack's `recipes` or the recipe list that is not a list). The isolation of one recipe's failure from the next (`PhaseFacts.RecipePhaseTable`) covers only failures of the create request.
- Concurrent writers to the store: the model is sequential, so the race between a failed create and its lookup does not arise.
- `src/api/recipe/content-types/recipe/lifecycles.ts`, `types/generated/components.d.ts` and `config/plugins.ts` are not part of this model: the first is timer- and network-driven rebuild notification, the others are declarations and configuration.
- Seeder.SiteSeeding: its own contract states only growth; its outcome and maps are stated by the PhaseFacts.SiteSeeding* lemmas and Rerun.SiteSeedingOnSettled.
- Seeder.CategoryPhase: its own contract states only what it may change; its outcome and map are stated by PhaseFacts.CategoryPhaseOutcome and PhaseFacts.CategoryPhaseMap.
- Seeder.RecipePhase: its own contract states only what it may change; what it creates and records is stated by the PhaseFacts.RecipePhase* lemmas.
- Seeder.PackPhase: its own contract states only what it may change; what it creates is stated by PhaseFacts.PackPhaseKeys and PhaseFacts.PackPhasePayloads.
- Seeder.FixtureSeeding: its own contract states only what it may change; its recipe map is stated by PhaseFacts.FixtureSeedingRecipes.
