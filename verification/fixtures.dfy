/**
 * Fixture records as they are read from a site's recipes.json / packs.json, the request
 * bodies the seeder posts, and the pure steps that turn the one into the other.
 *
 * JavaScript's `a || b` is modelled explicitly: a fixture field is an Option, and a field
 * counts as "given" only when it is present and not falsy ("" for text, 0 for numbers).
 */
module Fixtures {
  import opened Wrappers

  // ---------------------------------------------------------------------------
  // JavaScript truthiness of fixture fields
  // ---------------------------------------------------------------------------

  /** A text field is given when it is present and not the empty string. */
  predicate GivenText(field: Option<string>) {
    field.Some? && field.value != ""
  }

  /** A numeric field is given when it is present and not 0. */
  predicate GivenNumber(field: Option<int>) {
    field.Some? && field.value != 0
  }

  /** `field || fallback` on a text field. */
  function TextOr(field: Option<string>, fallback: string): string {
    if GivenText(field) then field.value else fallback
  }

  /** `field || fallback` on a numeric field. */
  function NumberOr(field: Option<int>, fallback: int): int {
    if GivenNumber(field) then field.value else fallback
  }

  /** `list || []` on a list field. */
  function OrEmpty<T>(field: Option<seq<T>>): seq<T> {
    if field.Some? then field.value else []
  }

  /**
   * Reference reading of a chain `c0 || c1 || ... || fallback`: the first given
   * candidate, or the fallback when none is given.
   */
  function FirstGiven(candidates: seq<Option<int>>, fallback: int): int {
    if candidates == [] then fallback
    else if GivenNumber(candidates[0]) then candidates[0].value
    else FirstGiven(candidates[1..], fallback)
  }

  // ---------------------------------------------------------------------------
  // Slug to id resolution (category slugs of a recipe, recipe slugs of a pack)
  // ---------------------------------------------------------------------------

  /**
   * Look every slug up and drop the ones that are unknown or map to the falsy id 0,
   * keeping slug order.
   */
  function ResolveIds(slugs: seq<string>, ids: map<string, nat>): (r: seq<nat>)
    ensures |r| <= |slugs|
    ensures forall id :: id in r <==>
      exists i :: 0 <= i < |slugs| && slugs[i] in ids && ids[slugs[i]] == id && id != 0
    ensures |r| == |slugs| <==> forall i :: 0 <= i < |slugs| ==> slugs[i] in ids && ids[slugs[i]] != 0
  {
    if slugs == [] then []
    else
      var rest := ResolveIds(slugs[1..], ids);
      assert forall i :: 1 <= i < |slugs| ==> slugs[i] == slugs[1..][i - 1];
      if slugs[0] in ids && ids[slugs[0]] != 0 then [ids[slugs[0]]] + rest else rest
  }

  /** Resolution distributes over concatenation: the surviving ids keep the order of their slugs. */
  lemma {:induction false} ResolveIdsAppend(a: seq<string>, b: seq<string>, ids: map<string, nat>)
    ensures ResolveIds(a + b, ids) == ResolveIds(a, ids) + ResolveIds(b, ids)
  {
    if a != [] {
      assert (a + b)[0] == a[0];
      assert (a + b)[1..] == a[1..] + b;
      ResolveIdsAppend(a[1..], b, ids);
    } else {
      assert a + b == b;
    }
  }

  /** When no slug is known, nothing survives resolution. */
  lemma {:induction false} ResolveIdsNothingKnown(slugs: seq<string>, ids: map<string, nat>)
    requires forall i :: 0 <= i < |slugs| ==> slugs[i] !in ids
    ensures ResolveIds(slugs, ids) == []
  {
    if slugs != [] {
      assert forall i :: 1 <= i < |slugs| ==> slugs[i] == slugs[1..][i - 1];
      ResolveIdsNothingKnown(slugs[1..], ids);
    }
  }

  /** When every slug is known with a non-zero id, resolution is a length-preserving lookup. */
  lemma {:induction false} ResolveIdsAllKnown(slugs: seq<string>, ids: map<string, nat>)
    requires forall i :: 0 <= i < |slugs| ==> slugs[i] in ids && ids[slugs[i]] != 0
    ensures |ResolveIds(slugs, ids)| == |slugs|
    ensures forall i :: 0 <= i < |slugs| ==> ResolveIds(slugs, ids)[i] == ids[slugs[i]]
  {
    if slugs != [] {
      assert forall i :: 1 <= i < |slugs| ==> slugs[i] == slugs[1..][i - 1];
      ResolveIdsAllKnown(slugs[1..], ids);
    }
  }

  // ---------------------------------------------------------------------------
  // Ingredients
  // ---------------------------------------------------------------------------

  /** An ingredient entry of a fixture: a bare name, or a record whose fields may be missing. */
  datatype RawIngredient =
    | BareName(text: string)
    | IngredientRecord(name: Option<string>, amount: Option<string>, unit: Option<string>, notes: Option<string>)

  /**
   * The `name` that goes into the payload. `ing.name || ing` falls back to the entry
   * itself, so a record whose name is missing or "" is sent as the whole record.
   */
  datatype NameValue = Text(text: string) | WholeRecord(record: RawIngredient)

  datatype Ingredient = Ingredient(name: NameValue, amount: string, unit: string, notes: string)

  /** One ingredient entry in canonical shape. */
  function FormatIngredient(ing: RawIngredient): (r: Ingredient)
    ensures ing.BareName? ==> r == Ingredient(Text(ing.text), "", "", "")
    ensures ing.IngredientRecord? ==>
      && (GivenText(ing.name) ==> r.name == Text(ing.name.value))
      && (!GivenText(ing.name) ==> r.name == WholeRecord(ing))
      && (r.amount == "" <==> !GivenText(ing.amount))
      && (r.unit == "" <==> !GivenText(ing.unit))
      && (r.notes == "" <==> !GivenText(ing.notes))
      && (GivenText(ing.amount) ==> r.amount == ing.amount.value)
      && (GivenText(ing.unit) ==> r.unit == ing.unit.value)
      && (GivenText(ing.notes) ==> r.notes == ing.notes.value)
  {
    match ing
    case BareName(s) => Ingredient(Text(s), "", "", "")
    case IngredientRecord(name, amount, unit, notes) =>
      Ingredient(if GivenText(name) then Text(name.value) else WholeRecord(ing),
                 TextOr(amount, ""), TextOr(unit, ""), TextOr(notes, ""))
  }

  /** The ingredient list in canonical shape: same length, entry by entry. */
  function FormatIngredients(raw: seq<RawIngredient>): (r: seq<Ingredient>)
    ensures |r| == |raw|
    ensures forall i :: 0 <= i < |raw| ==> r[i] == FormatIngredient(raw[i])
  {
    if raw == [] then []
    else
      assert forall i :: 1 <= i < |raw| ==> raw[i] == raw[1..][i - 1];
      [FormatIngredient(raw[0])] + FormatIngredients(raw[1..])
  }

  // ---------------------------------------------------------------------------
  // Instructions
  // ---------------------------------------------------------------------------

  /** An instruction entry of a fixture: a bare string, or a record carrying `text` or `instruction`. */
  datatype RawInstruction =
    | BareStep(step: string)
    | StepRecord(text: Option<string>, instruction: Option<string>)

  /** A numbered step; `instruction` is None when the record gave no usable text. */
  datatype Instruction = Instruction(stepNumber: nat, instruction: Option<string>)

  /**
   * The text of one step: a bare string is the step itself; a record gives its `text`
   * when that is non-empty and its `instruction` otherwise.
   */
  function StepText(inst: RawInstruction): (r: Option<string>)
    ensures inst.BareStep? ==> r == Some(inst.step)
    ensures inst.StepRecord? && GivenText(inst.text) ==> r == inst.text
    ensures inst.StepRecord? && !GivenText(inst.text) ==> r == inst.instruction
    ensures inst.StepRecord? && (GivenText(inst.text) || GivenText(inst.instruction)) ==> GivenText(r)
  {
    match inst
    case BareStep(s) => Some(s)
    case StepRecord(text, alternative) => if GivenText(text) then text else alternative
  }

  /** The instruction list, numbered from 1 in fixture order. */
  function FormatInstructions(raw: seq<RawInstruction>): (r: seq<Instruction>)
    ensures |r| == |raw|
    ensures forall i :: 0 <= i < |raw| ==> r[i].stepNumber == i + 1
    ensures forall i :: 0 <= i < |raw| && raw[i].BareStep? ==> r[i].instruction == Some(raw[i].step)
    ensures forall i :: 0 <= i < |raw| && raw[i].StepRecord? && GivenText(raw[i].text) ==>
      r[i].instruction == raw[i].text
    ensures forall i :: 0 <= i < |raw| && raw[i].StepRecord? && !GivenText(raw[i].text) ==>
      r[i].instruction == raw[i].instruction
  {
    if raw == [] then []
    else
      var init := raw[..|raw| - 1];
      assert forall i :: 0 <= i < |init| ==> raw[i] == init[i];
      FormatInstructions(init) + [Instruction(|raw|, StepText(raw[|raw| - 1]))]
  }

  // ---------------------------------------------------------------------------
  // Recipes
  // ---------------------------------------------------------------------------

  datatype Nutrient = Calories | Protein | Carbs | Fat | Fiber | Sugar

  /** The constant a nutrient falls back to when the fixture gives no value. */
  function NutrientDefault(k: Nutrient): int {
    match k
    case Calories => 150
    case Protein => 15
    case Carbs => 10
    case Fat => 5
    case Fiber => 2
    case Sugar => 3
  }

  /** Nutrition values as a fixture may give them, each possibly missing. */
  datatype Nutrition = Nutrition(calories: Option<int>, protein: Option<int>, carbs: Option<int>,
                                 fat: Option<int>, fiber: Option<int>, sugar: Option<int>)
  {
    function Of(k: Nutrient): Option<int> {
      match k
      case Calories => calories
      case Protein => protein
      case Carbs => carbs
      case Fat => fat
      case Fiber => fiber
      case Sugar => sugar
    }
  }

  /** Nutrition values as they are posted. */
  datatype Macros = Macros(calories: int, protein: int, carbs: int, fat: int, fiber: int, sugar: int)
  {
    function Of(k: Nutrient): int {
      match k
      case Calories => calories
      case Protein => protein
      case Carbs => carbs
      case Fat => fat
      case Fiber => fiber
      case Sugar => sugar
    }
  }

  /**
   * A recipe record of a fixture. `nutrition` is the nested object, `topLevel` the
   * nutrient fields written directly on the recipe; `recipeYield` is the `yield` field.
   */
  datatype RawRecipe = RawRecipe(
    title: Option<string>, slug: string, description: Option<string>,
    prepTime: Option<int>, cookTime: Option<int>, totalTime: Option<int>,
    servings: Option<int>, recipeYield: Option<int>, difficulty: Option<string>,
    nutrition: Option<Nutrition>, topLevel: Nutrition,
    ingredients: Option<seq<RawIngredient>>, instructions: Option<seq<RawInstruction>>,
    tips: Option<seq<string>>, tags: Option<seq<string>>, categories: Option<seq<string>>)

  /** The body of POST /recipes. */
  datatype RecipePayload = RecipePayload(
    title: Option<string>, slug: string, description: Option<string>,
    prepTime: int, cookTime: int, totalTime: int, servings: int, difficulty: string,
    macros: Macros, ingredients: seq<Ingredient>, instructions: seq<Instruction>,
    tips: seq<string>, tags: seq<string>, site: nat, categories: seq<nat>, isPublished: bool)

  /** `recipe.nutrition?.k`: absent when there is no nested nutrition object. */
  function NestedAmount(recipe: RawRecipe, k: Nutrient): Option<int> {
    if recipe.nutrition.Some? then recipe.nutrition.value.Of(k) else None
  }

  /**
   * The posted nutrition of a recipe: per nutrient, the nested value, else the value
   * written on the recipe, else the nutrient's default; never the falsy 0.
   */
  function RecipeMacros(recipe: RawRecipe): (m: Macros)
    ensures forall k :: m.Of(k) == FirstGiven([NestedAmount(recipe, k), recipe.topLevel.Of(k)], NutrientDefault(k))
    ensures forall k :: m.Of(k) != 0
  {
    var m := Macros(
      NumberOr(NestedAmount(recipe, Calories), NumberOr(recipe.topLevel.calories, 150)),
      NumberOr(NestedAmount(recipe, Protein), NumberOr(recipe.topLevel.protein, 15)),
      NumberOr(NestedAmount(recipe, Carbs), NumberOr(recipe.topLevel.carbs, 10)),
      NumberOr(NestedAmount(recipe, Fat), NumberOr(recipe.topLevel.fat, 5)),
      NumberOr(NestedAmount(recipe, Fiber), NumberOr(recipe.topLevel.fiber, 2)),
      NumberOr(NestedAmount(recipe, Sugar), NumberOr(recipe.topLevel.sugar, 3)));
    assert forall k :: m.Of(k) == FirstGiven([NestedAmount(recipe, k), recipe.topLevel.Of(k)], NutrientDefault(k)) by {
      forall k ensures m.Of(k) == FirstGiven([NestedAmount(recipe, k), recipe.topLevel.Of(k)], NutrientDefault(k)) {
        FirstGivenPair(NestedAmount(recipe, k), recipe.topLevel.Of(k), NutrientDefault(k));
      }
    }
    m
  }

  /** The payload of one recipe, with its category slugs resolved through `categoryMap`;
      `BuildRecipeFields` states what each field holds. */
  function BuildRecipe(recipe: RawRecipe, siteId: nat, categoryMap: map<string, nat>): RecipePayload
  {
    var prep := NumberOr(recipe.prepTime, 10);
    var cook := NumberOr(recipe.cookTime, 15);
    RecipePayload(
      recipe.title, recipe.slug, recipe.description,
      prep, cook, NumberOr(recipe.totalTime, prep + cook),
      NumberOr(recipe.servings, NumberOr(recipe.recipeYield, 12)),
      TextOr(recipe.difficulty, "Easy"),
      RecipeMacros(recipe),
      FormatIngredients(OrEmpty(recipe.ingredients)),
      FormatInstructions(OrEmpty(recipe.instructions)),
      OrEmpty(recipe.tips), OrEmpty(recipe.tags), siteId,
      ResolveIds(OrEmpty(recipe.categories), categoryMap), true)
  }

  /** Each field of a recipe payload: the `||` default chains for the numbers and the
      difficulty, the formatted lists, the resolved categories, and the copied text. */
  lemma BuildRecipeFields(recipe: RawRecipe, siteId: nat, categoryMap: map<string, nat>)
    ensures var p := BuildRecipe(recipe, siteId, categoryMap);
      && p.prepTime == FirstGiven([recipe.prepTime], 10)
      && p.cookTime == FirstGiven([recipe.cookTime], 15)
      && (GivenNumber(recipe.totalTime) ==> p.totalTime == recipe.totalTime.value)
      && (!GivenNumber(recipe.totalTime) ==> p.totalTime == p.prepTime + p.cookTime)
      && p.servings == FirstGiven([recipe.servings, recipe.recipeYield], 12)
      && p.macros == RecipeMacros(recipe)
      && p.prepTime != 0 && p.cookTime != 0 && p.servings != 0
      && (GivenText(recipe.difficulty) ==> p.difficulty == recipe.difficulty.value)
      && (!GivenText(recipe.difficulty) ==> p.difficulty == "Easy")
      && p.categories == ResolveIds(OrEmpty(recipe.categories), categoryMap)
      && p.ingredients == FormatIngredients(OrEmpty(recipe.ingredients))
      && p.instructions == FormatInstructions(OrEmpty(recipe.instructions))
      && p.title == recipe.title && p.slug == recipe.slug && p.description == recipe.description
      && p.tips == OrEmpty(recipe.tips) && p.tags == OrEmpty(recipe.tags)
      && p.site == siteId && p.isPublished
  {
    FirstGivenPair(recipe.servings, recipe.recipeYield, 12);
    FirstGivenSingle(recipe.prepTime, 10);
    FirstGivenSingle(recipe.cookTime, 15);
  }

  /** `a || fallback` is the one-candidate chain. */
  lemma FirstGivenSingle(a: Option<int>, fallback: int)
    ensures FirstGiven([a], fallback) == NumberOr(a, fallback)
  {
    assert [a][1..] == [];
  }

  /** `a || b || fallback` is the two-candidate chain. */
  lemma FirstGivenPair(a: Option<int>, b: Option<int>, fallback: int)
    ensures FirstGiven([a, b], fallback) == NumberOr(a, NumberOr(b, fallback))
  {
    assert [a, b][1..] == [b];
    FirstGivenSingle(b, fallback);
  }

  /** A chain with a non-zero fallback never yields the falsy 0. */
  lemma {:induction false} FirstGivenNeverFalsy(candidates: seq<Option<int>>, fallback: int)
    requires fallback != 0
    ensures FirstGiven(candidates, fallback) != 0
    ensures FirstGiven(candidates, fallback) == fallback || exists i :: 0 <= i < |candidates| && GivenNumber(candidates[i]) && candidates[i].value == FirstGiven(candidates, fallback)
  {
    if candidates != [] && !GivenNumber(candidates[0]) {
      FirstGivenNeverFalsy(candidates[1..], fallback);
      if FirstGiven(candidates, fallback) != fallback {
        var i :| 0 <= i < |candidates[1..]| && GivenNumber(candidates[1..][i]) && candidates[1..][i].value == FirstGiven(candidates, fallback);
        assert candidates[i + 1] == candidates[1..][i];
      }
    }
  }

  // ---------------------------------------------------------------------------
  // Recipe packs
  // ---------------------------------------------------------------------------

  /** A JSON scalar, for fields the code compares with `!==`. */
  datatype Scalar = JBool(b: bool) | JNumber(n: int) | JString(s: string) | JNull

  /** `pack.isFree !== false`: only the boolean false makes a pack paid. */
  function IsFree(flag: Option<Scalar>): (free: bool)
    ensures flag.Some? && flag.value.JBool? ==> free == flag.value.b
    ensures flag.None? || !flag.value.JBool? ==> free
  {
    flag != Some(JBool(false))
  }

  datatype RawPack = RawPack(name: Option<string>, slug: string, description: Option<string>,
                             isFree: Option<Scalar>, recipes: Option<seq<string>>)

  /** The body of POST /recipe-packs. */
  datatype PackPayload = PackPayload(name: Option<string>, slug: string, description: Option<string>,
                                     isFree: bool, site: nat, recipes: seq<nat>)

  /** The payload of one pack, with its recipe slugs resolved through `recipeMap`. */
  function BuildPack(pack: RawPack, siteId: nat, recipeMap: map<string, nat>): (p: PackPayload)
    ensures p.recipes == ResolveIds(OrEmpty(pack.recipes), recipeMap)
    ensures |p.recipes| <= |OrEmpty(pack.recipes)|
    ensures !p.isFree <==> pack.isFree == Some(JBool(false))
    ensures p.name == pack.name && p.slug == pack.slug && p.description == pack.description
    ensures p.site == siteId
  {
    PackPayload(pack.name, pack.slug, pack.description, IsFree(pack.isFree), siteId,
                ResolveIds(OrEmpty(pack.recipes), recipeMap))
  }

  // ---------------------------------------------------------------------------
  // Sites and categories
  // ---------------------------------------------------------------------------

  datatype SiteConfig = SiteConfig(domain: string, name: string, foodType: string, brandColor: string)

  /** The body of POST /sites (tagline and meta description are left out). */
  datatype SitePayload = SitePayload(domain: string, name: string, foodType: string, brandColor: string, isActive: bool)

  /** The payload carries the whole configuration, and the site is created active. */
  function SitePayloadOf(cfg: SiteConfig): (p: SitePayload)
    ensures SiteConfig(p.domain, p.name, p.foodType, p.brandColor) == cfg
    ensures p.isActive
  {
    SitePayload(cfg.domain, cfg.name, cfg.foodType, cfg.brandColor, true)
  }

  datatype CategoryDef = CategoryDef(name: string, slug: string, description: string)

  /** The body of POST /categories. */
  datatype CategoryPayload = CategoryPayload(name: string, slug: string, description: string, site: nat)

  /** The payload carries the whole definition, attached to the site `siteId`. */
  function CategoryPayloadOf(category: CategoryDef, siteId: nat): (p: CategoryPayload)
    ensures CategoryDef(p.name, p.slug, p.description) == category
    ensures p.site == siteId
  {
    CategoryPayload(category.name, category.slug, category.description, siteId)
  }

  /** The directory name of a site's fixtures: the domain with every dot replaced by a dash. */
  function DomainKey(domain: string): (key: string)
    ensures |key| == |domain|
    ensures forall i :: 0 <= i < |domain| ==> key[i] == (if domain[i] == '.' then '-' else domain[i])
    ensures '.' !in key
  {
    if domain == [] then []
    else
      var rest := DomainKey(domain[1..]);
      assert forall i :: 1 <= i < |domain| ==> domain[i] == domain[1..][i - 1];
      [if domain[0] == '.' then '-' else domain[0]] + rest
  }
}
