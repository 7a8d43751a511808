/** Recipe suggestions: a static recipe table filtered by the ingredient
    names the user selects. A recipe matches when one of the selected
    names occurs as a substring of its comma-joined ingredient string,
    so "계란" also matches inside a longer token. */
module Recipes {
  import opened Text
  import opened Tables

  /** A row of the recipe table: dish, comma-joined required ingredients,
      dish type and calories. */
  datatype Recipe = Recipe(name: string, required: string, kind: string, calories: int)

  /** `any(ing in required for ing in selected)`. */
  function MentionsAny(selected: seq<string>, required: string): (r: bool)
    ensures r <==> exists k :: 0 <= k < |selected| && Contains(required, selected[k])
  {
    if selected == [] then false
    else
      assert forall k :: 1 <= k < |selected| ==> selected[k] == selected[1..][k - 1];
      Contains(required, selected[0]) || MentionsAny(selected[1..], required)
  }

  /** The recipe table of the database variant: five dishes under
      distinct names, each needing some ingredient, with positive calories. */
  function DbRecipes(): (r: seq<Recipe>)
    ensures |r| == 5
    ensures forall i, j :: 0 <= i < j < |r| ==> r[i].name != r[j].name
    ensures forall k :: 0 <= k < |r| ==> r[k].required != [] && 0 < r[k].calories
  {
    [
      Recipe("계란후라이", "계란", "간단요리", 120),
      Recipe("치킨마요덮밥", "치킨,마요네즈", "배달음식재활용", 700),
      Recipe("상추샐러드", "상추,채소", "다이어트", 80),
      Recipe("두부김치", "두부,김치", "한식", 400),
      Recipe("제육볶음", "돼지고기,양파", "메인요리", 600)
    ]
  }

  /** The recipe table of the session variant: four dishes under distinct
      names with positive calories, none of whose types is the "all types"
      option of the type filter. */
  function SessionRecipes(): (r: seq<Recipe>)
    ensures |r| == 4
    ensures forall i, j :: 0 <= i < j < |r| ==> r[i].name != r[j].name
    ensures forall k :: 0 <= k < |r| ==> r[k].required != [] && 0 < r[k].calories && r[k].kind != AllKinds
  {
    [
      Recipe("계란후라이", "계란", "간단요리", 180),
      Recipe("치킨마요덮밥", "치킨,마요네즈", "배달음식재활용", 700),
      Recipe("상추샐러드", "상추,채소", "샐러드", 150),
      Recipe("우유푸딩", "우유,설탕", "디저트", 250)
    ]
  }

  /** The recipes that mention some selected name, in table order. */
  function MatchSelected(selected: seq<string>, recipes: seq<Recipe>): (r: seq<Recipe>)
    ensures forall k :: 0 <= k < |r| ==> r[k] in recipes && MentionsAny(selected, r[k].required)
    ensures forall k :: 0 <= k < |recipes| && MentionsAny(selected, recipes[k].required) ==> recipes[k] in r
    ensures IsSubsequence(r, recipes)
  {
    Filter(recipes, (x: Recipe) => MentionsAny(selected, x.required))
  }

  /** The type-filter option that turns the type filter off. */
  const AllKinds: string := "전체"

  /** A recipe survives the session variant's two filters: the ingredient
      filter (off when nothing is selected) and the type filter (off for "전체"). */
  predicate KeptBySession(selected: seq<string>, typeFilter: string, x: Recipe)
  {
    (selected == [] || MentionsAny(selected, x.required))
    && (typeFilter == AllKinds || x.kind == typeFilter)
  }

  /** The session variant's recipe list: the ingredient mask when some name
      is selected, then the type filter unless it is "전체". */
  function SessionFilter(selected: seq<string>, typeFilter: string, recipes: seq<Recipe>): (r: seq<Recipe>)
    ensures forall k :: 0 <= k < |r| ==> r[k] in recipes && KeptBySession(selected, typeFilter, r[k])
    ensures forall k :: 0 <= k < |recipes| && KeptBySession(selected, typeFilter, recipes[k]) ==> recipes[k] in r
    ensures IsSubsequence(r, recipes)
    ensures selected == [] && typeFilter == AllKinds ==> r == recipes
  {
    var byIngredient := if selected != [] then MatchSelected(selected, recipes) else recipes;
    if typeFilter != AllKinds then
      var byType := Filter(byIngredient, (x: Recipe) => x.kind == typeFilter);
      if selected != [] then
        FilterThen(recipes, (x: Recipe) => MentionsAny(selected, x.required), (x: Recipe) => x.kind == typeFilter);
        byType
      else
        byType
    else
      SubsequenceReflexive(recipes);
      byIngredient
  }

  /** Selecting "계란" in the database variant suggests only the fried egg. */
  lemma DbEggExample()
    ensures MatchSelected(["계란"], DbRecipes()) == [DbRecipes()[0]]
  {
    var egg := ["계란"];
    var p := (x: Recipe) => MentionsAny(egg, x.required);
    assert p(DbRecipes()[0]) by {
      assert IsPrefix("계란", DbRecipes()[0].required);
    }
    forall k | 1 <= k < |DbRecipes()|
      ensures !p(DbRecipes()[k])
    {
      FirstCharMissing("계란", DbRecipes()[k].required);
    }
    FilterKeepsNone(DbRecipes()[1..], p);
  }

  /** With "계란" selected and the type filter off, the session variant
      suggests only the fried egg. */
  lemma SessionEggExample()
    ensures SessionFilter(["계란"], AllKinds, SessionRecipes()) == [SessionRecipes()[0]]
  {
    var egg := ["계란"];
    var p := (x: Recipe) => MentionsAny(egg, x.required);
    assert p(SessionRecipes()[0]) by {
      assert IsPrefix("계란", SessionRecipes()[0].required);
    }
    forall k | 1 <= k < |SessionRecipes()|
      ensures !p(SessionRecipes()[k])
    {
      FirstCharMissing("계란", SessionRecipes()[k].required);
    }
    FilterKeepsNone(SessionRecipes()[1..], p);
  }
}
