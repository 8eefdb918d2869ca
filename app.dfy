/** The session container: which screen is shown, the analysis results, the
    dietary filter, the chosen recipe and the shopping list, with the
    transitions the screens trigger. */
module App {
  import opened Text
  import opened Seqs
  import opened Types
  import opened Cooking

  datatype View = UploadView | ResultsView | CookingView

  /** How `analyzeFridgeImage` settles: a result, or a thrown error. */
  datatype Outcome = Analyzed(result: AnalysisResult) | AnalysisFailed

  const FailureNotice := "Failed to analyze image. Please try again."

  /** Some tag of `r` equals the filter's label once both are lowercased. */
  predicate MatchesFilter(r: Recipe, f: DietaryFilter) {
    exists k :: 0 <= k < |r.tags| && Lower(r.tags[k]) == Lower(FilterLabel(f))
  }

  /** The `filteredRecipes` projection. */
  function FilteredRecipes(recipes: seq<Recipe>, f: DietaryFilter): (r: seq<Recipe>)
    ensures f == All ==> r == recipes
    ensures f != All ==> forall k :: 0 <= k < |r| ==> r[k] in recipes && MatchesFilter(r[k], f)
    ensures f != All ==> forall k :: 0 <= k < |recipes| && MatchesFilter(recipes[k], f) ==> recipes[k] in r
    ensures IsSubsequence(r, recipes) && |r| <= |recipes|
  {
    if f == All then
      SubsequenceReflexive(recipes);
      recipes
    else
      FilterIsSubsequence(recipes, x => MatchesFilter(x, f));
      Filter(recipes, x => MatchesFilter(x, f))
  }

  /** Filtering the concatenation of two lists filters each in place, so the
      projection keeps the order of `recipes`. */
  lemma FilteredRecipesAppend(a: seq<Recipe>, b: seq<Recipe>, f: DietaryFilter)
    ensures FilteredRecipes(a + b, f) == FilteredRecipes(a, f) + FilteredRecipes(b, f)
  {
    if f != All {
      FilterAppend(a, b, x => MatchesFilter(x, f));
    }
  }

  /** `addToShoppingList`: append only when absent. */
  function WithItem(list: seq<string>, x: string): (r: seq<string>)
    ensures x in r
    ensures x in list ==> r == list
    ensures |list| <= |r| <= |list| + 1 && r[..|list|] == list
    ensures NoDuplicates(list) ==> NoDuplicates(r)
  {
    if x in list then list else list + [x]
  }

  /** `removeFromShoppingList`: keep every other item, in order. */
  function WithoutItem(list: seq<string>, x: string): (r: seq<string>)
    ensures x !in r
    ensures forall k :: 0 <= k < |list| && list[k] != x ==> list[k] in r
    ensures forall k :: 0 <= k < |r| ==> r[k] in list
    ensures IsSubsequence(r, list)
    ensures NoDuplicates(list) ==> NoDuplicates(r)
  {
    FilterIsSubsequence(list, y => y != x);
    if NoDuplicates(list) then
      FilterKeepsNoDuplicates(list, y => y != x);
      Filter(list, y => y != x)
    else
      Filter(list, y => y != x)
  }

  lemma WithItemIdempotent(list: seq<string>, x: string)
    ensures WithItem(WithItem(list, x), x) == WithItem(list, x)
  {
  }

  /** Removing an item that is not there changes nothing. */
  lemma WithoutAbsentItem(list: seq<string>, x: string)
    requires x !in list
    ensures WithoutItem(list, x) == list
  {
    FilterKeepsAll(list, y => y != x);
  }

  /** Removal keeps the relative order of the other items. */
  lemma WithoutItemAppend(a: seq<string>, b: seq<string>, x: string)
    ensures WithoutItem(a + b, x) == WithoutItem(a, x) + WithoutItem(b, x)
  {
    FilterAppend(a, b, y => y != x);
  }

  /** Adding then removing an item restores a list that lacked it. */
  lemma WithoutUndoesWith(list: seq<string>, x: string)
    requires x !in list
    ensures WithoutItem(WithItem(list, x), x) == list
  {
    WithoutItemAppend(list, [x], x);
    WithoutAbsentItem(list, x);
    assert WithoutItem([x], x) == [];
  }

  /** Everything the session holds, as one value. */
  datatype SessionState = SessionState(
    view: View,
    isLoading: bool,
    recipes: seq<Recipe>,
    selectedRecipe: Option<Recipe>,
    detectedIngredients: seq<string>,
    dietaryFilter: DietaryFilter,
    shoppingList: seq<string>)

  class Session {
    var view: View
    var isLoading: bool
    var recipes: seq<Recipe>
    var selectedRecipe: Option<Recipe>
    var detectedIngredients: seq<string>
    var dietaryFilter: DietaryFilter
    var shoppingList: seq<string>

    function State(): (s: SessionState)
      reads this
    {
      SessionState(view, isLoading, recipes, selectedRecipe, detectedIngredients, dietaryFilter, shoppingList)
    }

    /** The shopping list never repeats an item. */
    ghost predicate Valid()
      reads this
    {
      NoDuplicates(shoppingList)
    }

    constructor ()
      ensures Valid()
      ensures State() == SessionState(UploadView, false, [], None, [], All, [])
    {
      view := UploadView;
      isLoading := false;
      recipes := [];
      selectedRecipe := None;
      detectedIngredients := [];
      dietaryFilter := All;
      shoppingList := [];
    }

    /** What the results screen lists. */
    function Filtered(): (r: seq<Recipe>)
      reads this
      ensures IsSubsequence(r, recipes)
      ensures dietaryFilter == All ==> r == recipes
      ensures forall k :: 0 <= k < |r| ==> r[k] in recipes
    {
      FilteredRecipes(recipes, dietaryFilter)
    }

    /** Whether the cooking overlay is mounted. */
    predicate ShowsCooking()
      reads this
    {
      view == CookingView && selectedRecipe.Some?
    }

    /** `handleImageSelected` up to the `await`. */
    method BeginAnalysis()
      requires Valid()
      modifies this
      ensures Valid()
      ensures State() == old(State()).(isLoading := true)
    {
      isLoading := true;
    }

    /** `handleImageSelected` after the `await`: a result replaces both
        lists together and shows the results; a failure only raises the
        notice. Either way loading ends. */
    method DeliverAnalysis(outcome: Outcome) returns (notice: Option<string>)
      requires Valid()
      modifies this
      ensures Valid()
      ensures outcome.Analyzed? ==> notice == None && State() == old(State()).(
        isLoading := false,
        recipes := outcome.result.recipes,
        detectedIngredients := outcome.result.detectedIngredients,
        view := ResultsView)
      ensures outcome.AnalysisFailed? ==> notice == Some(FailureNotice) && State() == old(State()).(isLoading := false)
    {
      notice := None;
      match outcome {
        case Analyzed(result) =>
          recipes := result.recipes;
          detectedIngredients := result.detectedIngredients;
          view := ResultsView;
        case AnalysisFailed =>
          notice := Some(FailureNotice);
      }
      isLoading := false;
    }

    /** The whole handler, with the gateway's answer as a parameter. */
    method HandleImageSelected(outcome: Outcome) returns (notice: Option<string>)
      requires Valid()
      modifies this
      ensures Valid()
      ensures outcome.Analyzed? ==> notice == None && State() == old(State()).(
        isLoading := false,
        recipes := outcome.result.recipes,
        detectedIngredients := outcome.result.detectedIngredients,
        view := ResultsView)
      ensures outcome.AnalysisFailed? ==> notice == Some(FailureNotice) && State() == old(State()).(isLoading := false)
    {
      BeginAnalysis();
      notice := DeliverAnalysis(outcome);
    }

    /** A filter button, or "Clear filters" with `All`. */
    method SetDietaryFilter(f: DietaryFilter)
      requires Valid()
      modifies this
      ensures Valid()
      ensures State() == old(State()).(dietaryFilter := f)
    {
      dietaryFilter := f;
    }

    /** Picking a card opens the overlay for exactly that recipe, which
        mounts on its overview. */
    method SelectRecipe(r: Recipe, synth: SpeechSynthesis) returns (cooking: CookingMode)
      requires Valid()
      modifies this, synth
      ensures Valid()
      ensures State() == old(State()).(selectedRecipe := Some(r), view := CookingView)
      ensures ShowsCooking()
      ensures fresh(cooking) && cooking.Valid()
      ensures cooking.recipe == r && cooking.synth == synth && cooking.currentStep == -1
      ensures synth.queue == if synth.available then [IntroText(r)] else old(synth.queue)
    {
      selectedRecipe := Some(r);
      view := CookingView;
      cooking := new CookingMode(r, synth);
    }

    /** Closing the overlay returns to the results, keeps the selection and
        silences the narrator as the overlay unmounts. */
    method CloseCooking(cooking: CookingMode)
      requires Valid()
      modifies this, cooking.synth
      ensures Valid()
      ensures State() == old(State()).(view := ResultsView)
      ensures cooking.synth.queue == []
    {
      view := ResultsView;
      cooking.Unmount();
    }

    /** The back arrow of the results screen. */
    method BackToUpload()
      requires Valid()
      modifies this
      ensures Valid()
      ensures State() == old(State()).(view := UploadView)
    {
      view := UploadView;
    }

    method AddToShoppingList(x: string)
      requires Valid()
      modifies this
      ensures Valid()
      ensures State() == old(State()).(shoppingList := WithItem(old(shoppingList), x))
    {
      if x !in shoppingList {
        shoppingList := shoppingList + [x];
      }
    }

    method RemoveFromShoppingList(x: string)
      requires Valid()
      modifies this
      ensures Valid()
      ensures State() == old(State()).(shoppingList := WithoutItem(old(shoppingList), x))
    {
      shoppingList := WithoutItem(shoppingList, x);
    }
  }

  /** A recipe that matches two different filters carries at least two tags,
      since one tag matches at most one filter. */
  lemma TwoFiltersNeedTwoTags(r: Recipe, f: DietaryFilter, g: DietaryFilter)
    requires f != g && MatchesFilter(r, f) && MatchesFilter(r, g)
    ensures |r.tags| >= 2
  {
    var i :| 0 <= i < |r.tags| && Lower(r.tags[i]) == Lower(FilterLabel(f));
    var j :| 0 <= j < |r.tags| && Lower(r.tags[j]) == Lower(FilterLabel(g));
    TagMatchesOneFilter(r.tags[i], f, g);
    assert i != j;
  }

  /** A missing ingredient's button turns into a disabled "Added" once the
      ingredient is on the list. */
  lemma AddedIngredientDisablesButton(ing: Ingredient, list: seq<string>)
    requires ing.isMissing
    ensures AddButtonFor(ing, WithItem(list, ing.name)) == Button("Added", true)
  {
  }

  /** One photo with one recipe, cooked through to the end. */
  method CookOmeletteScenario()
  {
    var s := new Session();
    var omelette := Recipe("1", "Omelette", "", Easy, "10 min", 300, [],
      [Ingredient("eggs", "2", false), Ingredient("salt", "1 pinch", true)],
      ["Crack eggs", "Cook"]);
    var notice := s.HandleImageSelected(Analyzed(AnalysisResult(["eggs", "cheese"], [omelette])));
    assert s.view == ResultsView && |s.recipes| == 1 && |s.Filtered()| == 1;
    var synth := new SpeechSynthesis(true);
    var cooking := s.SelectRecipe(omelette, synth);
    assert cooking.currentStep == -1;
    cooking.HandleNext();
    assert cooking.currentStep == 0;
    cooking.HandleNext();
    assert cooking.currentStep == 1;
    cooking.HandleNext();
    assert cooking.currentStep == 2 && synth.queue == [EnjoyText];
    s.CloseCooking(cooking);
    assert s.view == ResultsView && s.selectedRecipe == Some(omelette);
  }

  /** A failed analysis leaves the fresh session on the upload screen. */
  method FailedAnalysisScenario()
  {
    var s := new Session();
    var notice := s.HandleImageSelected(AnalysisFailed);
    assert !s.isLoading && s.view == UploadView && s.recipes == [] && notice.Some?;
  }

  /** Adding an item twice and removing it once empties the list. */
  method ShoppingListScenario()
  {
    var s := new Session();
    s.AddToShoppingList("salt");
    s.AddToShoppingList("salt");
    assert s.shoppingList == ["salt"];
    s.RemoveFromShoppingList("salt");
    assert s.shoppingList == [];
  }
}
