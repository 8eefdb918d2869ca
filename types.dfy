/** The records exchanged between the inference gateway, the session and the
    views: ingredients, recipes, the three difficulties and the five dietary
    filters. */
module Types {
  import opened Text
  import opened Seqs

  /** A value or its absence (`T | null`). */
  datatype Option<T> = None | Some(value: T)

  datatype Ingredient = Ingredient(name: string, quantity: string, isMissing: bool)

  /** The union type `'Easy' | 'Medium' | 'Hard'`. */
  datatype Difficulty = Easy | Medium | Hard

  datatype Recipe = Recipe(
    id: string,
    name: string,
    description: string,
    difficulty: Difficulty,
    prepTime: string,
    calories: int,
    tags: seq<string>,
    ingredients: seq<Ingredient>,
    steps: seq<string>)

  /** What the gateway hands back on success: both lists travel as one value. */
  datatype AnalysisResult = AnalysisResult(detectedIngredients: seq<string>, recipes: seq<Recipe>)

  datatype DietaryFilter = All | Vegetarian | Vegan | Keto | GlutenFree

  /** The string a difficulty carries at run time. */
  function DifficultyName(d: Difficulty): (s: string)
    ensures s in ["Easy", "Medium", "Hard"]
  {
    match d
    case Easy => "Easy"
    case Medium => "Medium"
    case Hard => "Hard"
  }

  /** The string value of each enum member. */
  function FilterLabel(f: DietaryFilter): (s: string)
    ensures s in ["All", "Vegetarian", "Vegan", "Keto", "Gluten-Free"]
  {
    match f
    case All => "All"
    case Vegetarian => "Vegetarian"
    case Vegan => "Vegan"
    case Keto => "Keto"
    case GlutenFree => "Gluten-Free"
  }

  /** `Object.values(DietaryFilter)`: the members in declaration order. */
  const Filters: seq<DietaryFilter> := [All, Vegetarian, Vegan, Keto, GlutenFree]

  /** Every filter is listed exactly once, and All comes first. */
  lemma FiltersEnumerateAll(f: DietaryFilter)
    ensures |Filters| == 5 && Filters[0] == All
    ensures f in Filters
    ensures NoDuplicates(Filters)
  {
  }

  /** The five labels stay pairwise distinct after lowercasing. */
  lemma LowerLabelsDistinct(f: DietaryFilter, g: DietaryFilter)
    requires f != g
    ensures Lower(FilterLabel(f)) != Lower(FilterLabel(g))
  {
    // the five labels have five different lengths, and folding keeps lengths
    assert |Lower(FilterLabel(f))| == |FilterLabel(f)|;
    assert |Lower(FilterLabel(g))| == |FilterLabel(g)|;
  }

  /** A tag can match at most one filter. */
  lemma TagMatchesOneFilter(tag: string, f: DietaryFilter, g: DietaryFilter)
    requires f != g
    ensures !(Lower(tag) == Lower(FilterLabel(f)) && Lower(tag) == Lower(FilterLabel(g)))
  {
    LowerLabelsDistinct(f, g);
  }
}
