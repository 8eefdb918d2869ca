# Smart Fridge Chef — session and cook-through model

Smart Fridge Chef is a browser app. A user photographs their fridge, a remote
vision model lists the ingredients it sees and proposes recipes, and the user
filters the recipes by diet, opens one in a full-screen cooking overlay that
reads each step aloud, and collects missing ingredients on a shopping list.

This Dafny project models the logic behind those screens:

- `types.dfy` (module `Types`): ingredients, recipes, the three difficulties,
  the five dietary filters and the gateway's result, as datatypes.
- `app.dfy` (module `App`): the session container as a class `Session`, whose
  methods are the app's handlers. It also holds the `filteredRecipes`
  projection and the shopping-list operations as functions, with their lemmas.
- `cooking.dfy` (module `Cooking`): the cooking overlay as a class
  `CookingMode` over a step counter that runs from -1 (ingredients overview)
  through `0..n-1` (the steps) to `n` (finished). The browser's speech queue
  is a class `SpeechSynthesis`. The module also has the pure step functions,
  the narration text, the button labels, and lemmas about runs of
  Next/Prev presses.
- `card.dfy` (module `Card`): what a recipe card derives from its recipe:
  the difficulty badge, the missing-ingredient count and notice, and the tag row.
- `seqs.dfy` (module `Seqs`) and `text.dfy` (module `Text`): helpers.
  `Seqs` holds the `filter` the app uses three times, subsequences and
  duplicate-free lists. `Text` holds an ASCII `toLowerCase`, and the decimal
  numerals printed in template literals and JSX text, with a proven parse-back.

The remote analysis is an input of `Session.HandleImageSelected`: either
`Analyzed(result)` or `AnalysisFailed`. The handler is split at its `await`:
`BeginAnalysis` runs first and `DeliverAnalysis` after it, so the model shows
the loading state in between. The narration effect runs after a handler only
when the handler changed `currentStep`, as a React effect keyed on
`currentStep` does. Entering the cooking overlay builds a fresh `CookingMode`
at step -1, as mounting the component does.

Points where the model follows what the code does rather than a tidier design:

- The session stores the selected `Recipe` itself, not an id.
- A new analysis does not clear the selection, so the selection need not be
  one of `recipes`.
- The step counter belongs to the overlay, not to the session. It is
  discarded when the overlay closes and starts again at -1 on the next
  selection.
- Going back from the results keeps `recipes` and the shopping list.

## Model

| member | source | states |
|---|---|---|
| Types.DifficultyName | types.ts:11 | a difficulty is exactly one of "Easy", "Medium", "Hard" |
| Types.FilterLabel | types.ts:19-25 | each filter's string value is one of the five labels |
| Types.FiltersEnumerateAll | types.ts:19-25 | the filter buttons list all five members once each, in declaration order, All first |
| Types.LowerLabelsDistinct | types.ts:20-24 | the five labels stay pairwise distinct after lowercasing |
| Types.TagMatchesOneFilter | types.ts:20-24 | a tag equals, case-insensitively, the label of at most one filter |
| Text.Lower | App.tsx:37 | lowercasing keeps the length and folds each character on its own; no upper-case letter remains |
| Text.Decimal | components/CookingMode.tsx:36 | a number prints as a non-empty string of digits with no leading zero (only 0 itself starts with "0") |
| Text.ParseDecimalOfDecimal | components/CookingMode.tsx:36 | the printed numeral reads back as the number it came from |
| Seqs.Filter | App.tsx:37 | `filter` keeps exactly the elements that pass and never lengthens the list |
| Seqs.FilterIsSubsequence | App.tsx:37 | `filter` keeps the original order: the result is a subsequence of the input |
| Seqs.FilterAppend | App.tsx:47 | filtering a concatenation is the concatenation of the filtered parts |
| App.FilteredRecipes | App.tsx:35-38 | with All the projection is `recipes` itself; otherwise it holds exactly the recipes with a tag equal, after lowercasing, to the filter's label; it is always an order-preserving subsequence no longer than `recipes` |
| App.MatchesFilter | App.tsx:37 | a recipe matches when some tag equals the filter's label after lowercasing both; `TwoFiltersNeedTwoTags` gives its consequence |
| App.TwoFiltersNeedTwoTags | App.tsx:37 | a recipe matching two different filters carries at least two tags, since one tag matches at most one filter |
| App.FilteredRecipesAppend | App.tsx:37 | the projection filters each part of `recipes` in place, so the original order is kept |
| App.WithItem | App.tsx:40-44 | adding leaves a list that already holds the item unchanged; otherwise it puts the item on the list, keeps the old list as a prefix, grows it by at most one, and keeps it free of duplicates |
| App.WithItemIdempotent | App.tsx:40-44 | adding the same item twice is adding it once |
| App.WithoutItem | App.tsx:46-48 | removing deletes every occurrence, keeps every other item, in order, and keeps the list free of duplicates |
| App.WithoutAbsentItem | App.tsx:46-48 | removing an item that is not on the list changes nothing |
| App.WithoutItemAppend | App.tsx:47 | removal keeps the relative order of the remaining items |
| App.WithoutUndoesWith | App.tsx:40-48 | adding then removing an item restores a list that lacked it |
| App.Session.constructor | App.tsx:10-17 | a new session is on the upload screen, not loading, with no recipes, no detected items, no selection, filter All and an empty shopping list |
| App.Session.Filtered | App.tsx:35-38 | what the results screen lists is an order-preserving subsequence of the session's `recipes`, and all of them under All |
| App.Session.ShowsCooking | App.tsx:236 | the overlay is mounted exactly on the cooking screen with a recipe selected; `SelectRecipe` ensures it holds |
| App.Session.BeginAnalysis | App.tsx:20-21 | submitting a photo sets the loading flag and changes nothing else |
| App.Session.DeliverAnalysis | App.tsx:22-32 | a result replaces `recipes` and `detectedIngredients` together and shows the results; a failure raises the notice and keeps them and the screen; both end loading and touch nothing else |
| App.Session.HandleImageSelected | App.tsx:20-33 | the whole handler: loading, then the result applied or the failure notice, then loading off |
| App.Session.SetDietaryFilter | App.tsx:125 | a filter button (or "Clear filters" with All) changes only the filter |
| App.Session.SelectRecipe | App.tsx:173-176 | picking a card selects exactly that recipe and opens the overlay on its ingredients overview, narrating the introduction; nothing else changes |
| App.Session.CloseCooking | App.tsx:239 | closing returns to the results, keeps the selection and empties the speech queue |
| App.Session.BackToUpload | App.tsx:58 | the back arrow changes only the screen, keeping recipes and the shopping list |
| App.Session.AddToShoppingList | App.tsx:40-44 | the list becomes `WithItem` of the old list and stays free of duplicates; nothing else changes |
| App.Session.RemoveFromShoppingList | App.tsx:46-48 | the list becomes `WithoutItem` of the old list; nothing else changes |
| App.AddedIngredientDisablesButton | components/CookingMode.tsx:98-110 | once a missing ingredient is added, its button reads "Added" and is disabled |
| Cooking.StepAfterNext | components/CookingMode.tsx:42-51 | Next keeps the counter in -1..n, lands on n exactly when leaving step n-1 or later, and Prev undoes it |
| Cooking.StepAfterPrev | components/CookingMode.tsx:53-57 | Prev never moves forward or below -1 from a valid step, and leaves the counter unchanged exactly on the overview |
| Cooking.NextUndoesPrev | components/CookingMode.tsx:42-57 | after any step past the overview, Prev then Next returns to it |
| Cooking.RunStaysInRange | components/CookingMode.tsx:42-57 | no sequence of Next/Prev presses leaves -1..n |
| Cooking.RunNexts | components/CookingMode.tsx:42-51 | k presses of Next advance k steps but never past the sentinel n |
| Cooking.NextsFromOverview | components/CookingMode.tsx:42-51 | from -1, n+1 presses reach exactly n, fewer stay below n, more stay on n |
| Cooking.IsFinished | components/CookingMode.tsx:59 | within -1..n, the finished screen is exactly the one index Next does not move |
| Cooking.NextLabel | components/CookingMode.tsx:181 | "Start Cooking" exactly on the overview; on a step, "Finish" exactly when Next will finish the recipe; otherwise "Next Step" |
| Cooking.Narration | components/CookingMode.tsx:34-40 | the effect speaks exactly on -1..n-1 and stays silent on the finished sentinel |
| Cooking.IntroText | components/CookingMode.tsx:38 | the overview's narration opens with "Let's cook " followed by the recipe's name |
| Cooking.StepText | components/CookingMode.tsx:36 | a step's narration opens with "Step " followed by a digit; `StepTextNumber` fixes the number |
| Cooking.StepTextNumber | components/CookingMode.tsx:36 | after "Step " comes a numeral that reads back as the 1-based step number `i + 1`, then ". " and the step's instruction |
| Cooking.NarrationIdentifiesStep | components/CookingMode.tsx:36-38 | different indices get different narrations: "Step k." names the step and differs from the introduction |
| Cooking.StepNarrationEndsWithStep | components/CookingMode.tsx:36 | a step's narration ends with that step's instruction |
| Cooking.AddButtonFor | components/CookingMode.tsx:98-111 | only missing ingredients get the button; it is disabled and reads "Added" exactly when the name is on the list |
| Cooking.SpeechSynthesis.Cancel | components/CookingMode.tsx:18 | cancelling empties the speech queue |
| Cooking.SpeechSynthesis.Enqueue | components/CookingMode.tsx:23 | speaking appends the utterance to the queue |
| Cooking.CookingMode.constructor | components/CookingMode.tsx:13 | the overlay mounts on the overview (-1) and narrates the introduction |
| Cooking.CookingMode.Speak | components/CookingMode.tsx:16-25 | speaking cancels first, so afterwards the new text is the only utterance; without speech support nothing changes |
| Cooking.CookingMode.Narrate | components/CookingMode.tsx:34-40 | the effect replaces the queue with the narration of the current index, if it has one |
| Cooking.CookingMode.HandleNext | components/CookingMode.tsx:42-51 | the counter becomes `StepAfterNext` of the old one; the only utterance is then the new step's text, or "Enjoy your meal!" on reaching n |
| Cooking.CookingMode.HandlePrev | components/CookingMode.tsx:53-57 | the counter becomes `StepAfterPrev` of the old one; a real move narrates the new index, a press on the overview says nothing |
| Cooking.CookingMode.RepeatStep | components/CookingMode.tsx:131 | the speaker button says the current step's instruction as the only utterance |
| Cooking.CookingMode.Unmount | components/CookingMode.tsx:27-32 | unmounting empties the speech queue |
| Cooking.CookingMode.Controls | components/CookingMode.tsx:159-183 | the controls are shown exactly while not finished; Back is enabled exactly off the overview; the forward label is `NextLabel` |
| Card.DifficultyColor | components/RecipeCard.tsx:11-18 | lowercased "easy", "medium", "hard" get green, yellow and red; anything else gets slate |
| Card.DifficultyColorIgnoresCase | components/RecipeCard.tsx:12 | the badge does not depend on the letter case of the difficulty |
| Card.DifficultyColorOfRecipe | components/RecipeCard.tsx:11-18 | a well-typed difficulty never reaches the slate fallback |
| Card.MissingCount | components/RecipeCard.tsx:20 | the number of ingredients flagged missing, never more than the ingredients; see MissingCountBounds and MissingCountAppend |
| Card.MissingCountBounds | components/RecipeCard.tsx:20 | the missing count is at most the number of ingredients; it is 0 exactly when none is missing and the full length exactly when all are |
| Card.MissingCountAppend | components/RecipeCard.tsx:20 | the missing count of two lists is the sum of their counts |
| Card.MissingNotice | components/RecipeCard.tsx:64-67 | the notice is shown exactly when the count is positive |
| Card.MissingNoticePlural | components/RecipeCard.tsx:67 | the word gets an "s" exactly when the count is not 1, and the number shown reads back as the count |
| Card.TagBadges | components/RecipeCard.tsx:33-42 | at most three badges: all tags when there are at most two, otherwise the first two plus one more |
| Card.TagBadgesCountAllTags | components/RecipeCard.tsx:38-41 | the "+k" badge's number is exactly the count of tags not shown |

## Left out

- The remote analysis (`services/geminiService.ts`) is not part of this model: its prompt, schema, JSON parsing and id generation. Its answer is the `Outcome` parameter.
- Two analyses in flight at once are not modelled; each answer is delivered whole, in order.
- The photo upload component (`components/ImageUploader.tsx`) is not part of this model: file reading and drag-and-drop.
- `console.error` and `alert` are left out. The failure alert is the notice that `DeliverAnalysis` returns.
- The speech engine's `onstart`/`onend` callbacks, the `isSpeaking` indicator and the speaking rate are left out. The engine is modelled only by its queue.
- Cooking.CookingMode.Unmount: cancels even when speech is unavailable. The source would throw there; the model treats `cancel` as total.
- React scheduling (`useMemo`, effect timing) is not modelled. Each handler runs its state update and then the effect, atomically.
- Text.Lower: folds ASCII letters only, not the full Unicode `toLowerCase`.
- Clicking a card passes the card's own recipe; this is the `r` parameter of `Session.SelectRecipe`, not a separate member.
- All markup, class names other than the difficulty badges, the features grid and the drawer's open/closed toggle are left out.
