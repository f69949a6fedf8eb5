/** The home page: the list of the user's categories with their labels and
    links, its counter, and the prompt shown when there is none. */
module HomePage {
  import opened Wrappers
  import opened UserClient
  import opened Categories
  import opened Session

  /** The categories of the loaded user, when it has any. */
  function UserCategories(userData: Option<UserJson>): Option<seq<string>> {
    if userData.Some? then userData.value.categories else None
  }

  /** The header counter: the length of the user's categories, 0 when there are none. */
  function CategoryCount(userData: Option<UserJson>): (n: nat)
    ensures UserCategories(userData).Some? ==> n == |UserCategories(userData).value|
    ensures UserCategories(userData).None? ==> n == 0
  {
    var cats := UserCategories(userData);
    if cats.Some? then |cats.value| else 0
  }

  /** One row of the list: the label shown and where a click navigates. */
  datatype Entry = Entry(shown: string, target: Location)

  datatype CategoriesView = OnboardingPrompt | Entries(entries: seq<Entry>)

  /** `handleCategoryClick`: navigate to `/category/<category>`. That path
      matches `/category/:category` only when the category is one path
      segment; otherwise it falls to the catch-all. */
  function CategoryTarget(category: string): Location {
    if PathSegment(category) then CategoryPath(category) else Unmatched
  }

  function EntriesOf(cats: seq<string>): (es: seq<Entry>)
    ensures |es| == |cats|
    ensures forall k :: 0 <= k < |cats| ==>
              es[k] == Entry(CategoryLabel(cats[k]), CategoryTarget(cats[k]))
  {
    if cats == [] then []
    else [Entry(CategoryLabel(cats[0]), CategoryTarget(cats[0]))] + EntriesOf(cats[1..])
  }

  /** The section body: the onboarding prompt for absent or empty categories,
      otherwise one entry per category, in list order. */
  function CategoriesSection(userData: Option<UserJson>): (v: CategoriesView)
    ensures v.OnboardingPrompt? <==> CategoryCount(userData) == 0
    ensures v.Entries? ==> |v.entries| == CategoryCount(userData)
    ensures v.Entries? ==> forall k :: 0 <= k < |v.entries| ==>
              v.entries[k].shown == CategoryLabel(UserCategories(userData).value[k])
              && v.entries[k].target == CategoryTarget(UserCategories(userData).value[k])
  {
    var cats := UserCategories(userData);
    if cats.Some? && |cats.value| > 0 then Entries(EntriesOf(cats.value)) else OnboardingPrompt
  }

  /** Clicking the k-th entry opens the news page of the k-th category when
      that category is one path segment, as each of the four types is;
      any other value is sent by the catch-all back to `/`. */
  lemma ClickOpensCategory(userData: Option<UserJson>, userExists: bool, k: nat)
    requires CategoriesSection(userData).Entries?
    requires k < |CategoriesSection(userData).entries|
    ensures var c := UserCategories(userData).value[k];
            Route(false, userExists, CategoriesSection(userData).entries[k].target)
            == if PathSegment(c) then Render(CategoryNewsScreen(c)) else Redirect(Root)
    ensures UserCategories(userData).value[k] in CategoryTypes ==>
              Route(false, userExists, CategoriesSection(userData).entries[k].target)
              == Render(CategoryNewsScreen(UserCategories(userData).value[k]))
  {
    CategoryTypesAreTheFour();
  }

  /** Where the prompt's button leads as written: `/onboarding`. */
  const PromptTargetAsWritten: Location := OnboardingPath

  /** Where the prompt's button is meant to lead: the settings page, whose
      form toggles categories. */
  const PromptTarget: Location := SettingsPath

  /** As written, the prompt's button cannot leave the home page. The home
      page renders only for an existing user, the prompt shows for that user
      with no categories, and the `/onboarding` guard sends the user straight
      back to `/home`. */
  lemma PromptBouncesAsWritten(userData: Option<UserJson>, userExists: bool)
    requires Route(false, userExists, HomePath) == Render(HomeScreen)
    requires CategoriesSection(userData).OnboardingPrompt?
    ensures Route(false, userExists, PromptTargetAsWritten) == Redirect(HomePath)
    ensures Follow(false, userExists, PromptTargetAsWritten, 1) == Render(HomeScreen)
  {
  }

  /** The prompt is reachable: deselecting the only category in the settings
      form leaves an empty list, and an existing user saved with it sees the
      prompt on the home page. */
  lemma PromptReachable()
    ensures Toggle(["sport"], "sport") == []
    ensures Route(false, true, HomePath) == Render(HomeScreen)
    ensures CategoriesSection(Some(UserJson(42, Some([]), Some("Ann"), None))).OnboardingPrompt?
  {
  }

  /** With the intended target, the prompt's button opens the page where
      categories are chosen, for the same user who sees the prompt. */
  lemma PromptOpensSettings(userData: Option<UserJson>, userExists: bool)
    requires Route(false, userExists, HomePath) == Render(HomeScreen)
    requires CategoriesSection(userData).OnboardingPrompt?
    ensures Follow(false, userExists, PromptTarget, 1) == Render(SettingsScreen)
    ensures Follow(false, userExists, PromptTarget, 1) != Render(HomeScreen)
  {
  }
}
