/**
 * The recommendations screen of recommendations-display.tsx: its three
 * pieces of state and how a fetch and a profile change move them.
 */
module RecommendationsScreen {
  import opened Common
  import opened ProfileSchema
  import opened ProfileContext
  import opened DietChart
  import opened FoodRecommendation

  const IncompleteFetchMessage: string := "Please complete your profile first to get recommendations."
  const IncompleteProfileMessage: string := "Please complete your profile to see recommendations."
  const FetchFailedMessage: string := "Failed to fetch recommendations. Please try again later."

  /** `FoodRecommendationInput`: what is sent to the gateway. */
  datatype RecommendationRequest = RecommendationRequest(dietChart: string, fitnessGoals: string)

  /** The "No Recommendations Found" condition on a result. */
  predicate NoRecommendations(r: Recommendations) {
    |r.recommendedRecipes| == 0 && |r.recommendedRestaurants| == 0
  }

  /**
   * The notice shows for a flow result exactly when the model gave no entry
   * in either list, whether a list was missing or empty.
   */
  lemma NoticeIffModelGaveNothing(recipes: Option<seq<Recipe>>, restaurants: Option<seq<Restaurant>>)
    ensures NoRecommendations(Recommendations(Trimmed(recipes), Trimmed(restaurants))) <==>
      (recipes.None? || recipes.value == []) && (restaurants.None? || restaurants.value == [])
  {
    TrimmedIsBoundedPrefix(recipes);
    TrimmedIsBoundedPrefix(restaurants);
  }

  class RecommendationsDisplay {
    var recommendations: Option<Recommendations>
    var isLoading: bool
    var error: Option<string>

    constructor ()
      ensures recommendations == None && !isLoading && error == None
    {
      recommendations := None;
      isLoading := false;
      error := None;
    }

    /** Whether the "No Recommendations Found" notice is rendered. */
    predicate ShowsNoRecommendationsNotice()
      reads this
    {
      recommendations.Some? && !isLoading && NoRecommendations(recommendations.value)
    }

    /**
     * The part of `fetchRecommendations` before the gateway call: the guard,
     * then the loading state. The request is what the gateway is called with;
     * `None` means no call is made.
     */
    method StartFetch(profile: Option<Profile>) returns (request: Option<RecommendationRequest>)
      modifies this
      ensures !IsProfileComplete(profile) ==>
        && request == None
        && error == Some(IncompleteFetchMessage) && recommendations == None
        && isLoading == old(isLoading)
      ensures IsProfileComplete(profile) ==>
        && isLoading && error == None && recommendations == None
        && request.Some?
        && request.value.dietChart == DietChartString(profile.value)
        && request.value.fitnessGoals == profile.value.fitnessGoal.value
    {
      if !IsProfileComplete(profile) {
        error := Some(IncompleteFetchMessage);
        recommendations := None;
        return None;
      }
      isLoading := true;
      error := None;
      recommendations := None;
      var p := profile.value;
      request := Some(RecommendationRequest(DietChartString(p), p.fitnessGoal.value));
    }

    /** The part after the call: the result or the fixed failure message, and loading ends. */
    method FinishFetch(outcome: Result<Recommendations, string>)
      modifies this
      ensures !isLoading
      ensures outcome.Ok? ==> recommendations == Some(outcome.value) && error == old(error)
      ensures outcome.Err? ==> error == Some(FetchFailedMessage) && recommendations == old(recommendations)
    {
      match outcome {
        case Ok(r) => recommendations := Some(r);
        case Err(_) => error := Some(FetchFailedMessage);
      }
      isLoading := false;
    }

    /** `fetchRecommendations`, with the gateway's answer as `outcome`. */
    method FetchRecommendations(profile: Option<Profile>, outcome: Result<Recommendations, string>)
      returns (request: Option<RecommendationRequest>)
      modifies this
      ensures !IsProfileComplete(profile) ==>
        && request == None
        && error == Some(IncompleteFetchMessage) && recommendations == None
        && isLoading == old(isLoading)
      ensures IsProfileComplete(profile) ==>
        && !isLoading
        && request.Some?
        && request.value.dietChart == DietChartString(profile.value)
        && request.value.fitnessGoals == profile.value.fitnessGoal.value
        && (outcome.Ok? ==> recommendations == Some(outcome.value) && error == None)
        && (outcome.Err? ==> recommendations == None && error == Some(FetchFailedMessage))
    {
      request := StartFetch(profile);
      if request.Some? {
        FinishFetch(outcome);
      }
    }

    /**
     * The effect on a profile change: a complete profile starts a fetch; an
     * incomplete one clears the results and sets the incomplete-profile message.
     */
    method ProfileChanged(profile: Option<Profile>, outcome: Result<Recommendations, string>)
      returns (request: Option<RecommendationRequest>)
      modifies this
      ensures !IsProfileComplete(profile) ==>
        && request == None
        && recommendations == None && error == Some(IncompleteProfileMessage)
        && isLoading == old(isLoading)
      ensures IsProfileComplete(profile) ==>
        && !isLoading
        && request.Some?
        && request.value.dietChart == DietChartString(profile.value)
        && request.value.fitnessGoals == profile.value.fitnessGoal.value
        && (outcome.Ok? ==> recommendations == Some(outcome.value) && error == None)
        && (outcome.Err? ==> recommendations == None && error == Some(FetchFailedMessage))
    {
      if IsProfileComplete(profile) {
        request := FetchRecommendations(profile, outcome);
      } else {
        recommendations := None;
        error := Some(IncompleteProfileMessage);
        request := None;
      }
    }
  }

  /**
   * A complete profile on a fresh screen whose model answers with seven
   * recipes and no restaurants list: the screen ends with the first five
   * recipes, no restaurants, no error and no loading indicator.
   */
  method SevenRecipesDisplayFive(profile: Profile, recipes: seq<Recipe>)
    returns (shown: Option<Recommendations>, loading: bool, message: Option<string>)
    requires IsProfileComplete(Some(profile)) && |recipes| == 7
    ensures shown == Some(Recommendations(recipes[..5], []))
    ensures !loading && message == None
  {
    var output := new ModelOutput(Some(recipes), None);
    var outcome := FoodRecommendationFlow(output);
    var screen := new RecommendationsDisplay();
    var request := screen.ProfileChanged(Some(profile), outcome);
    shown, loading, message := screen.recommendations, screen.isLoading, screen.error;
  }

  /**
   * After a fetch for a complete profile, the screen shows the "No
   * Recommendations Found" notice exactly when the model gave no recipes and
   * no restaurants (each list missing or empty).
   */
  method NoticeAfterFetch(profile: Profile, recipes: Option<seq<Recipe>>, restaurants: Option<seq<Restaurant>>)
    returns (shown: bool)
    requires IsProfileComplete(Some(profile))
    ensures shown <==> (recipes.None? || recipes.value == []) && (restaurants.None? || restaurants.value == [])
  {
    var output := new ModelOutput(recipes, restaurants);
    var outcome := FoodRecommendationFlow(output);
    var screen := new RecommendationsDisplay();
    var request := screen.FetchRecommendations(Some(profile), outcome);
    NoticeIffModelGaveNothing(recipes, restaurants);
    shown := screen.ShowsNoRecommendationsNotice();
  }
}
