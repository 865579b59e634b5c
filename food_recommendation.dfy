/**
 * The recommendation flow of food-recommendation.ts: the gateway's output
 * object is checked and its two lists are cut to their first five entries
 * in place before it is returned.
 */
module FoodRecommendation {
  import opened Common

  datatype Recipe = Recipe(
    recipeId: string,
    name: string,
    description: string,
    ingredients: seq<string>,
    steps: seq<string>,
    nutrition: string,
    reason: string)

  datatype FoodItem = FoodItem(
    foodItemId: string,
    name: string,
    description: string,
    nutrition: string,
    reason: string)

  datatype Restaurant = Restaurant(
    restaurantId: string,
    name: string,
    cuisine: string,
    foodItems: seq<FoodItem>,
    reason: string)

  /** `FoodRecommendationOutput` as the flow returns it: both lists present. */
  datatype Recommendations = Recommendations(
    recommendedRecipes: seq<Recipe>,
    recommendedRestaurants: seq<Restaurant>)

  /** The most entries of each list the flow passes on. */
  const MaxRecommendations: nat := 5

  const NoOutputMessage: string := "Failed to get recommendations from AI."

  /** The output object the model returned; either list may be missing. */
  class ModelOutput {
    var recommendedRecipes: Option<seq<Recipe>>
    var recommendedRestaurants: Option<seq<Restaurant>>

    constructor (recipes: Option<seq<Recipe>>, restaurants: Option<seq<Restaurant>>)
      ensures recommendedRecipes == recipes && recommendedRestaurants == restaurants
    {
      recommendedRecipes := recipes;
      recommendedRestaurants := restaurants;
    }
  }

  /** `list.slice(0, n)`: the first `n` entries, or all of them when there are fewer. */
  function TakeAtMost<T>(s: seq<T>, n: nat): (r: seq<T>)
    ensures |r| == if |s| <= n then |s| else n
    ensures r == s[..|r|]
  {
    if |s| <= n then s else s[..n]
  }

  /** Each list after the flow: a present list cut to five entries, a missing one empty. */
  function Trimmed<T>(list: Option<seq<T>>): seq<T> {
    match list
    case Some(s) => TakeAtMost(s, MaxRecommendations)
    case None => []
  }

  /** Cutting again changes nothing. */
  lemma TakeAtMostIdempotent<T>(s: seq<T>, n: nat)
    ensures TakeAtMost(TakeAtMost(s, n), n) == TakeAtMost(s, n)
  {
  }

  /**
   * A trimmed list has at most five entries, is the front of the model's list
   * in its order, equals the model's list when that had five or fewer, and is
   * empty when the model gave none.
   */
  lemma TrimmedIsBoundedPrefix<T>(list: Option<seq<T>>)
    ensures |Trimmed(list)| <= MaxRecommendations
    ensures list.None? ==> Trimmed(list) == []
    ensures list.Some? ==> Trimmed(list) == list.value[..|Trimmed(list)|]
    ensures list.Some? && |list.value| <= MaxRecommendations ==> Trimmed(list) == list.value
    ensures list.Some? && |list.value| >= MaxRecommendations ==> |Trimmed(list)| == MaxRecommendations
  {
  }

  /** Trimming a trimmed result again changes nothing. */
  lemma TrimmedIdempotent<T>(list: Option<seq<T>>)
    ensures Trimmed(Some(Trimmed(list))) == Trimmed(list)
  {
    if list.Some? {
      TakeAtMostIdempotent(list.value, MaxRecommendations);
    }
  }

  /**
   * The flow body after the prompt call. A null output is an error; otherwise
   * each list of the output object is replaced by its trimmed form and the
   * object's contents are returned.
   */
  method FoodRecommendationFlow(output: ModelOutput?) returns (result: Result<Recommendations, string>)
    modifies output
    ensures output == null ==> result == Err(NoOutputMessage)
    ensures output != null ==>
      && output.recommendedRecipes == Some(Trimmed(old(output.recommendedRecipes)))
      && output.recommendedRestaurants == Some(Trimmed(old(output.recommendedRestaurants)))
      && result == Ok(Recommendations(Trimmed(old(output.recommendedRecipes)),
                                      Trimmed(old(output.recommendedRestaurants))))
  {
    if output == null {
      return Err(NoOutputMessage);
    }
    if output.recommendedRecipes.Some? {
      output.recommendedRecipes := Some(TakeAtMost(output.recommendedRecipes.value, MaxRecommendations));
    } else {
      output.recommendedRecipes := Some([]);
    }
    if output.recommendedRestaurants.Some? {
      output.recommendedRestaurants := Some(TakeAtMost(output.recommendedRestaurants.value, MaxRecommendations));
    } else {
      output.recommendedRestaurants := Some([]);
    }
    result := Ok(Recommendations(output.recommendedRecipes.value, output.recommendedRestaurants.value));
  }

  /**
   * Seven recipes from the model come out as the first five, in order; the
   * restaurants, their food items and every field pass through untouched.
   */
  method SevenRecipesBecomeFive(recipes: seq<Recipe>, restaurants: seq<Restaurant>)
    returns (result: Result<Recommendations, string>)
    requires |recipes| == 7 && |restaurants| <= MaxRecommendations
    ensures result.Ok?
    ensures |result.value.recommendedRecipes| == 5
    ensures result.value.recommendedRecipes == recipes[..5]
    ensures result.value.recommendedRestaurants == restaurants
  {
    var output := new ModelOutput(Some(recipes), Some(restaurants));
    result := FoodRecommendationFlow(output);
  }
}
