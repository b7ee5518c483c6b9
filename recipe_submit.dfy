/** The create orchestrator (`handleSubmit`): posts the recipe, then its
    ingredient rows, then its instruction rows, one call at a time, and
    settles the loading and message fields. */
module RecipeSubmit {
  import opened JsValues
  import opened RecipeDraft
  import opened RestCalls
  import opened ChildRows

  const CreatedText := "Recette créée avec succès !"
  const CreateFallback := "Erreur lors de la création"

  /** POST /recipes with the draft's base fields. */
  function CreateRecipeCall(d: Draft): Call
  {
    CreateRecipe(d.title, d.description, d.imageUrl, d.cuisineId, d.goalId, d.dietId, d.allergyId)
  }

  /** Every call of a creation whose recipe POST returned `recipeId`, in
      order, if none fails. */
  function SubmitPlan(d: Draft, recipeId: int): seq<Call>
  {
    [CreateRecipeCall(d)] + IngredientCreates(recipeId, d.ingredients) + InstructionCreates(recipeId, d.instructions)
  }

  /** What a creation issues against the server `api`: the recipe POST
      first; nothing more when it fails or its answer carries no truthy
      `recipe_id`; otherwise the child calls, stopping at the first failure. */
  function SubmitOutcome(d: Draft, api: Oracle): Outcome
  {
    match api(0)
    case Failed(m) => Outcome([CreateRecipeCall(d)], Some(ServerError(m)))
    case Ok(recipeId) =>
      if TruthyNumber(recipeId) then Execute(SubmitPlan(d, recipeId.value), api, 0)
      else Outcome([CreateRecipeCall(d)], Some(MissingRecipeId))
  }

  /** The recipe POST comes first, then the ingredient creations, then the
      instruction creations. */
  lemma SubmitPlanInOrder(d: Draft, recipeId: int)
    ensures var plan := SubmitPlan(d, recipeId);
            plan[0] == CreateRecipeCall(d) && PhasesInOrder(plan)
  {
    var ings := IngredientCreates(recipeId, d.ingredients);
    var instrs := InstructionCreates(recipeId, d.instructions);
    IngredientCreatesPhase(recipeId, d.ingredients);
    InstructionCreatesPhase(recipeId, d.instructions);
    assert AllInPhase(ings, 3) && AllInPhase(instrs, 5);
    AppendPhase([CreateRecipeCall(d)], ings, 3);
    AppendPhase([CreateRecipeCall(d)] + ings, instrs, 5);
  }

  /** After the recipe POST, every call is an ingredient or instruction
      creation for the id the POST returned. */
  lemma SubmitChildCallsUseRecipeId(d: Draft, recipeId: int)
    ensures var plan := SubmitPlan(d, recipeId);
            forall k :: 1 <= k < |plan| ==>
              || (plan[k].CreateIngredient? && plan[k].recipeId == recipeId)
              || (plan[k].CreateInstruction? && plan[k].recipeId == recipeId)
  {
    var ings := IngredientCreates(recipeId, d.ingredients);
    var instrs := InstructionCreates(recipeId, d.instructions);
    IngredientCreatesPhase(recipeId, d.ingredients);
    InstructionCreatesPhase(recipeId, d.instructions);
    var plan := SubmitPlan(d, recipeId);
    forall k | 1 <= k < |plan|
      ensures || (plan[k].CreateIngredient? && plan[k].recipeId == recipeId)
              || (plan[k].CreateInstruction? && plan[k].recipeId == recipeId)
    {
      if k < 1 + |ings| {
        assert plan[k] == ings[k - 1] && CallOf(ings[k - 1], 3, recipeId);
      } else {
        assert plan[k] == instrs[k - 1 - |ings|] && CallOf(instrs[k - 1 - |ings|], 5, recipeId);
      }
    }
  }

  /** What a creation issues: always the recipe POST first, and then a prefix
      of the plan for the returned id. Without a truthy id nothing else is
      issued; otherwise it is all of the plan when every call succeeded, or
      the calls up to and including the first failed one. */
  lemma SubmitOutcomeCharacterized(d: Draft, api: Oracle)
    ensures var o := SubmitOutcome(d, api);
            && o.issued != [] && o.issued[0] == CreateRecipeCall(d)
            && (o.failure == Some(MissingRecipeId) <==> api(0).Ok? && !TruthyNumber(api(0).recipeId))
            && (o.failure == Some(MissingRecipeId) ==> o.issued == [CreateRecipeCall(d)])
            && (api(0).Ok? && TruthyNumber(api(0).recipeId) ==> o.issued <= SubmitPlan(d, api(0).recipeId.value))
            && (o.failure.None? <==>
                  api(0).Ok? && TruthyNumber(api(0).recipeId)
                  && var plan := SubmitPlan(d, api(0).recipeId.value);
                     AllOk(api, 0, |plan|) && o.issued == plan)
            && (o.failure.Some? && o.failure.value.ServerError? ==>
                  && api(|o.issued| - 1).Failed?
                  && o.failure.value.data == api(|o.issued| - 1).data
                  && AllOk(api, 0, |o.issued| - 1))
  {
    var o := SubmitOutcome(d, api);
    if api(0).Ok? && TruthyNumber(api(0).recipeId) {
      var plan := SubmitPlan(d, api(0).recipeId.value);
      ExecuteCharacterized(plan, api, 0);
    }
  }

  /** A recipe POST whose answer has no truthy id issues no child call and
      reports the creation fallback message. */
  lemma NoChildCallsWithoutRecipeId(d: Draft, api: Oracle)
    requires api(0).Ok? && !TruthyNumber(api(0).recipeId)
    ensures SubmitOutcome(d, api).issued == [CreateRecipeCall(d)]
    ensures Settle(SubmitOutcome(d, api).failure, CreatedText, CreateFallback).errorMessage == CreateFallback
  {
  }

  /** The `useRecipeFormSubmit` composable's state. */
  class RecipeSubmitter {
    var loading: bool
    var successMessage: string
    var errorMessage: string

    function State(): Status
      reads this
    {
      Status(loading, successMessage, errorMessage)
    }

    constructor ()
      ensures State() == Status(false, "", "")
    {
      loading, successMessage, errorMessage := false, "", "";
    }

    /** `handleSubmit`: returns the calls issued and how many times the
        reset callback ran. The final state depends only on the outcome: not
        loading, the success text (and one reset) when every call succeeded,
        otherwise the error text. */
    method HandleSubmit(draft: Draft, api: Oracle) returns (issued: seq<Call>, resets: nat)
      modifies this
      ensures var o := SubmitOutcome(draft, api);
              && issued == o.issued
              && State() == Settle(o.failure, CreatedText, CreateFallback)
              && resets == (if o.failure.None? then 1 else 0)
    {
      loading := true;
      successMessage := "";
      errorMessage := "";

      var failure: Option<Failure>;
      var create := CreateRecipeCall(draft);
      issued := [create];
      var response := api(0);
      if response.Failed? {
        failure := Some(ServerError(response.data));
      } else if !TruthyNumber(response.recipeId) {
        failure := Some(MissingRecipeId);
      } else {
        var recipeId := response.recipeId.value;
        failure := None;
        ghost var plan := [create];
        assert Execute(plan, api, 0) == Outcome(issued, failure) by { assert plan[1..] == []; }

        var sent;
        var ingredientCalls := IngredientCreates(recipeId, draft.ingredients);
        ExecuteExtend(plan, ingredientCalls, api, issued, failure);
        sent, failure := IssueAll(draft.ingredients, CreateIngredientStep(recipeId), api, |issued|);
        issued := issued + sent;
        plan := plan + ingredientCalls;

        var instructionCalls := InstructionCreates(recipeId, draft.instructions);
        ExecuteExtend(plan, instructionCalls, api, issued, failure);
        if failure.None? {
          sent, failure := IssueAll(draft.instructions, CreateInstructionStep(recipeId), api, |issued|);
          issued := issued + sent;
        }
        plan := plan + instructionCalls;
        assert plan == SubmitPlan(draft, recipeId);
      }

      if failure.None? {
        successMessage := CreatedText;
        resets := 1;
      } else {
        errorMessage := ErrorText(failure.value, CreateFallback);
        resets := 0;
      }
      loading := false;
    }
  }

  /** A server that answers every call with the message "boom": only the
      recipe POST is issued, loading is cleared, the error shows "boom", no
      success text is set and the form is not reset. */
  method BoomExample(d: Draft) returns (issued: seq<Call>, state: Status, resets: nat)
    ensures issued == [CreateRecipeCall(d)]
    ensures state == Status(false, "", "boom") && resets == 0
  {
    var submitter := new RecipeSubmitter();
    var api: Oracle := (k: nat) => Failed(Some("boom"));
    issued, resets := submitter.HandleSubmit(d, api);
    state := submitter.State();
  }
}
