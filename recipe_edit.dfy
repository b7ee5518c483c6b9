/** The edit orchestrator (`handleEdit`): updates the title and the allergy,
    deletes the recipe's original ingredient rows, creates the draft's,
    deletes the original instruction rows and creates the draft's, one call
    at a time, and settles the loading and message fields. */
module RecipeEdit {
  import opened JsValues
  import opened RecipeDraft
  import opened RestCalls
  import opened ChildRows

  const EditedText := "Recette modifiée avec succès !"
  const EditFallback := "Erreur lors de la modification"

  /** The six phases of an edit, in order, if no call fails. The recipe id is
      used as given: it is not checked for truthiness. */
  function EditPlan(recipeId: int, d: Draft, originalIngredients: seq<Ingredient>,
                    originalInstructions: seq<Instruction>): seq<Call>
  {
    [PutTitle(recipeId, d.title)]
    + [PutAllergy(recipeId, d.allergyId)]
    + IngredientDeletes(recipeId, originalIngredients)
    + IngredientCreates(recipeId, d.ingredients)
    + InstructionDeletes(recipeId, originalInstructions)
    + InstructionCreates(recipeId, d.instructions)
  }

  /** What an edit issues against the server `api`: the plan, stopping at
      the first failed call. */
  function EditOutcome(recipeId: int, d: Draft, originalIngredients: seq<Ingredient>,
                       originalInstructions: seq<Instruction>, api: Oracle): Outcome
  {
    Execute(EditPlan(recipeId, d, originalIngredients, originalInstructions), api, 0)
  }

  /** The title update, then the allergy update, then every ingredient
      deletion, every ingredient creation, every instruction deletion and
      every instruction creation: the phases never interleave. */
  lemma EditPlanInOrder(recipeId: int, d: Draft, originalIngredients: seq<Ingredient>,
                        originalInstructions: seq<Instruction>)
    ensures var plan := EditPlan(recipeId, d, originalIngredients, originalInstructions);
            && |plan| >= 2
            && plan[0] == PutTitle(recipeId, d.title)
            && plan[1] == PutAllergy(recipeId, d.allergyId)
            && PhasesInOrder(plan)
  {
    var p0 := [PutTitle(recipeId, d.title)];
    var p1 := [PutAllergy(recipeId, d.allergyId)];
    var p2 := IngredientDeletes(recipeId, originalIngredients);
    var p3 := IngredientCreates(recipeId, d.ingredients);
    var p4 := InstructionDeletes(recipeId, originalInstructions);
    var p5 := InstructionCreates(recipeId, d.instructions);
    IngredientDeletesPhase(recipeId, originalIngredients);
    IngredientCreatesPhase(recipeId, d.ingredients);
    InstructionDeletesPhase(recipeId, originalInstructions);
    InstructionCreatesPhase(recipeId, d.instructions);
    assert AllInPhase(p2, 2) && AllInPhase(p3, 3) && AllInPhase(p4, 4) && AllInPhase(p5, 5);
    AppendPhase(p0, p1, 1);
    AppendPhase(p0 + p1, p2, 2);
    AppendPhase(p0 + p1 + p2, p3, 3);
    AppendPhase(p0 + p1 + p2 + p3, p4, 4);
    AppendPhase(p0 + p1 + p2 + p3 + p4, p5, 5);
  }

  /** An edit issues all of its plan when every call succeeds, and otherwise
      stops right after the first failed call, undoing nothing. */
  lemma EditOutcomeCharacterized(recipeId: int, d: Draft, originalIngredients: seq<Ingredient>,
                                 originalInstructions: seq<Instruction>, api: Oracle)
    ensures var plan := EditPlan(recipeId, d, originalIngredients, originalInstructions);
            var o := EditOutcome(recipeId, d, originalIngredients, originalInstructions, api);
            && o.issued != [] && o.issued <= plan
            && (o.failure.None? <==> AllOk(api, 0, |plan|))
            && (o.failure.None? ==> o.issued == plan)
            && (o.failure.Some? ==>
                  && o.failure.value.ServerError?
                  && api(|o.issued| - 1).Failed?
                  && o.failure.value.data == api(|o.issued| - 1).data
                  && AllOk(api, 0, |o.issued| - 1))
  {
    var plan := EditPlan(recipeId, d, originalIngredients, originalInstructions);
    ExecuteCharacterized(plan, api, 0);
    EditPlanInOrder(recipeId, d, originalIngredients, originalInstructions);
  }

  /** Editing a recipe whose one original ingredient row is ingredient 5
      into a draft with no rows issues, when nothing fails, the two updates
      and exactly one deletion, for 5, and nothing else. */
  lemma RemovedIngredientIsOnlyDeleted(recipeId: int, d: Draft)
    requires d.ingredients == [] && d.instructions == []
    ensures EditPlan(recipeId, d, [Ingredient(Some(5), "", "")], [])
            == [PutTitle(recipeId, d.title), PutAllergy(recipeId, d.allergyId), DeleteIngredient(recipeId, 5)]
  {
    assert Emitted([Ingredient(Some(5), "", "")], 1, DeleteIngredientStep(recipeId)) == [];
  }

  /** The `useRecipeFormEdit` composable's state. */
  class RecipeEditor {
    var loading: bool
    var successMessage: string
    var errorMessage: string

    function State(): Status
      reads this
    {
      Status(loading, successMessage, errorMessage)
    }

    constructor ()
      ensures State() == Status(false, "", "")
    {
      loading, successMessage, errorMessage := false, "", "";
    }

    /** `handleEdit`: returns the calls issued. The final state depends only
        on the outcome: not loading, the success text when every call
        succeeded, otherwise the error text. */
    method HandleEdit(recipeId: int, draft: Draft, originalIngredients: seq<Ingredient>,
                      originalInstructions: seq<Instruction>, api: Oracle) returns (issued: seq<Call>)
      modifies this
      ensures var o := EditOutcome(recipeId, draft, originalIngredients, originalInstructions, api);
              && issued == o.issued
              && State() == Settle(o.failure, EditedText, EditFallback)
    {
      loading := true;
      successMessage := "";
      errorMessage := "";

      var failure: Option<Failure>;
      var sent: seq<Call>;

      // 1. title
      var title := PutTitle(recipeId, draft.title);
      failure := Send(title, api, 0);
      issued := [title];
      ghost var plan := [title];

      // 2. allergy
      var allergy := PutAllergy(recipeId, draft.allergyId);
      ExecuteExtend(plan, [allergy], api, issued, failure);
      if failure.None? {
        failure := Send(allergy, api, |issued|);
        issued := issued + [allergy];
      }
      plan := plan + [allergy];

      // 3. remove the original ingredients
      var ingredientDeletes := IngredientDeletes(recipeId, originalIngredients);
      ExecuteExtend(plan, ingredientDeletes, api, issued, failure);
      if failure.None? {
        sent, failure := IssueAll(originalIngredients, DeleteIngredientStep(recipeId), api, |issued|);
        issued := issued + sent;
      }
      plan := plan + ingredientDeletes;

      // 4. add the draft's ingredients
      var ingredientCreates := IngredientCreates(recipeId, draft.ingredients);
      ExecuteExtend(plan, ingredientCreates, api, issued, failure);
      if failure.None? {
        sent, failure := IssueAll(draft.ingredients, CreateIngredientStep(recipeId), api, |issued|);
        issued := issued + sent;
      }
      plan := plan + ingredientCreates;

      // 5. remove the original instructions
      var instructionDeletes := InstructionDeletes(recipeId, originalInstructions);
      ExecuteExtend(plan, instructionDeletes, api, issued, failure);
      if failure.None? {
        sent, failure := IssueAll(originalInstructions, DeleteInstructionStep(recipeId), api, |issued|);
        issued := issued + sent;
      }
      plan := plan + instructionDeletes;

      // 6. add the draft's instructions
      var instructionCreates := InstructionCreates(recipeId, draft.instructions);
      ExecuteExtend(plan, instructionCreates, api, issued, failure);
      if failure.None? {
        sent, failure := IssueAll(draft.instructions, CreateInstructionStep(recipeId), api, |issued|);
        issued := issued + sent;
      }
      plan := plan + instructionCreates;
      assert plan == EditPlan(recipeId, draft, originalIngredients, originalInstructions);

      if failure.None? {
        successMessage := EditedText;
      } else {
        errorMessage := ErrorText(failure.value, EditFallback);
      }
      loading := false;
    }
  }
}
