/** Which child rows become REST calls, shared by the create and the edit
    orchestrators: ingredient and instruction creations, and the deletions
    of the rows a recipe had before an edit. */
module ChildRows {
  import opened JsValues
  import opened RecipeDraft
  import opened RestCalls

  /** An ingredient row is submitted when both its id and its quantity are
      truthy; the quantity `"0"` is a non-empty string and so counts. */
  predicate Submittable(g: Ingredient)
  {
    TruthyNumber(g.ingredientId) && TruthyString(g.quantity)
  }

  /** An instruction row is submitted when its trimmed text is non-empty. */
  predicate HasText(s: Instruction)
  {
    TruthyString(Trim(s.description))
  }

  function CreateIngredientStep(recipeId: int): (nat, Ingredient) -> Option<Call>
  {
    (i: nat, g: Ingredient) =>
      if Submittable(g) then Some(CreateIngredient(recipeId, g.ingredientId.value, g.quantity)) else None
  }

  /** The step number is the row's position in the list plus one, whatever
      rows before it were skipped; the text is sent trimmed. */
  function CreateInstructionStep(recipeId: int): (nat, Instruction) -> Option<Call>
  {
    (i: nat, s: Instruction) =>
      if HasText(s) then Some(CreateInstruction(recipeId, i + 1, Trim(s.description))) else None
  }

  function DeleteIngredientStep(recipeId: int): (nat, Ingredient) -> Option<Call>
  {
    (i: nat, g: Ingredient) =>
      if TruthyNumber(g.ingredientId) then Some(DeleteIngredient(recipeId, g.ingredientId.value)) else None
  }

  function DeleteInstructionStep(recipeId: int): (nat, Instruction) -> Option<Call>
  {
    (i: nat, s: Instruction) =>
      if TruthyNumber(s.instructionId) then Some(DeleteInstruction(s.instructionId.value, recipeId)) else None
  }

  function IngredientCreates(recipeId: int, ings: seq<Ingredient>): seq<Call>
  {
    Emitted(ings, 0, CreateIngredientStep(recipeId))
  }

  function InstructionCreates(recipeId: int, instrs: seq<Instruction>): seq<Call>
  {
    Emitted(instrs, 0, CreateInstructionStep(recipeId))
  }

  function IngredientDeletes(recipeId: int, ings: seq<Ingredient>): seq<Call>
  {
    Emitted(ings, 0, DeleteIngredientStep(recipeId))
  }

  function InstructionDeletes(recipeId: int, instrs: seq<Instruction>): seq<Call>
  {
    Emitted(instrs, 0, DeleteInstructionStep(recipeId))
  }

  /** One ingredient creation per submittable row and none for the others,
      in list order. */
  lemma IngredientCreatesExact(recipeId: int, ings: seq<Ingredient>)
    ensures var cs, idx := IngredientCreates(recipeId, ings), Picked(ings, 0, CreateIngredientStep(recipeId));
            && |cs| == |idx|
            && (forall k, l :: 0 <= k < l < |idx| ==> idx[k] < idx[l])
            && (forall i :: 0 <= i < |ings| ==> (Submittable(ings[i]) <==> i in idx))
            && (forall k :: 0 <= k < |cs| ==>
                  && Submittable(ings[idx[k]])
                  && cs[k] == CreateIngredient(recipeId, ings[idx[k]].ingredientId.value, ings[idx[k]].quantity))
  {
    EmittedFollowsPicked(ings, 0, CreateIngredientStep(recipeId));
  }

  /** One instruction creation per row with non-blank text, in list order;
      its step number is the row's original position plus one (so step
      numbers strictly increase and skip the blank rows) and its text is the
      trimmed description. */
  lemma InstructionCreatesExact(recipeId: int, instrs: seq<Instruction>)
    ensures var cs, idx := InstructionCreates(recipeId, instrs), Picked(instrs, 0, CreateInstructionStep(recipeId));
            && |cs| == |idx|
            && (forall k, l :: 0 <= k < l < |idx| ==> idx[k] < idx[l])
            && (forall i :: 0 <= i < |instrs| ==> (HasText(instrs[i]) <==> i in idx))
            && (forall k :: 0 <= k < |cs| ==>
                  && HasText(instrs[idx[k]])
                  && cs[k] == CreateInstruction(recipeId, idx[k] + 1, Trim(instrs[idx[k]].description)))
  {
    EmittedFollowsPicked(instrs, 0, CreateInstructionStep(recipeId));
  }

  /** One deletion per original ingredient row with a truthy id, in order. */
  lemma IngredientDeletesExact(recipeId: int, ings: seq<Ingredient>)
    ensures var cs, idx := IngredientDeletes(recipeId, ings), Picked(ings, 0, DeleteIngredientStep(recipeId));
            && |cs| == |idx|
            && (forall k, l :: 0 <= k < l < |idx| ==> idx[k] < idx[l])
            && (forall i :: 0 <= i < |ings| ==> (TruthyNumber(ings[i].ingredientId) <==> i in idx))
            && (forall k :: 0 <= k < |cs| ==>
                  && TruthyNumber(ings[idx[k]].ingredientId)
                  && cs[k] == DeleteIngredient(recipeId, ings[idx[k]].ingredientId.value))
  {
    EmittedFollowsPicked(ings, 0, DeleteIngredientStep(recipeId));
  }

  /** One deletion per original instruction row with a truthy id, in order. */
  lemma InstructionDeletesExact(recipeId: int, instrs: seq<Instruction>)
    ensures var cs, idx := InstructionDeletes(recipeId, instrs), Picked(instrs, 0, DeleteInstructionStep(recipeId));
            && |cs| == |idx|
            && (forall k, l :: 0 <= k < l < |idx| ==> idx[k] < idx[l])
            && (forall i :: 0 <= i < |instrs| ==> (TruthyNumber(instrs[i].instructionId) <==> i in idx))
            && (forall k :: 0 <= k < |cs| ==>
                  && TruthyNumber(instrs[idx[k]].instructionId)
                  && cs[k] == DeleteInstruction(instrs[idx[k]].instructionId.value, recipeId))
  {
    EmittedFollowsPicked(instrs, 0, DeleteInstructionStep(recipeId));
  }

  /** The order in which the orchestrators issue the kinds of call. */
  function Phase(c: Call): nat
  {
    match c
    case CreateRecipe(_, _, _, _, _, _, _) => 0
    case PutTitle(_, _) => 0
    case PutAllergy(_, _) => 1
    case DeleteIngredient(_, _) => 2
    case CreateIngredient(_, _, _) => 3
    case DeleteInstruction(_, _) => 4
    case CreateInstruction(_, _, _) => 5
  }

  predicate PhasesInOrder(s: seq<Call>)
  {
    forall j, k :: 0 <= j < k < |s| ==> Phase(s[j]) <= Phase(s[k])
  }

  predicate AllInPhase(s: seq<Call>, p: nat)
  {
    forall k :: 0 <= k < |s| ==> Phase(s[k]) == p
  }

  predicate PhasesAtMost(s: seq<Call>, p: nat)
  {
    forall k :: 0 <= k < |s| ==> Phase(s[k]) <= p
  }

  /** Appending a block of one later phase keeps the phases in order. */
  lemma AppendPhase(a: seq<Call>, b: seq<Call>, p: nat)
    requires PhasesInOrder(a) && PhasesAtMost(a, p) && AllInPhase(b, p)
    ensures PhasesInOrder(a + b) && PhasesAtMost(a + b, p)
  {
  }

  /** A call of the given phase addressed to the given recipe. */
  predicate CallOf(c: Call, phase: nat, recipeId: int)
  {
    Phase(c) == phase && !c.CreateRecipe? && c.recipeId == recipeId
  }

  predicate AllCallsOf(s: seq<Call>, phase: nat, recipeId: int)
  {
    forall k :: 0 <= k < |s| ==> CallOf(s[k], phase, recipeId)
  }

  /** Ingredient creations are all phase-3 calls for the recipe. */
  lemma IngredientCreatesPhase(recipeId: int, ings: seq<Ingredient>)
    ensures AllCallsOf(IngredientCreates(recipeId, ings), 3, recipeId)
  {
    EmittedAllSatisfy(ings, 0, CreateIngredientStep(recipeId), c => CallOf(c, 3, recipeId));
  }

  /** Instruction creations are all phase-5 calls for the recipe. */
  lemma InstructionCreatesPhase(recipeId: int, instrs: seq<Instruction>)
    ensures AllCallsOf(InstructionCreates(recipeId, instrs), 5, recipeId)
  {
    EmittedAllSatisfy(instrs, 0, CreateInstructionStep(recipeId), c => CallOf(c, 5, recipeId));
  }

  /** Ingredient deletions are all phase-2 calls for the recipe. */
  lemma IngredientDeletesPhase(recipeId: int, ings: seq<Ingredient>)
    ensures AllCallsOf(IngredientDeletes(recipeId, ings), 2, recipeId)
  {
    EmittedAllSatisfy(ings, 0, DeleteIngredientStep(recipeId), c => CallOf(c, 2, recipeId));
  }

  /** Instruction deletions are all phase-4 calls for the recipe. */
  lemma InstructionDeletesPhase(recipeId: int, instrs: seq<Instruction>)
    ensures AllCallsOf(InstructionDeletes(recipeId, instrs), 4, recipeId)
  {
    EmittedAllSatisfy(instrs, 0, DeleteInstructionStep(recipeId), c => CallOf(c, 4, recipeId));
  }

  /** Blank rows are skipped but leave gaps in the step numbers: with a
      blank middle row, the two other rows are created as steps 1 and 3. */
  lemma StepNumbersKeepGaps(recipeId: int, rows: seq<Instruction>)
    requires |rows| == 3 && HasText(rows[0]) && !HasText(rows[1]) && HasText(rows[2])
    ensures InstructionCreates(recipeId, rows)
            == [CreateInstruction(recipeId, 1, Trim(rows[0].description)),
                CreateInstruction(recipeId, 3, Trim(rows[2].description))]
  {
    var step := CreateInstructionStep(recipeId);
    assert Emitted(rows, 3, step) == [];
    assert Emitted(rows, 1, step) == Emitted(rows, 2, step);
  }

  /** Of a row with id and quantity and a row with an id but no quantity,
      only the first is created. */
  lemma OnlyCompleteRowsCreated()
    ensures IngredientCreates(4, [Ingredient(Some(1), "Farine", "200"), Ingredient(Some(2), "Sel", "")])
            == [CreateIngredient(4, 1, "200")]
  {
    var rows := [Ingredient(Some(1), "Farine", "200"), Ingredient(Some(2), "Sel", "")];
    assert Emitted(rows, 2, CreateIngredientStep(4)) == [];
  }
}
