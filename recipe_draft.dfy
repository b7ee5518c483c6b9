/** The recipe draft the forms edit and the orchestrators submit. */
module RecipeDraft {
  import opened JsValues

  /** One ingredient row of the form. `quantity` is kept as the string the
      user typed; the orchestrators filter on its truthiness. */
  datatype Ingredient = Ingredient(ingredientId: Option<int>, ingredientName: string, quantity: string)

  /** One instruction row; `instructionId` is present on rows loaded from the
      server. */
  datatype Instruction = Instruction(description: string, instructionId: Option<int>)

  /** The `formData` object: base fields, nullable references and the two
      ordered child lists. */
  datatype Draft = Draft(
    title: string,
    description: string,
    imageUrl: string,
    cuisineId: Option<int>,
    goalId: Option<int>,
    dietId: Option<int>,
    allergyId: Option<int>,
    ingredients: seq<Ingredient>,
    instructions: seq<Instruction>)

  /** The draft a fresh or reset form holds. */
  const EmptyDraft := Draft("", "", "", None, None, None, None, [], [])
}
