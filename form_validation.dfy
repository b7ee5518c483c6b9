/** The recipe form state holder: the draft fields, the derived per-field
    error flags and overall validity, the ingredient quantity check and the
    reset. */
module FormValidation {
  import opened JsValues
  import opened RecipeDraft

  /** The `fieldErrors` computed value: true marks a field as invalid. */
  datatype FieldErrors = FieldErrors(title: bool, description: bool, cuisine: bool, goal: bool)

  /** Per-field errors: a field is in error exactly when its value is falsy. */
  function FieldErrorsOf(d: Draft): (e: FieldErrors)
    ensures e.title <==> d.title == ""
    ensures e.description <==> d.description == ""
    ensures e.cuisine <==> d.cuisineId == None || d.cuisineId == Some(0)
    ensures e.goal <==> d.goalId == None || d.goalId == Some(0)
  {
    FieldErrors(
      !TruthyString(d.title),
      !TruthyString(d.description),
      !TruthyNumber(d.cuisineId),
      !TruthyNumber(d.goalId))
  }

  /** The `isFormValid` computed value. */
  function IsFormValid(d: Draft): (v: bool)
    ensures v <==> d.title != "" && d.description != ""
                   && d.cuisineId.Some? && d.cuisineId.value != 0
                   && d.goalId.Some? && d.goalId.value != 0
  {
    var e := FieldErrorsOf(d);
    !e.title && !e.description && !e.cuisine && !e.goal
  }

  /** Validity is the conjunction of the four error flags being clear. */
  lemma ValidIffNoFieldError(d: Draft)
    ensures IsFormValid(d) <==> FieldErrorsOf(d) == FieldErrors(false, false, false, false)
  {
  }

  /** The image, diet, allergy and both child lists never affect validity. */
  lemma ValidityIgnoresOptionalFields(d: Draft, imageUrl: string, dietId: Option<int>, allergyId: Option<int>,
                                      ingredients: seq<Ingredient>, instructions: seq<Instruction>)
    ensures IsFormValid(d.(imageUrl := imageUrl, dietId := dietId, allergyId := allergyId,
                           ingredients := ingredients, instructions := instructions))
            == IsFormValid(d)
  {
  }

  /** An ingredient row that names an ingredient but has no quantity. */
  predicate MissingQuantity(g: Ingredient)
  {
    TruthyNumber(g.ingredientId) && !TruthyString(g.quantity)
  }

  /** The position of the first row with a missing quantity, if any. */
  function FirstMissingQuantity(ings: seq<Ingredient>): (r: Option<nat>)
    ensures r.None? <==> forall i :: 0 <= i < |ings| ==> !MissingQuantity(ings[i])
    ensures r.Some? ==> r.value < |ings| && MissingQuantity(ings[r.value])
                        && forall j :: 0 <= j < r.value ==> !MissingQuantity(ings[j])
  {
    if ings == [] then None
    else if MissingQuantity(ings[0]) then Some(0)
    else match FirstMissingQuantity(ings[1..])
      case None => None
      case Some(k) => Some(k + 1)
  }

  const QuantityMessagePrefix := "Veuillez remplir la quantité pour l'ingrédient \""

  /** The message that names an ingredient whose quantity is missing. */
  function QuantityMessage(name: string): (m: string)
    ensures |m| == |QuantityMessagePrefix| + |name| + 1
    ensures m[..|QuantityMessagePrefix|] == QuantityMessagePrefix && m[|m| - 1] == '"'
  {
    QuantityMessagePrefix + name + "\""
  }

  /** Reads the ingredient name back out of a quantity message. */
  function MessageName(m: string): string
    requires |QuantityMessagePrefix| < |m|
  {
    m[|QuantityMessagePrefix|..|m| - 1]
  }

  /** The message embeds the ingredient name verbatim, so it can be read back. */
  lemma MessageNameRoundTrip(name: string)
    ensures |QuantityMessagePrefix| < |QuantityMessage(name)|
    ensures MessageName(QuantityMessage(name)) == name
  {
    var m := QuantityMessage(name);
    assert m[|QuantityMessagePrefix|..|m| - 1] == name;
  }

  /** The result of `validateIngredients`: the message for the first row with
      an ingredient but no quantity, or nothing when every row is complete. */
  function IngredientsError(ings: seq<Ingredient>): (m: Option<string>)
    ensures m.None? <==> forall i :: 0 <= i < |ings| ==> !MissingQuantity(ings[i])
    ensures m.Some? ==> exists k :: 0 <= k < |ings| && MissingQuantity(ings[k])
                                    && (forall j :: 0 <= j < k ==> !MissingQuantity(ings[j]))
                                    && m.value == QuantityMessage(ings[k].ingredientName)
  {
    match FirstMissingQuantity(ings)
    case None => None
    case Some(k) => Some(QuantityMessage(ings[k].ingredientName))
  }

  /** The form's refs as mutable fields; the computed values are the
      functions above applied to `Snapshot()`. */
  class RecipeForm {
    var title: string
    var description: string
    var imageUrl: string
    var cuisineId: Option<int>
    var goalId: Option<int>
    var dietId: Option<int>
    var allergyId: Option<int>
    var recipeIngredients: seq<Ingredient>
    var recipeInstructions: seq<Instruction>

    /** The current field values as one draft value. */
    function Snapshot(): Draft
      reads this
    {
      Draft(title, description, imageUrl, cuisineId, goalId, dietId, allergyId,
            recipeIngredients, recipeInstructions)
    }

    /** A new form starts empty. */
    constructor ()
      ensures Snapshot() == EmptyDraft
    {
      title, description, imageUrl := "", "", "";
      cuisineId, goalId, dietId, allergyId := None, None, None, None;
      recipeIngredients, recipeInstructions := [], [];
    }

    /** `validateIngredients`: scans the rows in order and reports the first
        one that has an ingredient but no quantity. Changes nothing. */
    method ValidateIngredients() returns (message: Option<string>)
      ensures message == IngredientsError(recipeIngredients)
      ensures message.None? <==> forall i :: 0 <= i < |recipeIngredients| ==> !MissingQuantity(recipeIngredients[i])
    {
      var i := 0;
      while i < |recipeIngredients|
        invariant 0 <= i <= |recipeIngredients|
        invariant forall j :: 0 <= j < i ==> !MissingQuantity(recipeIngredients[j])
      {
        var ingredient := recipeIngredients[i];
        if TruthyNumber(ingredient.ingredientId) && !TruthyString(ingredient.quantity) {
          return Some(QuantityMessage(ingredient.ingredientName));
        }
        i := i + 1;
      }
      return None;
    }

    /** `resetForm`: every string empty, every reference null, both lists
        empty; the form is then invalid. */
    method ResetForm()
      modifies this
      ensures Snapshot() == EmptyDraft
      ensures !IsFormValid(Snapshot())
    {
      title := "";
      description := "";
      imageUrl := "";
      cuisineId := None;
      goalId := None;
      dietId := None;
      allergyId := None;
      recipeIngredients := [];
      recipeInstructions := [];
    }
  }

  /** A filled-in draft is valid, and clearing its title makes it invalid. */
  lemma PastaExample(d: Draft)
    requires d.title == "Pasta" && d.description == "Tasty"
    requires d.cuisineId == Some(1) && d.goalId == Some(2)
    ensures IsFormValid(d)
    ensures !IsFormValid(d.(title := ""))
  {
  }
}
