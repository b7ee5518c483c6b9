# Recipe form orchestration, modelled in Dafny

This project models the logic of a recipe-sharing Nuxt front end:

- the recipe form state holder (`useRecipeFormValidation`);
- the two orchestrators that turn a recipe draft into REST calls. The create
  orchestrator is `useRecipeFormSubmit.handleSubmit`. The edit orchestrator is
  `useRecipeFormEdit.handleEdit`;
- the guest-route middleware that redirects a visitor with a live session
  token to `/dashboard`.

The network is an oracle. `Oracle = nat -> Response` gives the server's answer
to the call at each position of the trace. An answer is either success, with
the `recipe_id` of the response body when present, or a thrown fetch error,
with `data.message` when present. An orchestrator returns the trace of calls
it issued. Its composable's `loading`, `successMessage` and `errorMessage`
refs are fields of a class, and the orchestrator method leaves them in the
state the `finally` block produces. Each method is proved against a
specification function:

- `SubmitOutcome` or `EditOutcome` says what is issued.
- `Settle` says what the fields become.

JavaScript semantics are written out in `JsValues`:

- A nullable number is falsy when null or `0`.
- A string is falsy only when empty, so the quantity `"0"` counts as present.
- `trim` removes the full ECMAScript white-space and line-terminator set.

Files:

- `js_values.dfy`: `Option`, truthiness and `Trim`.
- `recipe_draft.dfy`: the draft and its ingredient and instruction rows.
- `form_validation.dfy`: the form class, field errors, validity, the quantity
  check and the reset.
- `rest_calls.dfy`: the call records, the oracle, and `Execute`, which issues
  calls in order and stops at the first failure. It also holds `IssueAll`
  (the row loop) and `Settle`.
- `child_rows.dfy`: which rows become which calls.
- `recipe_submit.dfy`: the create orchestrator.
- `recipe_edit.dfy`: the edit orchestrator.
- `guest_middleware.dfy`: the redirect rule.

Three behaviours of the code the model keeps:

- A recipe POST whose answer lacks a truthy `recipe_id` throws a plain `Error`. Its text is never shown: the user sees the fallback `'Erreur lors de la création'` (`MissingRecipeId` in `ErrorText`).
- The server message is used only when it is non-empty (`data?.message || fallback`). An empty message also gives the fallback.
- `handleEdit` never checks its `recipeId` for truthiness. Its calls use the id as given.

## Model

| member | source | states |
|---|---|---|
| `FormValidation.FieldErrorsOf` | app/composables/useRecipeFormValidation.ts:15-20 | title/description flags are set iff the string is empty; cuisine/goal flags iff the id is null or 0 |
| `FormValidation.IsFormValid` | app/composables/useRecipeFormValidation.ts:22-29 | valid iff title and description are non-empty and cuisine and goal ids are present and non-zero |
| `FormValidation.ValidIffNoFieldError` | app/composables/useRecipeFormValidation.ts:22-29 | validity holds exactly when all four error flags are clear |
| `FormValidation.ValidityIgnoresOptionalFields` | app/composables/useRecipeFormValidation.ts:22-29 | image URL, diet, allergy and both child lists never change validity |
| `FormValidation.PastaExample` | app/composables/useRecipeFormValidation.ts:15-29 | a draft with title, description, cuisine 1 and goal 2 is valid; clearing its title makes it invalid |
| `JsValues.TruthyNumber` | app/composables/useRecipeFormValidation.ts:18-19 | a nullable id is truthy iff it is present and non-zero (JavaScript truthiness of `number \| null`) |
| `JsValues.TruthyString` | app/composables/useRecipeFormValidation.ts:16-17 | a string is truthy iff it is non-empty, so `"0"` is truthy |
| `JsValues.Trim` | app/composables/useRecipeFormSubmit.ts:71 | `String.prototype.trim`: drops leading and trailing ECMAScript white space and line terminators; characterised by `TrimIsInnerSlice` and `TrimEmptyIffBlank` |
| `FormValidation.QuantityMessage` | app/composables/useRecipeFormValidation.ts:34 | the message is the fixed French prefix, then the ingredient name, then a closing quote; `MessageNameRoundTrip` reads the name back |
| `FormValidation.MissingQuantity` | app/composables/useRecipeFormValidation.ts:33 | a row fails the quantity check iff its ingredient id is truthy and its quantity string is empty |
| `FormValidation.FirstMissingQuantity` | app/composables/useRecipeFormValidation.ts:31-38 | returns nothing iff every row with a truthy id has a truthy quantity; otherwise the first such row in list order |
| `FormValidation.IngredientsError` | app/composables/useRecipeFormValidation.ts:31-38 | null iff no row lacks its quantity; otherwise the message naming the first offending row's ingredient |
| `FormValidation.MessageNameRoundTrip` | app/composables/useRecipeFormValidation.ts:34 | the error message embeds the ingredient name verbatim: reading it back gives the name |
| `FormValidation.RecipeForm.ValidateIngredients` | app/composables/useRecipeFormValidation.ts:31-38 | the loop returns the first offending row's message, or null iff none; it changes no state |
| `FormValidation.RecipeForm.ResetForm` | app/composables/useRecipeFormValidation.ts:40-50 | all strings empty, all ids null, both lists empty; the form is then invalid |
| `FormValidation.RecipeForm.constructor` | app/composables/useRecipeFormValidation.ts:4-13 | a new form holds the empty draft |
| `JsValues.TrimStartDropsWhiteSpacePrefix` | app/composables/useRecipeFormSubmit.ts:71 | trimming the start removes exactly a white-space prefix; what is left does not start with white space |
| `JsValues.TrimEndDropsWhiteSpaceSuffix` | app/composables/useRecipeFormSubmit.ts:71 | trimming the end removes exactly a white-space suffix; what is left does not end with white space |
| `JsValues.TrimIsInnerSlice` | app/composables/useRecipeFormSubmit.ts:78 | the trimmed text is the slice of the description between a white-space prefix and a white-space suffix, with no white space at its ends |
| `JsValues.TrimEmptyIffBlank` | app/composables/useRecipeFormSubmit.ts:71 | an instruction is skipped (trims to empty) iff its description is all white space |
| `RestCalls.Execute` | app/composables/useRecipeFormEdit.ts:31-112 | the awaited calls inside `try`: issued one at a time in plan order, the first thrown fetch error aborts the rest and becomes the failure; characterised by `ExecuteCharacterized` |
| `RestCalls.ExecuteCharacterized` | app/composables/useRecipeFormSubmit.ts:29-89 | issued calls form a prefix of the plan; all of it with every answer Ok, or up to and including the first failed call, whose server data is the failure |
| `RestCalls.ExecuteStopsAtFirstFailure` | app/composables/useRecipeFormEdit.ts:31-112 | if call k fails and all before it succeed, exactly calls 0..k are issued; nothing after k, nothing undone |
| `RestCalls.ExecuteAppend` | app/composables/useRecipeFormEdit.ts:31-105 | running two blocks in sequence: the second runs, from the next position, only if the whole first succeeded |
| `RestCalls.ExecuteExtend` | app/composables/useRecipeFormEdit.ts:46-105 | a further phase is issued only when nothing has failed so far, starting at the next trace position |
| `RestCalls.Send` | app/composables/useRecipeFormEdit.ts:33-44 | one awaited call: it is issued, and fails iff the server answers with an error |
| `RestCalls.Picked` | app/composables/useRecipeFormSubmit.ts:53-54 | the kept rows, strictly increasing; a row is kept iff the row's filter accepts it |
| `RestCalls.Emitted` | app/composables/useRecipeFormSubmit.ts:53-82 | the calls a `for` loop over the rows issues when no call fails: one per row its `if` accepts, in row order; characterised by `EmittedFollowsPicked`, `EmittedSound`, `EmittedComplete` |
| `RestCalls.EmittedFollowsPicked` | app/composables/useRecipeFormSubmit.ts:53-67 | the loop's k-th call is the call of the k-th kept row: exactly the kept rows, in list order |
| `RestCalls.EmittedSound` | app/composables/useRecipeFormSubmit.ts:53-67 | every call the loop issues comes from a row its filter accepts |
| `RestCalls.EmittedComplete` | app/composables/useRecipeFormSubmit.ts:53-67 | every row the filter accepts gets its call |
| `RestCalls.EmittedAllSatisfy` | app/composables/useRecipeFormSubmit.ts:53-82 | whatever holds of every call a row's filter can produce holds of every call the loop issues |
| `RestCalls.IssueAll` | app/composables/useRecipeFormSubmit.ts:53-67 | the sequential `for` loop issues the same calls and stops with the same failure as running the loop's plan |
| `RestCalls.ErrorText` | app/composables/useRecipeFormSubmit.ts:87-89 | a non-empty server message is shown as is; no message, an empty one, or a missing recipe id gives the fallback; never empty |
| `RestCalls.Settle` | app/composables/useRecipeFormSubmit.ts:84-92 | afterwards loading is false and exactly one message is set: the success text iff nothing failed, else the error text |
| `ChildRows.Submittable` | app/composables/useRecipeFormSubmit.ts:54 | an ingredient row is posted iff its id is truthy and its quantity string is non-empty (the same test as app/composables/useRecipeFormEdit.ts:61) |
| `ChildRows.HasText` | app/composables/useRecipeFormSubmit.ts:71 | an instruction row is posted iff its trimmed description is non-empty (the same test as app/composables/useRecipeFormEdit.ts:94); `TrimEmptyIffBlank` shows this means "not all white space" |
| `ChildRows.CreateIngredientStep` | app/composables/useRecipeFormSubmit.ts:54-66 | an ingredient row yields `POST /recipes/{id}/ingredients` with its id and quantity iff it is `Submittable`, else nothing (the same `if` and request as app/composables/useRecipeFormEdit.ts:61-73) |
| `ChildRows.CreateInstructionStep` | app/composables/useRecipeFormSubmit.ts:71-80 | the row at position idx yields `POST /instructions` with the recipe id, `step_number` idx + 1 and the trimmed text iff `HasText`, else nothing (as app/composables/useRecipeFormEdit.ts:94-103) |
| `ChildRows.DeleteIngredientStep` | app/composables/useRecipeFormEdit.ts:48-56 | an original ingredient row yields a `DELETE` of its ingredient from the recipe iff its id is truthy |
| `ChildRows.DeleteInstructionStep` | app/composables/useRecipeFormEdit.ts:78-88 | an original instruction row yields `DELETE /instructions/{instruction_id}/recipe/{id}` iff its `instruction_id` is truthy |
| `ChildRows.IngredientCreates` | app/composables/useRecipeFormSubmit.ts:53-67 | the ingredient-create loop's calls when none fails (also app/composables/useRecipeFormEdit.ts:59-74); characterised by `IngredientCreatesExact` |
| `ChildRows.InstructionCreates` | app/composables/useRecipeFormSubmit.ts:69-82 | the instruction-create loop's calls when none fails (also app/composables/useRecipeFormEdit.ts:92-105); characterised by `InstructionCreatesExact` |
| `ChildRows.IngredientDeletes` | app/composables/useRecipeFormEdit.ts:47-57 | the loop deleting the original ingredient rows, when none fails; characterised by `IngredientDeletesExact` |
| `ChildRows.InstructionDeletes` | app/composables/useRecipeFormEdit.ts:77-89 | the loop deleting the original instruction rows, when none fails; characterised by `InstructionDeletesExact` |
| `ChildRows.IngredientCreatesExact` | app/composables/useRecipeFormSubmit.ts:53-67 | one create per row with truthy id and truthy quantity, none otherwise, in list order, carrying that id and the quantity string |
| `ChildRows.InstructionCreatesExact` | app/composables/useRecipeFormSubmit.ts:69-82 | one create per row with non-blank trimmed text, in list order; step number is the original index + 1; text sent trimmed |
| `ChildRows.IngredientDeletesExact` | app/composables/useRecipeFormEdit.ts:47-57 | one delete per original ingredient row with a truthy id, in order, for that id |
| `ChildRows.InstructionDeletesExact` | app/composables/useRecipeFormEdit.ts:77-89 | one delete per original instruction row with a truthy `instruction_id`, in order |
| `ChildRows.IngredientDeletesPhase` | app/composables/useRecipeFormEdit.ts:47-57 | every ingredient delete of an edit is a phase-2 call addressed to the edited recipe |
| `ChildRows.IngredientCreatesPhase` | app/composables/useRecipeFormEdit.ts:59-74 | every ingredient create is a phase-3 call addressed to the recipe |
| `ChildRows.InstructionDeletesPhase` | app/composables/useRecipeFormEdit.ts:77-89 | every instruction delete of an edit is a phase-4 call addressed to the edited recipe |
| `ChildRows.InstructionCreatesPhase` | app/composables/useRecipeFormSubmit.ts:69-82 | every instruction create is a phase-5 call addressed to the recipe |
| `ChildRows.AppendPhase` | app/composables/useRecipeFormEdit.ts:31-105 | appending a block of one later phase keeps the trace's phases in order |
| `ChildRows.StepNumbersKeepGaps` | app/composables/useRecipeFormSubmit.ts:69-82 | with a blank middle instruction the others become steps 1 and 3 |
| `ChildRows.OnlyCompleteRowsCreated` | app/composables/useRecipeFormSubmit.ts:53-54 | of a row with id and quantity and a row with an id but empty quantity, exactly one create is issued |
| `RecipeSubmit.CreateRecipeCall` | app/composables/useRecipeFormSubmit.ts:30-47 | the `POST /recipes` request, carrying the draft's title, description, image URL and the four nullable reference ids |
| `RecipeSubmit.SubmitPlan` | app/composables/useRecipeFormSubmit.ts:29-82 | the calls of a creation whose POST returned an id, if none fails: the recipe POST, the ingredient creates, the instruction creates; ordered by `SubmitPlanInOrder` |
| `RecipeSubmit.SubmitOutcome` | app/composables/useRecipeFormSubmit.ts:29-89 | the trace of a creation for any server: a failed POST or an answer without a truthy `recipe_id` stops after the POST, otherwise the plan runs until its first failure; characterised by `SubmitOutcomeCharacterized` |
| `RecipeSubmit.SubmitPlanInOrder` | app/composables/useRecipeFormSubmit.ts:29-82 | the recipe POST is first; every ingredient create comes before every instruction create |
| `RecipeSubmit.SubmitChildCallsUseRecipeId` | app/composables/useRecipeFormSubmit.ts:49-82 | every call after the recipe POST is an ingredient or instruction create addressed to the id the POST returned |
| `RecipeSubmit.SubmitOutcomeCharacterized` | app/composables/useRecipeFormSubmit.ts:29-89 | the recipe POST is always issued first; without a truthy id nothing else is issued; otherwise the plan up to the first failure, or all of it iff every call succeeds |
| `RecipeSubmit.NoChildCallsWithoutRecipeId` | app/composables/useRecipeFormSubmit.ts:49-51 | a response without a truthy `recipe_id` issues no child call and shows the creation fallback |
| `RecipeSubmit.RecipeSubmitter.HandleSubmit` | app/composables/useRecipeFormSubmit.ts:9-93 | issues exactly the specified trace; loading ends false; success text and one reset iff no failure, else the error text and no reset |
| `RecipeSubmit.BoomExample` | app/composables/useRecipeFormSubmit.ts:29-92 | a server answering every call with the message "boom": only the recipe POST is issued, loading ends false, the error shows "boom", no success text and no reset |
| `RecipeSubmit.RecipeSubmitter.constructor` | app/composables/useRecipeFormSubmit.ts:4-7 | not loading, both messages empty |
| `RecipeEdit.EditPlan` | app/composables/useRecipeFormEdit.ts:31-105 | the six phases of an edit if no call fails: title PUT, allergy PUT, ingredient deletes, ingredient creates, instruction deletes, instruction creates, with the recipe id as given; ordered by `EditPlanInOrder` |
| `RecipeEdit.EditOutcome` | app/composables/useRecipeFormEdit.ts:31-112 | the trace of an edit for any server: the plan, stopping at the first failed call; characterised by `EditOutcomeCharacterized` |
| `RecipeEdit.EditPlanInOrder` | app/composables/useRecipeFormEdit.ts:31-105 | title PUT, then allergy PUT, then ingredient deletes, ingredient creates, instruction deletes, instruction creates, never interleaved |
| `RecipeEdit.EditOutcomeCharacterized` | app/composables/useRecipeFormEdit.ts:31-112 | all of the plan iff every call succeeds; else up to and including the first failed call, whose server data is the failure |
| `RecipeEdit.RemovedIngredientIsOnlyDeleted` | app/composables/useRecipeFormEdit.ts:31-105 | editing a recipe whose only original ingredient is 5 into a draft with no rows plans exactly the title PUT, the allergy PUT and one delete (for 5) |
| `RecipeEdit.RecipeEditor.HandleEdit` | app/composables/useRecipeFormEdit.ts:9-116 | issues exactly the specified trace; loading ends false; success text iff no failure, else the error text |
| `RecipeEdit.RecipeEditor.constructor` | app/composables/useRecipeFormEdit.ts:4-7 | not loading, both messages empty |
| `GuestMiddleware.ExpiresAfter` | app/middleware/guest.ts:9 | the token is live iff `exp > now / 1000` with exact division; `ExpiresAfterInMillis` restates it over the integers |
| `GuestMiddleware.ExpiresAfterInMillis` | app/middleware/guest.ts:9 | `exp > now / 1000` in seconds is `exp * 1000 > now` in milliseconds |
| `GuestMiddleware.GuestGuard` | app/middleware/guest.ts:3-16 | redirects, and only to `/dashboard`, iff the cookie is non-empty, decodes, and has a truthy `exp` strictly after now |
| `GuestMiddleware.NoSessionNoRedirect` | app/middleware/guest.ts:4-14 | no cookie, an empty token, a decode failure or a falsy `exp` lets the visitor through |
| `GuestMiddleware.ExpiryIsStrict` | app/middleware/guest.ts:9 | at exactly the expiry second there is no redirect; one millisecond earlier there is |
| `GuestMiddleware.RedirectIsMonotoneInTime` | app/middleware/guest.ts:9-10 | a token that redirects now redirected at every earlier time; once it stops redirecting it never resumes |
| `GuestMiddleware.TenSecondsLeftRedirects` | app/middleware/guest.ts:9-10 | a token expiring ten seconds from now redirects to the dashboard |

## Left out

- Network I/O is not modelled: `$fetch`, the base URL from the runtime configuration, the headers and the bearer token. Calls are abstract records, and answers come from the oracle.
- `parseFloat(ingredient.quantity)` is floating point. The model keeps the quantity string that the filter tests.
- `setTimeout(() => location.reload(), 1500)` is a timed browser side effect and is not modelled.
- Vue `ref`/`computed` reactivity and `async`/`await` are not modelled. Refs are class fields, computed values are functions of the form's snapshot, and the orchestrators run sequentially.
- `RecipeSubmit.RecipeSubmitter.HandleSubmit`: its contract states only the final state, not the intermediate `loading = true` with cleared messages. In a sequential model nothing can observe that state; the contract shows the final state does not depend on the old messages.
- `RecipeSubmit.RecipeSubmitter.HandleSubmit`: the reset callback is assumed not to throw. The form's `resetForm` never throws.
- The decoder is a parameter, and a failed decode is modelled as `None`. The internals of `jwtDecode` are not modelled, and the token's signature is never checked.
- Values outside the model's types are not modelled: `NaN` ids, non-integer `exp` values, and cookie values that are not strings.
- The `exp` comparison uses exact division. For realistic clock values, IEEE rounding of `Date.now() / 1000` cannot cross an integer `exp`.
- `app/composables/useSanityCover.ts` is not part of this model. It wraps the Sanity image-URL builder, and its own logic is only a null guard.
- The Storybook stories and the `.d.ts` type declarations are not part of this model, because they have no behaviour.
