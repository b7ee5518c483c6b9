/** The REST calls the recipe orchestrators issue, the server as an oracle,
    and what "issue the calls one at a time, stop at the first failure"
    yields. */
module RestCalls {
  import opened JsValues
  import opened RecipeDraft

  /** One request, with the parts of its URL and body the model keeps. */
  datatype Call =
    | CreateRecipe(title: string, description: string, imageUrl: string,
                   cuisineId: Option<int>, goalId: Option<int>,
                   dietId: Option<int>, allergyId: Option<int>)   // POST /recipes
    | PutTitle(recipeId: int, title: string)                       // PUT /recipes/{id}/title
    | PutAllergy(recipeId: int, allergyId: Option<int>)            // PUT /recipes/{id}/allergy
    | DeleteIngredient(recipeId: int, ingredientId: int)           // DELETE /recipes/{id}/ingredients/{ingredientId}
    | CreateIngredient(recipeId: int, ingredientId: int, quantity: string)  // POST /recipes/{id}/ingredients
    | DeleteInstruction(instructionId: int, recipeId: int)         // DELETE /instructions/{instructionId}/recipe/{id}
    | CreateInstruction(recipeId: int, stepNumber: int, description: string)  // POST /instructions

  /** The server's answer to one call: success (carrying `data.recipe_id`
      when the body has one) or a thrown fetch error (carrying
      `data.message` when the body has one). */
  datatype Response = Ok(recipeId: Option<int>) | Failed(data: Option<string>)

  /** The server: the answer to the call at each position of the trace. */
  type Oracle = nat -> Response

  /** Why an orchestration stopped. */
  datatype Failure = ServerError(data: Option<string>) | MissingRecipeId

  /** The calls actually issued, and the failure that stopped them, if any. */
  datatype Outcome = Outcome(issued: seq<Call>, failure: Option<Failure>)

  predicate AllOk(api: Oracle, lo: nat, hi: nat)
  {
    forall j :: lo <= j < hi ==> api(j).Ok?
  }

  /** Issues `plan` in order, the first call at trace position `from`,
      awaiting each answer before the next call, and stops after the first
      call that fails. */
  function Execute(plan: seq<Call>, api: Oracle, from: nat): (o: Outcome)
    decreases |plan|
  {
    if plan == [] then Outcome([], None)
    else match api(from)
      case Failed(m) => Outcome([plan[0]], Some(ServerError(m)))
      case Ok(_) =>
        var rest := Execute(plan[1..], api, from + 1);
        Outcome([plan[0]] + rest.issued, rest.failure)
  }

  /** What Execute issues: a prefix of the plan; all of it, every call
      answered Ok, when nothing failed; otherwise up to and including the
      first failed call, whose server data becomes the failure. */
  lemma {:induction false} ExecuteCharacterized(plan: seq<Call>, api: Oracle, from: nat)
    ensures var o := Execute(plan, api, from);
            && o.issued <= plan
            && (o.failure.None? ==> o.issued == plan && AllOk(api, from, from + |plan|))
            && (o.failure.Some? ==>
                  && o.issued != []
                  && api(from + |o.issued| - 1).Failed?
                  && o.failure == Some(ServerError(api(from + |o.issued| - 1).data))
                  && AllOk(api, from, from + |o.issued| - 1))
    decreases |plan|
  {
    if plan != [] && api(from).Ok? {
      ExecuteCharacterized(plan[1..], api, from + 1);
      var rest := Execute(plan[1..], api, from + 1);
      assert plan == [plan[0]] + plan[1..];
    }
  }

  /** A failure at position k of the plan issues exactly the calls up to and
      including k: nothing after k, and nothing before k is undone. */
  lemma ExecuteStopsAtFirstFailure(plan: seq<Call>, api: Oracle, from: nat, k: nat)
    requires k < |plan| && api(from + k).Failed? && AllOk(api, from, from + k)
    ensures Execute(plan, api, from) == Outcome(plan[..k + 1], Some(ServerError(api(from + k).data)))
  {
    ExecuteCharacterized(plan, api, from);
  }

  /** Issuing `a + b` is issuing `a`, then, only if all of `a` succeeded,
      issuing `b` from the next position. */
  lemma {:induction false} ExecuteAppend(a: seq<Call>, b: seq<Call>, api: Oracle, from: nat)
    ensures Execute(a + b, api, from) ==
              var oa := Execute(a, api, from);
              if oa.failure.Some? then oa
              else var ob := Execute(b, api, from + |a|); Outcome(a + ob.issued, ob.failure)
    decreases |a|
  {
    if a == [] {
      assert a + b == b;
    } else {
      var ab := a + b;
      assert ab[0] == a[0];
      assert ab[1..] == a[1..] + b;
      match api(from)
      case Failed(m) =>
      case Ok(_) =>
        ExecuteAppend(a[1..], b, api, from + 1);
        var rest := Execute(a[1..], api, from + 1);
        assert Execute(a, api, from) == Outcome([a[0]] + rest.issued, rest.failure);
        var restAB := Execute(a[1..] + b, api, from + 1);
        assert Execute(ab, api, from) == Outcome([a[0]] + restAB.issued, restAB.failure);
        if rest.failure.None? {
          var ob := Execute(b, api, from + |a|);
          assert restAB == Outcome(a[1..] + ob.issued, ob.failure);
          assert [a[0]] + (a[1..] + ob.issued) == a + ob.issued;
        }
    }
  }

  /** Running one more block of calls after a plan whose result is known:
      nothing more is issued after a failure, otherwise the block is issued
      from the next position. */
  lemma ExecuteExtend(plan: seq<Call>, more: seq<Call>, api: Oracle, issued: seq<Call>, failure: Option<Failure>)
    requires Execute(plan, api, 0) == Outcome(issued, failure)
    ensures failure.Some? ==> Execute(plan + more, api, 0) == Outcome(issued, failure)
    ensures failure.None? ==> issued == plan
    ensures failure.None? ==> var o := Execute(more, api, |issued|);
                              Execute(plan + more, api, 0) == Outcome(issued + o.issued, o.failure)
  {
    ExecuteCharacterized(plan, api, 0);
    ExecuteAppend(plan, more, api, 0);
  }

  /** Issues one call at trace position `at`. */
  method Send(c: Call, api: Oracle, at: nat) returns (failure: Option<Failure>)
    ensures Execute([c], api, at) == Outcome([c], failure)
    ensures failure.None? <==> api(at).Ok?
  {
    var response := api(at);
    if response.Failed? {
      failure := Some(ServerError(response.data));
    } else {
      failure := None;
      assert [c][1..] == [];
    }
  }

  /** The positions at or after `from` whose row the step turns into a call,
      in increasing order. */
  function Picked<T>(rows: seq<T>, from: nat, step: (nat, T) -> Option<Call>): (idx: seq<nat>)
    ensures forall k :: 0 <= k < |idx| ==> from <= idx[k] < |rows| && step(idx[k], rows[idx[k]]).Some?
    ensures forall k, l :: 0 <= k < l < |idx| ==> idx[k] < idx[l]
    ensures forall i :: from <= i < |rows| && step(i, rows[i]).Some? ==> i in idx
    decreases |rows| - from
  {
    if from >= |rows| then []
    else if step(from, rows[from]).Some? then [from] + Picked(rows, from + 1, step)
    else Picked(rows, from + 1, step)
  }

  /** The calls a `for` loop over `rows` (from position `from`) issues when
      each row passes through `step`: one call per picked row, in row order. */
  function Emitted<T>(rows: seq<T>, from: nat, step: (nat, T) -> Option<Call>): (cs: seq<Call>)
    decreases |rows| - from
  {
    if from >= |rows| then []
    else match step(from, rows[from])
      case Some(c) => [c] + Emitted(rows, from + 1, step)
      case None => Emitted(rows, from + 1, step)
  }

  /** The k-th emitted call is the call of the k-th picked row: the loop
      keeps exactly the rows the step accepts, in row order. */
  lemma {:induction false} EmittedFollowsPicked<T>(rows: seq<T>, from: nat, step: (nat, T) -> Option<Call>)
    ensures var cs, idx := Emitted(rows, from, step), Picked(rows, from, step);
            |cs| == |idx| && forall k :: 0 <= k < |cs| ==> step(idx[k], rows[idx[k]]) == Some(cs[k])
    decreases |rows| - from
  {
    if from < |rows| {
      EmittedFollowsPicked(rows, from + 1, step);
    }
  }

  /** Every emitted call comes from some row the step keeps. */
  lemma EmittedSound<T>(rows: seq<T>, step: (nat, T) -> Option<Call>, c: Call)
    requires c in Emitted(rows, 0, step)
    ensures exists i :: 0 <= i < |rows| && step(i, rows[i]) == Some(c)
  {
    var cs := Emitted(rows, 0, step);
    var idx := Picked(rows, 0, step);
    EmittedFollowsPicked(rows, 0, step);
    var k :| 0 <= k < |cs| && cs[k] == c;
    assert step(idx[k], rows[idx[k]]) == Some(c);
  }

  /** Every row the step keeps yields its call. */
  lemma EmittedComplete<T>(rows: seq<T>, step: (nat, T) -> Option<Call>, i: nat)
    requires i < |rows| && step(i, rows[i]).Some?
    ensures step(i, rows[i]).value in Emitted(rows, 0, step)
  {
    var cs := Emitted(rows, 0, step);
    var idx := Picked(rows, 0, step);
    EmittedFollowsPicked(rows, 0, step);
    var k :| 0 <= k < |idx| && idx[k] == i;
    assert cs[k] == step(i, rows[i]).value;
  }

  /** A property of every call the step can produce holds of every call the
      loop emits. */
  lemma {:induction false} EmittedAllSatisfy<T>(rows: seq<T>, from: nat, step: (nat, T) -> Option<Call>,
                                                good: Call -> bool)
    requires forall i: nat, x: T :: step(i, x).Some? ==> good(step(i, x).value)
    ensures forall k :: 0 <= k < |Emitted(rows, from, step)| ==> good(Emitted(rows, from, step)[k])
    decreases |rows| - from
  {
    if from < |rows| {
      EmittedAllSatisfy(rows, from + 1, step, good);
    }
  }

  /** The whole run, given the calls already sent and the run still to come. */
  function After(sent: seq<Call>, rest: Outcome): Outcome
  {
    Outcome(sent + rest.issued, rest.failure)
  }

  /** Proof helper for `IssueAll`, kept apart to keep the loop's proof
      small: before the first row nothing has been sent. */
  lemma IssueStart<T>(rows: seq<T>, step: (nat, T) -> Option<Call>, api: Oracle, from: nat)
    ensures After([], Execute(Emitted(rows, 0, step), api, from)) == Execute(Emitted(rows, 0, step), api, from)
  {
  }

  /** Proof helper for `IssueAll`: past the last row nothing more is issued. */
  lemma IssueDone<T>(rows: seq<T>, step: (nat, T) -> Option<Call>, api: Oracle, sent: seq<Call>, at: nat)
    ensures After(sent, Execute(Emitted(rows, |rows|, step), api, at)) == Outcome(sent, None)
  {
  }

  /** A row the step drops adds nothing to the run. */
  lemma IssueStepSkipped<T>(rows: seq<T>, step: (nat, T) -> Option<Call>, i: nat)
    requires i < |rows| && step(i, rows[i]).None?
    ensures Emitted(rows, i, step) == Emitted(rows, i + 1, step)
  {
  }

  /** A kept row whose call is answered successfully: the call joins what was
      sent and the run continues from the next row, one trace position later. */
  lemma IssueStepOk<T>(rows: seq<T>, step: (nat, T) -> Option<Call>, api: Oracle, sent: seq<Call>, at: nat, i: nat)
    requires i < |rows| && step(i, rows[i]).Some? && api(at).Ok?
    ensures After(sent, Execute(Emitted(rows, i, step), api, at))
            == After(sent + [step(i, rows[i]).value], Execute(Emitted(rows, i + 1, step), api, at + 1))
  {
  }

  /** A kept row whose call fails ends the run with that call. */
  lemma IssueStepFailed<T>(rows: seq<T>, step: (nat, T) -> Option<Call>, api: Oracle, sent: seq<Call>, at: nat, i: nat)
    requires i < |rows| && step(i, rows[i]).Some? && api(at).Failed?
    ensures After(sent, Execute(Emitted(rows, i, step), api, at))
            == Outcome(sent + [step(i, rows[i]).value], Some(ServerError(api(at).data)))
  {
  }

  /** A `for` loop over `rows` that issues, for each row the step keeps, its
      call, awaiting each answer, starting at trace position `from`; it
      stops at the first failed call. */
  method IssueAll<T>(rows: seq<T>, step: (nat, T) -> Option<Call>, api: Oracle, from: nat)
    returns (sent: seq<Call>, failure: Option<Failure>)
    ensures Outcome(sent, failure) == Execute(Emitted(rows, 0, step), api, from)
  {
    ghost var whole := Execute(Emitted(rows, 0, step), api, from);
    IssueStart(rows, step, api, from);
    sent, failure := [], None;
    var at := from;
    var i := 0;
    while i < |rows|
      invariant 0 <= i <= |rows|
      invariant whole == After(sent, Execute(Emitted(rows, i, step), api, at))
    {
      var call := step(i, rows[i]);
      if call.Some? {
        var response := api(at);
        if response.Failed? {
          IssueStepFailed(rows, step, api, sent, at, i);
          sent, failure := sent + [call.value], Some(ServerError(response.data));
          return;
        }
        IssueStepOk(rows, step, api, sent, at, i);
        sent, at := sent + [call.value], at + 1;
      } else {
        IssueStepSkipped(rows, step, i);
      }
      i := i + 1;
    }
    IssueDone(rows, step, api, sent, at);
  }

  /** The message fields the orchestrators expose. */
  datatype Status = Status(loading: bool, successMessage: string, errorMessage: string)

  /** The error text: the server's message when it sent a non-empty one,
      otherwise the fallback (a missing recipe id throws a plain Error, which
      carries no server data). */
  function ErrorText(f: Failure, fallback: string): (t: string)
    ensures fallback != "" ==> t != ""
    ensures f.ServerError? && f.data.Some? && f.data.value != "" ==> t == f.data.value
    ensures (f.MissingRecipeId? || f.data.None? || f.data == Some("")) ==> t == fallback
  {
    match f
    case ServerError(Some(m)) => if TruthyString(m) then m else fallback
    case _ => fallback
  }

  /** The state after the `finally` block: not loading, and exactly one of
      the two messages set. */
  function Settle(failure: Option<Failure>, successText: string, fallback: string): (s: Status)
    requires successText != "" && fallback != ""
    ensures !s.loading
    ensures s.successMessage != "" <==> failure.None?
    ensures s.errorMessage != "" <==> failure.Some?
    ensures failure.None? ==> s.successMessage == successText
    ensures failure.Some? ==> s.errorMessage == ErrorText(failure.value, fallback)
  {
    match failure
    case None => Status(false, successText, "")
    case Some(f) => Status(false, "", ErrorText(f, fallback))
  }
}
