/**
 * The expense routes of Backend/src/routes/expense.ts as operations on the
 * expense collection. Every route runs after the authentication middleware, so
 * each operation receives the caller's user id; every read and write is scoped
 * by it. Record ids are assigned by the store.
 */
module ExpenseStore {
  import opened JsonValue
  import opened Text
  import opened Validation
  import opened ExpenseSchema

  type UserId = nat
  type ExpenseId = nat

  /** An expense document, with the timestamps the store keeps (`timestamps: true`). */
  datatype Expense = Expense(
    amount: real,
    category: string,
    description: string,
    owner: UserId,
    createdAt: int,
    updatedAt: int)

  datatype Response =
    | Listed(expenses: map<ExpenseId, Expense>)   // 200 "expenses recorded"
    | Added                                       // 201 "expense added"
    | Changed(matchedCount: nat)                  // 203 "expense changed", with the update result
    | Deleted                                     // 200 "expense deleted"
    | BadRequest(message: string)                 // 400 with one message
    | BadRequestIssues(issues: seq<string>)       // 400 with every issue of the failed parse

  function Status(r: Response): nat
  {
    match r
    case Listed(_) => 200
    case Added => 201
    case Changed(_) => 203
    case Deleted => 200
    case BadRequest(_) => 400
    case BadRequestIssues(_) => 400
  }

  const RequiredMessage := "Amount, category, and description are required"

  /** The POST pre-check `!amount || !category || !description`. */
  predicate MissingField(b: ExpenseBody)
  {
    !Truthy(b.amount) || !Truthy(b.category) || !Truthy(b.description)
  }

  /**
   * The pre-check refuses only payloads the schema refuses too (a zero amount is
   * not positive, an empty string is too short, anything else falsy has the
   * wrong type): it changes the message, never the outcome.
   */
  lemma MissingFieldIsInvalid(b: ExpenseBody)
    requires MissingField(b)
    ensures !ValidExpense(b)
  {
  }

  /** The three fields of a payload the schema accepts, as typed values. */
  datatype Payload = Payload(amount: real, category: string, description: string)

  datatype Parsed = Accepted(payload: Payload) | Refused(issues: seq<string>)

  /**
   * The outcome of `expensePayloadSchema.safeParse(body)`: the typed fields when
   * the payload is valid, otherwise every issue in order. The description's
   * numeric rule is the corrected one (`ExpenseSchema.Issues`), not the one
   * Backend/src/routes/expense.ts:28-31 writes, which refuses every ordinary
   * word; `ExpenseSchema.IssuesAsWritten` models that rule.
   */
  function Parse(b: ExpenseBody): (r: Parsed)
    ensures r.Accepted? <==> ValidExpense(b)
    ensures r.Accepted? ==> r.payload == Payload(b.amount.n, b.category.s, b.description.s)
    ensures r.Refused? ==> r.issues == Issues(b) && r.issues != []
  {
    IssuesEmptyIffValid(b);
    if ValidExpense(b) then Accepted(Payload(b.amount.n, b.category.s, b.description.s))
    else Refused(Issues(b))
  }

  /** `ExpenseModel.find({ user })`: the caller's records. */
  function OwnedBy(t: map<ExpenseId, Expense>, caller: UserId): (r: map<ExpenseId, Expense>)
    ensures r.Keys <= t.Keys
    ensures forall id :: id in t ==> (id in r <==> t[id].owner == caller)
    ensures forall id :: id in r ==> r[id] == t[id]
  {
    map id | id in t && t[id].owner == caller :: t[id]
  }

  /** The record `updateOne({ _id: id, user: caller }, ..)` matches, if any. */
  predicate Matches(t: map<ExpenseId, Expense>, caller: UserId, id: ExpenseId)
  {
    id in t && t[id].owner == caller
  }

  /**
   * `updateOne({ _id: id, user: caller }, { amount, category, description })`:
   * only the matching record changes, and only its three fields and `updatedAt`.
   */
  function UpdatedIn(t: map<ExpenseId, Expense>, caller: UserId, id: ExpenseId,
                     amount: real, category: string, description: string, now: int)
    : (t': map<ExpenseId, Expense>)
    ensures t'.Keys == t.Keys
    ensures forall k :: k in t && !(k == id && Matches(t, caller, id)) ==> t'[k] == t[k]
    ensures forall k :: k in t ==> t'[k].owner == t[k].owner && t'[k].createdAt == t[k].createdAt
    ensures Matches(t, caller, id) ==>
      t'[id].amount == amount && t'[id].category == category
      && t'[id].description == description && t'[id].updatedAt == now
  {
    if Matches(t, caller, id) then
      t[id := t[id].(amount := amount, category := category, description := description, updatedAt := now)]
    else t
  }

  /** `deleteOne({ _id: id, user: caller })`: removes at most the matching record. */
  function DeletedFrom(t: map<ExpenseId, Expense>, caller: UserId, id: ExpenseId): (t': map<ExpenseId, Expense>)
    ensures t'.Keys == if Matches(t, caller, id) then t.Keys - {id} else t.Keys
    ensures forall k :: k in t' ==> t'[k] == t[k]
  {
    if Matches(t, caller, id) then t - {id} else t
  }

  /** Updating as one user leaves every other user's records as they were. */
  lemma UpdateIsolated(t: map<ExpenseId, Expense>, caller: UserId, other: UserId, id: ExpenseId,
                       amount: real, category: string, description: string, now: int)
    requires other != caller
    ensures OwnedBy(UpdatedIn(t, caller, id, amount, category, description, now), other) == OwnedBy(t, other)
  {
    var t' := UpdatedIn(t, caller, id, amount, category, description, now);
    assert OwnedBy(t', other).Keys == OwnedBy(t, other).Keys;
  }

  /** Deleting as one user leaves every other user's records as they were. */
  lemma DeleteIsolated(t: map<ExpenseId, Expense>, caller: UserId, other: UserId, id: ExpenseId)
    requires other != caller
    ensures OwnedBy(DeletedFrom(t, caller, id), other) == OwnedBy(t, other)
  {
    var t' := DeletedFrom(t, caller, id);
    assert OwnedBy(t', other).Keys == OwnedBy(t, other).Keys;
  }

  /** Adding a record owned by the caller leaves every other user's records as they were. */
  lemma CreateIsolated(t: map<ExpenseId, Expense>, id: ExpenseId, e: Expense, other: UserId)
    requires id !in t && e.owner != other
    ensures OwnedBy(t[id := e], other) == OwnedBy(t, other)
  {
    assert OwnedBy(t[id := e], other).Keys == OwnedBy(t, other).Keys;
  }

  class ExpenseCollection {
    var expenses: map<ExpenseId, Expense>
    var nextId: ExpenseId

    /** Ids are handed out in increasing order, so a new id is never in use. */
    ghost predicate Valid()
      reads this
    {
      forall id :: id in expenses ==> id < nextId
    }

    constructor ()
      ensures Valid() && expenses == map[]
    {
      expenses := map[];
      nextId := 0;
    }

    /** GET /: the caller's expenses. */
    method List(caller: UserId) returns (r: Response)
      ensures r.Listed? && Status(r) == 200
      ensures forall id :: id in r.expenses <==> id in expenses && expenses[id].owner == caller
      ensures forall id :: id in r.expenses ==> r.expenses[id] == expenses[id]
    {
      r := Listed(OwnedBy(expenses, caller));
    }

    /**
     * POST /: a missing field, then the first schema issue, is a 400; otherwise
     * one record is added with the category lowercased and the caller as owner.
     */
    method Post(caller: UserId, body: ExpenseBody, now: int) returns (r: Response)
      requires Valid()
      modifies this
      ensures Valid()
      ensures MissingField(body) ==> r == BadRequest(RequiredMessage) && expenses == old(expenses)
      ensures !MissingField(body) && Parse(body).Refused? ==>
        r == BadRequest(Reported(Parse(body).issues)) && expenses == old(expenses)
      ensures !MissingField(body) && Parse(body).Accepted? ==>
        && r == Added && Status(r) == 201
        && old(nextId) !in old(expenses)
        && var p := Parse(body).payload;
           expenses == old(expenses)[old(nextId) := Expense(p.amount, ToLower(p.category), p.description, caller, now, now)]
    {
      if MissingField(body) {
        return BadRequest(RequiredMessage);
      }
      var parsed := Parse(body);
      if parsed.Refused? {
        return BadRequest(Reported(parsed.issues));
      }
      var p := parsed.payload;
      var e := Expense(p.amount, ToLower(p.category), p.description, caller, now, now);
      expenses := expenses[nextId := e];
      nextId := nextId + 1;
      r := Added;
    }

    /**
     * PUT /:id: a failed parse is a 400 listing every issue; otherwise the record
     * matching both id and caller, if there is one, gets the three fields as
     * supplied (the category is not lowercased). The response is 203 either way.
     */
    method Put(caller: UserId, id: ExpenseId, body: ExpenseBody, now: int) returns (r: Response)
      requires Valid()
      modifies this
      ensures Valid() && nextId == old(nextId)
      ensures Parse(body).Refused? ==> r == BadRequestIssues(Parse(body).issues) && expenses == old(expenses)
      ensures Parse(body).Accepted? ==>
        && r == Changed(if Matches(old(expenses), caller, id) then 1 else 0) && Status(r) == 203
        && var p := Parse(body).payload;
           expenses == UpdatedIn(old(expenses), caller, id, p.amount, p.category, p.description, now)
    {
      var parsed := Parse(body);
      if parsed.Refused? {
        return BadRequestIssues(parsed.issues);
      }
      var p := parsed.payload;
      var matched := Matches(expenses, caller, id);
      expenses := UpdatedIn(expenses, caller, id, p.amount, p.category, p.description, now);
      r := Changed(if matched then 1 else 0);
    }

    /** DELETE /:id: removes the record matching both id and caller, if any; 200 either way. */
    method Delete(caller: UserId, id: ExpenseId) returns (r: Response)
      requires Valid()
      modifies this
      ensures Valid() && nextId == old(nextId)
      ensures r == Deleted && Status(r) == 200
      ensures expenses == DeletedFrom(old(expenses), caller, id)
    {
      expenses := DeletedFrom(expenses, caller, id);
      r := Deleted;
    }
  }

  /** A client run: a record added by one user cannot be changed or deleted by another. */
  method OtherUserCannotTouch(a: UserId, b: UserId, body: ExpenseBody, now: int)
    requires a != b && !MissingField(body) && Parse(body).Accepted?
  {
    var c := new ExpenseCollection();
    var id := c.nextId;
    var r := c.Post(a, body, now);
    assert r == Added && c.expenses.Keys == {id} && c.expenses[id].owner == a;
    var before := c.expenses;
    r := c.Put(b, id, body, now + 1);
    assert r == Changed(0) && c.expenses == before;
    r := c.Delete(b, id);
    assert c.expenses == before;
    r := c.Delete(a, id);
    assert c.expenses == map[];
  }
}
