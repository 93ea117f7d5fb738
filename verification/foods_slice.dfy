/**
  The store slice: the items, loading flag and error message, the reducer over
  the lifecycle actions of the four async thunks, and how each thunk shapes the
  action it dispatches from the gateway's settled result.
 */
module FoodsSlice {
  import opened Js
  import opened Types

  datatype FoodsState = FoodsState(items: seq<FoodItem>, isLoading: bool, error: Option<string>)

  /** The slice's initial state: no items, not loading, no error. */
  const InitialState: FoodsState := FoodsState([], false, None)

  /** The three mutating thunks. */
  datatype Mutation = Create | Update | Remove

  /** The actions the thunks dispatch: `pending`, then `fulfilled` or `rejected`. */
  datatype Action =
    | FetchPending
    | FetchFulfilled(items: seq<FoodItem>)
    | FetchRejected(message: string)
    | MutationPending(op: Mutation)
    | CreateFulfilled(created: FoodItem)
    | UpdateFulfilled(updated: FoodItem)
    | DeleteFulfilled(id: string)
    | MutationRejected(op: Mutation, message: string)

  /** The slice reducer; actions without a case leave the state as it is. */
  function Reduce(s: FoodsState, a: Action): (t: FoodsState)
    ensures a.FetchPending? ==> t == s.(isLoading := true, error := None)
    ensures a.FetchFulfilled? ==> t == s.(isLoading := false, items := a.items)
    ensures a.FetchRejected? ==> t == s.(isLoading := false, error := Some(a.message))
    ensures a.MutationRejected? ==> t == s.(error := Some(a.message))
    ensures a.MutationPending? || a.CreateFulfilled? || a.UpdateFulfilled? || a.DeleteFulfilled? ==> t == s
  {
    match a
    case FetchPending => FoodsState(s.items, true, None)
    case FetchFulfilled(items) => FoodsState(items, false, s.error)
    case FetchRejected(message) => FoodsState(s.items, false, Some(message))
    case MutationRejected(_, message) => FoodsState(s.items, s.isLoading, Some(message))
    case _ => s
  }

  /** A rejected thunk's payload: the error's message, or a generic one. */
  function RejectionMessage(reason: Thrown): string {
    MessageOr(reason, "An unknown error occurred")
  }

  /** `fetchFoods`: the list is fulfilled reversed (oldest first); a failure rejects with its message. */
  function FetchFoodsSettled(result: Settled<seq<FoodItem>>): (a: Action)
    ensures a.FetchFulfilled? <==> result.Fulfilled?
    ensures result.Fulfilled? ==>
      && |a.items| == |result.value|
      && forall i :: 0 <= i < |result.value| ==> a.items[i] == result.value[|result.value| - 1 - i]
    ensures result.Rejected? ==> a == FetchRejected(RejectionMessage(result.reason))
  {
    match result
    case Fulfilled(data) => FetchFulfilled(Reverse(data))
    case Rejected(reason) => FetchRejected(RejectionMessage(reason))
  }

  /** `createFood`: fulfils with the created item. */
  function CreateFoodSettled(result: Settled<FoodItem>): (a: Action)
    ensures result.Fulfilled? ==> a == CreateFulfilled(result.value)
    ensures result.Rejected? ==> a == MutationRejected(Create, RejectionMessage(result.reason))
  {
    match result
    case Fulfilled(item) => CreateFulfilled(item)
    case Rejected(reason) => MutationRejected(Create, RejectionMessage(reason))
  }

  /** `updateFood`: fulfils with the updated item. */
  function UpdateFoodSettled(result: Settled<FoodItem>): (a: Action)
    ensures result.Fulfilled? ==> a == UpdateFulfilled(result.value)
    ensures result.Rejected? ==> a == MutationRejected(Update, RejectionMessage(result.reason))
  {
    match result
    case Fulfilled(item) => UpdateFulfilled(item)
    case Rejected(reason) => MutationRejected(Update, RejectionMessage(reason))
  }

  /** `deleteFood`: fulfils with exactly the id it was given. */
  function DeleteFoodSettled(id: string, result: Settled<()>): (a: Action)
    ensures result.Fulfilled? ==> a == DeleteFulfilled(id)
    ensures result.Rejected? ==> a == MutationRejected(Remove, RejectionMessage(result.reason))
  {
    match result
    case Fulfilled(_) => DeleteFulfilled(id)
    case Rejected(reason) => MutationRejected(Remove, RejectionMessage(reason))
  }

  /**
    A whole `fetchFoods` dispatch, `pending` then the settled action: loading
    ends false; success replaces the items with the reversed list and leaves no
    error; failure keeps the items and records the message.
   */
  lemma FetchLifecycle(s: FoodsState, result: Settled<seq<FoodItem>>)
    ensures var t := Reduce(Reduce(s, FetchPending), FetchFoodsSettled(result));
      && !t.isLoading
      && (result.Fulfilled? ==> t.items == Reverse(result.value) && t.error.None?)
      && (result.Rejected? ==> t.items == s.items && t.error == Some(RejectionMessage(result.reason)))
  {
  }

  /**
    The first load after start-up: the store shows the reversed list with no
    error when it succeeds, and no items with the message when it fails.
   */
  lemma FirstFetch(result: Settled<seq<FoodItem>>)
    ensures var t := Reduce(Reduce(InitialState, FetchPending), FetchFoodsSettled(result));
      && !t.isLoading
      && t == (if result.Fulfilled? then FoodsState(Reverse(result.value), false, None)
               else FoodsState([], false, Some(RejectionMessage(result.reason))))
  {
    FetchLifecycle(InitialState, result);
  }

  /**
    A whole mutation dispatch changes nothing but the error: success leaves the
    state as it was, failure sets the message; items and loading flag stay.
   */
  lemma MutationLifecycle(s: FoodsState, op: Mutation, settled: Action)
    requires settled.CreateFulfilled? || settled.UpdateFulfilled? || settled.DeleteFulfilled?
          || settled.MutationRejected?
    ensures var t := Reduce(Reduce(s, MutationPending(op)), settled);
      && t.items == s.items && t.isLoading == s.isLoading
      && (settled.MutationRejected? ==> t.error == Some(settled.message))
      && (!settled.MutationRejected? ==> t == s)
  {
  }

  /**
    A whole `createFood` dispatch from the gateway's result: the store's items
    and loading flag stay as they were (the created item is not added), and
    the error becomes the rejection's message or stays as it was.
   */
  lemma CreateLifecycle(s: FoodsState, result: Settled<FoodItem>)
    ensures var t := Reduce(Reduce(s, MutationPending(Create)), CreateFoodSettled(result));
      && t.items == s.items && t.isLoading == s.isLoading
      && t.error == (if result.Rejected? then Some(RejectionMessage(result.reason)) else s.error)
  {
    MutationLifecycle(s, Create, CreateFoodSettled(result));
  }

  /**
    A whole `updateFood` dispatch: the store's items keep the old version of
    the item, loading is untouched, and only a rejection changes the error.
   */
  lemma UpdateLifecycle(s: FoodsState, result: Settled<FoodItem>)
    ensures var t := Reduce(Reduce(s, MutationPending(Update)), UpdateFoodSettled(result));
      && t.items == s.items && t.isLoading == s.isLoading
      && t.error == (if result.Rejected? then Some(RejectionMessage(result.reason)) else s.error)
  {
    MutationLifecycle(s, Update, UpdateFoodSettled(result));
  }

  /**
    A whole `deleteFood` dispatch: it fulfils with the id it was asked to
    delete, yet the store keeps the item; only a rejection changes the error.
   */
  lemma DeleteLifecycle(s: FoodsState, id: string, result: Settled<()>)
    ensures result.Fulfilled? ==> DeleteFoodSettled(id, result).id == id
    ensures var t := Reduce(Reduce(s, MutationPending(Remove)), DeleteFoodSettled(id, result));
      && t.items == s.items && t.isLoading == s.isLoading
      && t.error == (if result.Rejected? then Some(RejectionMessage(result.reason)) else s.error)
  {
    MutationLifecycle(s, Remove, DeleteFoodSettled(id, result));
  }
}
