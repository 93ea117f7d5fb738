/**
  The page component as one state machine: the list it shows with its loading
  flag and error, the search term with its trailing-edge debounce, the two
  modals and the selected item, and the save and delete workflows that reload
  the list when they succeed. Calls to the gateway are outputs of a step and
  their outcomes are later events; time advances by `Tick` events of one unit.
 */
module App {
  import opened Js
  import opened Types
  import FoodService
  import FoodsSlice

  /** The quiet period, in ticks, after which a search is sent. */
  const DebounceDelay: nat := 300

  /** The one pending debounce timer: the term it will search for and the ticks left until it fires. */
  datatype Timer = Timer(term: string, remaining: nat)

  /**
    A save or delete in flight. `Mutating` waits for the gateway and holds the
    search term the handler saw when it started; `Refreshing` waits for the
    reload that follows a success. `isSubmitting`/`isDeleting` is true
    exactly while the job is not `Idle`.
   */
  datatype Job = Idle | Mutating(term: string) | Refreshing

  datatype AppState = AppState(
    foods: seq<FoodItem>,
    isLoading: bool,
    error: Option<string>,
    searchTerm: string,
    isFormModalOpen: bool,
    isDeleteModalOpen: bool,
    selectedFood: Option<FoodItem>,
    save: Job,
    removal: Job,
    timer: Option<Timer>)
  {
    predicate IsSubmitting() { !save.Idle? }
    predicate IsDeleting() { !removal.Idle? }
  }

  /** The state on first render: loading, nothing shown, no term, both modals closed. */
  const Initial: AppState := AppState([], true, None, "", false, false, None, Idle, Idle, None)

  /** A call to the gateway the machine issues. */
  datatype Call =
    | GetFoods(term: string)
    | CreateFood(form: FormState)
    | UpdateFood(id: string, form: FormState)
    | DeleteFood(id: string)

  /** The request each call sends; a search term is passed as a present value. */
  function CallRequest(c: Call): FoodService.Request {
    match c
    case GetFoods(term) => FoodService.GetFoodsRequest(Some(term))
    case CreateFood(form) => FoodService.CreateRequest(form)
    case UpdateFood(id, form) => FoodService.UpdateRequest(id, form)
    case DeleteFood(id) => FoodService.DeleteRequest(id)
  }

  datatype Event =
    | Mount
    | SearchChange(value: string)
    | Tick
    | OpenAdd
    | OpenEdit(food: FoodItem)
    | OpenDelete(food: FoodItem)
    | CloseModals
    | SubmitForm(form: FormState)
    | SaveSettled(saved: Settled<FoodItem>)
    | ConfirmDelete
    | DeleteSettled(deleted: Settled<()>)
    | FetchSettled(fetched: Settled<seq<FoodItem>>)

  /** A step's outcome: the next state and the calls it issued, in order. */
  datatype Transition = Transition(next: AppState, calls: seq<Call>)

  /** The start of `fetchFoods(term)`: loading, error cleared, one list call. */
  function FetchFoods(s: AppState, term: string): (t: Transition)
    ensures t.next.isLoading && t.next.error.None?
    ensures t.calls == [GetFoods(term)]
    ensures t.next.foods == s.foods && t.next.searchTerm == s.searchTerm && t.next.timer == s.timer
  {
    Transition(s.(isLoading := true, error := None), [GetFoods(term)])
  }

  /** `handleCloseModals`: both modals closed and the selection cleared. */
  function Closed(s: AppState): AppState {
    s.(isFormModalOpen := false, isDeleteModalOpen := false, selectedFood := None)
  }

  /** A job waiting for the reload ends when a list call settles. */
  function Settle(j: Job): Job {
    if j.Refreshing? then Idle else j
  }

  /**
    Only the modal flags and the selection differ: the list, loading flag,
    error, term, pending timer and both jobs are as they were.
   */
  predicate OnlyModalsChange(s: AppState, t: AppState) {
    && t.foods == s.foods && t.isLoading == s.isLoading && t.error == s.error
    && t.searchTerm == s.searchTerm && t.timer == s.timer
    && t.save == s.save && t.removal == s.removal
  }

  /** The page's response to one event. */
  function Step(s: AppState, e: Event): (t: Transition)
    ensures e.SearchChange? ==>
      t == Transition(s.(searchTerm := e.value, timer := Some(Timer(e.value, DebounceDelay))), [])
    ensures e.Tick? && s.timer.None? ==> t == Transition(s, [])
    ensures e.OpenAdd? || e.OpenEdit? || e.OpenDelete? || e.CloseModals? || e.FetchSettled? ==> t.calls == []
    ensures e.OpenAdd? || e.OpenEdit? || e.OpenDelete? || e.CloseModals? ==> OnlyModalsChange(s, t.next)
    ensures !e.SearchChange? && !e.Tick? ==> t.next.timer == s.timer
    ensures e.SubmitForm? || e.ConfirmDelete? ==> t.next.isLoading == s.isLoading
    ensures !e.SearchChange? ==> t.next.searchTerm == s.searchTerm
    ensures !e.FetchSettled? ==> t.next.foods == s.foods
  {
    match e
    case Mount => FetchFoods(s, "")
    case SearchChange(value) =>
      Transition(s.(searchTerm := value, timer := Some(Timer(value, DebounceDelay))), [])
    case Tick =>
      if s.timer.None? then Transition(s, [])
      else if s.timer.value.remaining <= 1 then FetchFoods(s.(timer := None), s.timer.value.term)
      else Transition(s.(timer := Some(s.timer.value.(remaining := s.timer.value.remaining - 1))), [])
    case OpenAdd => Transition(s.(selectedFood := None, isFormModalOpen := true), [])
    case OpenEdit(food) => Transition(s.(selectedFood := Some(food), isFormModalOpen := true), [])
    case OpenDelete(food) => Transition(s.(selectedFood := Some(food), isDeleteModalOpen := true), [])
    case CloseModals => Transition(Closed(s), [])
    case SubmitForm(form) =>
      var call := if s.selectedFood.Some? then UpdateFood(s.selectedFood.value.id, form) else CreateFood(form);
      Transition(s.(save := Mutating(s.searchTerm), error := None), [call])
    case SaveSettled(saved) =>
      if !s.save.Mutating? then Transition(s, [])
      else if saved.Fulfilled? then
        var reload := FetchFoods(Closed(s), s.save.term);
        Transition(reload.next.(save := Refreshing), reload.calls)
      else Transition(s.(error := Some(MessageOr(saved.reason, "Failed to save item")), save := Idle), [])
    case ConfirmDelete =>
      if s.selectedFood.None? then Transition(s, [])
      else Transition(s.(removal := Mutating(s.searchTerm), error := None), [DeleteFood(s.selectedFood.value.id)])
    case DeleteSettled(deleted) =>
      if !s.removal.Mutating? then Transition(s, [])
      else if deleted.Fulfilled? then
        var reload := FetchFoods(Closed(s), s.removal.term);
        Transition(reload.next.(removal := Refreshing), reload.calls)
      else Transition(s.(error := Some(MessageOr(deleted.reason, "Failed to delete item")), removal := Idle), [])
    case FetchSettled(fetched) =>
      var done := s.(isLoading := false, save := Settle(s.save), removal := Settle(s.removal));
      if fetched.Fulfilled? then Transition(done.(foods := Reverse(fetched.value)), [])
      else Transition(done.(error := Some(MessageOr(fetched.reason, "An unknown error occurred"))), [])
  }

  /**
    What stays true between events: a pending timer searches for the term the
    box shows and fires within the delay, and a job waiting for its reload
    implies a load is in progress.
   */
  predicate Inv(s: AppState) {
    && (s.timer.Some? ==> s.timer.value.term == s.searchTerm && 1 <= s.timer.value.remaining <= DebounceDelay)
    && (s.save.Refreshing? ==> s.isLoading)
    && (s.removal.Refreshing? ==> s.isLoading)
  }

  /** Every event keeps the invariant. */
  lemma StepKeepsInv(s: AppState, e: Event)
    requires Inv(s)
    ensures Inv(Step(s, e).next)
  {
    if e.SaveSettled? || e.DeleteSettled? {
      MutationSettledKeepsInv(s, e);
    } else if e.FetchSettled? {
      FetchSettledKeepsInv(s, e.fetched);
    } else if e.Tick? || e.Mount? || e.SearchChange? {
      TimingKeepsInv(s, e);
    } else {
      HandlerKeepsInv(s, e);
    }
  }

  /** The invariant across the settling of a save or a delete. */
  lemma MutationSettledKeepsInv(s: AppState, e: Event)
    requires Inv(s) && (e.SaveSettled? || e.DeleteSettled?)
    ensures Inv(Step(s, e).next)
  {
  }

  /** The invariant across the settling of a list call. */
  lemma FetchSettledKeepsInv(s: AppState, fetched: Settled<seq<FoodItem>>)
    requires Inv(s)
    ensures Inv(Step(s, FetchSettled(fetched)).next)
  {
    var t := Step(s, FetchSettled(fetched)).next;
    assert t.timer == s.timer && t.searchTerm == s.searchTerm;
    assert !t.save.Refreshing? && !t.removal.Refreshing?;
  }

  /** The invariant across mounting, typing and the passing of time. */
  lemma TimingKeepsInv(s: AppState, e: Event)
    requires Inv(s) && (e.Tick? || e.Mount? || e.SearchChange?)
    ensures Inv(Step(s, e).next)
  {
  }

  /** The invariant across the modal and submit handlers. */
  lemma HandlerKeepsInv(s: AppState, e: Event)
    requires Inv(s) && !(e.SaveSettled? || e.DeleteSettled? || e.FetchSettled? || e.Tick? || e.Mount? || e.SearchChange?)
    ensures Inv(Step(s, e).next)
  {
  }

  /** The initial state satisfies the invariant. */
  lemma InitialInv()
    ensures Inv(Initial)
    ensures Initial.isLoading && Initial.foods == [] && Initial.error.None?
  {
  }

  // ---------------------------------------------------------------------------
  // Runs of events

  /** The events `es` processed in order, with all the calls they issued. */
  function Run(s: AppState, es: seq<Event>): (r: Transition)
    decreases |es|
  {
    if es == [] then Transition(s, [])
    else
      var first := Step(s, es[0]);
      var rest := Run(first.next, es[1..]);
      Transition(rest.next, first.calls + rest.calls)
  }

  /** `n` ticks in a row. */
  function Ticks(n: nat): (es: seq<Event>)
    ensures |es| == n && forall i :: 0 <= i < n ==> es[i] == Tick
  {
    seq(n, _ => Tick)
  }

  /** Running two event lists one after the other is running their concatenation. */
  lemma {:induction false} RunAppend(s: AppState, a: seq<Event>, b: seq<Event>)
    ensures Run(s, a + b).next == Run(Run(s, a).next, b).next
    ensures Run(s, a + b).calls == Run(s, a).calls + Run(Run(s, a).next, b).calls
    decreases |a|
  {
    if a != [] {
      assert (a + b)[0] == a[0] && (a + b)[1..] == a[1..] + b;
      RunAppend(Step(s, a[0]).next, a[1..], b);
    } else {
      assert a + b == b;
    }
  }

  /** With no timer pending, time passing changes nothing. */
  lemma {:induction false} IdleTicks(s: AppState, n: nat)
    requires s.timer.None?
    ensures Run(s, Ticks(n)) == Transition(s, [])
  {
    if n > 0 {
      assert Ticks(n)[1..] == Ticks(n - 1);
      IdleTicks(s, n - 1);
    }
  }

  /** Fewer ticks than the timer has left only count it down: nothing is sent. */
  lemma {:induction false} QuietTicks(s: AppState, n: nat)
    requires s.timer.Some? && n < s.timer.value.remaining
    decreases n
    ensures Run(s, Ticks(n))
         == Transition(s.(timer := Some(Timer(s.timer.value.term, s.timer.value.remaining - n))), [])
  {
    if n > 0 {
      assert Ticks(n)[1..] == Ticks(n - 1);
      var next := Step(s, Tick).next;
      QuietTicks(next, n - 1);
    } else {
      assert s.(timer := Some(Timer(s.timer.value.term, s.timer.value.remaining))) == s;
    }
  }

  /** On the tick where its time runs out, the timer fires one search for its term and is gone. */
  lemma TimerFires(s: AppState)
    requires s.timer.Some? && s.timer.value.remaining >= 1
    ensures var r := Run(s, Ticks(s.timer.value.remaining));
      && r.calls == [GetFoods(s.timer.value.term)]
      && r.next == s.(timer := None, isLoading := true, error := None)
  {
    var k := s.timer.value.remaining;
    assert Ticks(k) == Ticks(k - 1) + [Tick];
    QuietTicks(s, k - 1);
    RunAppend(s, Ticks(k - 1), [Tick]);
  }

  /**
    `handleSearchChange(v)`: the box shows `v` at once and nothing is sent for
    299 ticks; on the 300th one search for `v` is sent.
   */
  lemma SearchIsDebounced(s: AppState, v: string, n: nat)
    requires n < DebounceDelay
    ensures Run(s, [SearchChange(v)] + Ticks(n)).calls == []
    ensures Run(s, [SearchChange(v)] + Ticks(n)).next.searchTerm == v
    ensures Run(s, [SearchChange(v)] + Ticks(DebounceDelay)).calls == [GetFoods(v)]
  {
    var typed := Step(s, SearchChange(v)).next;
    assert Run(s, [SearchChange(v)]) == Transition(typed, []);
    RunAppend(s, [SearchChange(v)], Ticks(n));
    QuietTicks(typed, n);
    RunAppend(s, [SearchChange(v)], Ticks(DebounceDelay));
    TimerFires(typed);
  }

  /**
    A keystroke followed within the delay by another one leaves no trace:
    the earlier timer is cancelled and the state is as if only the later
    keystroke had happened.
   */
  lemma SupersededKeystroke(s: AppState, a: string, b: string, n: nat)
    requires n < DebounceDelay
    ensures Run(s, [SearchChange(a)] + Ticks(n) + [SearchChange(b)]) == Run(s, [SearchChange(b)])
  {
    var typed := Step(s, SearchChange(a)).next;
    assert Run(s, [SearchChange(a)]) == Transition(typed, []);
    RunAppend(s, [SearchChange(a)], Ticks(n));
    QuietTicks(typed, n);
    var waited := Run(typed, Ticks(n)).next;
    RunAppend(s, [SearchChange(a)] + Ticks(n), [SearchChange(b)]);
    assert Run(waited, [SearchChange(b)]) == Transition(Step(waited, SearchChange(b)).next, []);
    assert Step(waited, SearchChange(b)).next == Step(s, SearchChange(b)).next;
  }

  /**
    Typing three keystrokes at times 0, 100 and 150 and then waiting sends
    exactly one search, for the last value, 300 ticks after the last keystroke.
   */
  lemma TypingBurst(s: AppState, a: string, b: string, c: string)
    ensures Run(s, [SearchChange(a)] + Ticks(100) + [SearchChange(b)] + Ticks(50) + [SearchChange(c)] + Ticks(299)).calls
         == []
    ensures Run(s, [SearchChange(a)] + Ticks(100) + [SearchChange(b)] + Ticks(50) + [SearchChange(c)] + Ticks(300)).calls
         == [GetFoods(c)]
  {
    BurstIsLastKeystroke(s, a, b, c, 299);
    BurstIsLastKeystroke(s, a, b, c, 300);
    SearchIsDebounced(s, c, 299);
  }

  /** The burst behaves as its last keystroke alone. */
  lemma BurstIsLastKeystroke(s: AppState, a: string, b: string, c: string, n: nat)
    ensures Run(s, [SearchChange(a)] + Ticks(100) + [SearchChange(b)] + Ticks(50) + [SearchChange(c)] + Ticks(n))
         == Run(s, [SearchChange(c)] + Ticks(n))
  {
    var x := [SearchChange(a)] + Ticks(100) + [SearchChange(b)];
    var y := [SearchChange(b)] + Ticks(50) + [SearchChange(c)];
    SupersededKeystroke(s, a, b, 100);
    SupersededKeystroke(s, b, c, 50);
    var rest := Ticks(50) + [SearchChange(c)] + Ticks(n);
    assert x + Ticks(50) + [SearchChange(c)] + Ticks(n) == x + rest;
    assert [SearchChange(b)] + rest == y + Ticks(n);
    RunAppend(s, x, rest);
    RunAppend(s, [SearchChange(b)], rest);
    RunAppend(s, y, Ticks(n));
    RunAppend(s, [SearchChange(c)], Ticks(n));
  }

  // ---------------------------------------------------------------------------
  // Loading

  /** On mount the page is loading and sends one list call with the empty term, which carries no name filter. */
  lemma MountFetchesEverything()
    ensures Step(Initial, Mount).calls == [GetFoods("")]
    ensures Step(Initial, Mount).next.isLoading
    ensures CallRequest(GetFoods("")).nameQuery.None?
  {
  }

  /**
    A whole `fetchFoods` run ends not loading; success shows the list
    reversed and failure keeps the old list with the error's message or the
    generic one.
   */
  lemma FetchOutcome(s: AppState, term: string, fetched: Settled<seq<FoodItem>>)
    ensures var t := Step(FetchFoods(s, term).next, FetchSettled(fetched)).next;
      && !t.isLoading
      && (fetched.Fulfilled? ==>
            && |t.foods| == |fetched.value|
            && (forall i :: 0 <= i < |t.foods| ==> t.foods[i] == fetched.value[|fetched.value| - 1 - i])
            && t.error.None?)
      && (fetched.Rejected? ==>
            t.foods == s.foods && t.error == Some(MessageOr(fetched.reason, "An unknown error occurred")))
  {
  }

  /**
    The page's own loading code and the store slice agree: from the same
    items, flag and error, a load that settles the same way leaves the same
    items, flag and error in both.
   */
  lemma FetchAgreesWithSlice(s: AppState, term: string, fetched: Settled<seq<FoodItem>>)
    ensures var t := Step(FetchFoods(s, term).next, FetchSettled(fetched)).next;
      var slice := FoodsSlice.Reduce(
        FoodsSlice.Reduce(FoodsSlice.FoodsState(s.foods, s.isLoading, s.error), FoodsSlice.FetchPending),
        FoodsSlice.FetchFoodsSettled(fetched));
      t.foods == slice.items && t.isLoading == slice.isLoading && t.error == slice.error
  {
  }

  // ---------------------------------------------------------------------------
  // Modals

  /**
    The modal handlers: add clears the selection, edit and delete select the
    item, close clears everything. Each opens only its own modal, issues no
    call and leaves the list, the search with its pending timer and the jobs
    as they were.
   */
  lemma ModalHandlers(s: AppState, food: FoodItem)
    ensures var t := Step(s, OpenAdd);
      && t.calls == [] && OnlyModalsChange(s, t.next)
      && t.next.isFormModalOpen && t.next.isDeleteModalOpen == s.isDeleteModalOpen && t.next.selectedFood.None?
    ensures var t := Step(s, OpenEdit(food));
      && t.calls == [] && OnlyModalsChange(s, t.next)
      && t.next.isFormModalOpen && t.next.isDeleteModalOpen == s.isDeleteModalOpen && t.next.selectedFood == Some(food)
    ensures var t := Step(s, OpenDelete(food));
      && t.calls == [] && OnlyModalsChange(s, t.next)
      && t.next.isDeleteModalOpen && t.next.isFormModalOpen == s.isFormModalOpen && t.next.selectedFood == Some(food)
    ensures var t := Step(s, CloseModals);
      && t.calls == [] && OnlyModalsChange(s, t.next)
      && !t.next.isFormModalOpen && !t.next.isDeleteModalOpen && t.next.selectedFood.None?
  {
  }

  // ---------------------------------------------------------------------------
  // Saving and deleting

  /** Submitting calls update with the selected item's id when an item is selected, and create otherwise. */
  lemma SubmitCalls(s: AppState, form: FormState)
    ensures var t := Step(s, SubmitForm(form));
      && t.calls == [if s.selectedFood.Some? then UpdateFood(s.selectedFood.value.id, form) else CreateFood(form)]
      && t.next.IsSubmitting() && t.next.error.None?
  {
  }

  /**
    A save that succeeds closes both modals, clears the selection and reloads
    with the term the page showed when the form was submitted; submitting
    ends when that reload settles.
   */
  lemma SaveSucceeds(s: AppState, form: FormState, saved: FoodItem, fetched: Settled<seq<FoodItem>>)
    ensures var submitted := Step(s, SubmitForm(form)).next;
      var settled := Step(submitted, SaveSettled(Fulfilled(saved)));
      var reloaded := Step(settled.next, FetchSettled(fetched)).next;
      && settled.calls == [GetFoods(s.searchTerm)]
      && !settled.next.isFormModalOpen && !settled.next.isDeleteModalOpen && settled.next.selectedFood.None?
      && settled.next.IsSubmitting() && settled.next.isLoading
      && !reloaded.IsSubmitting() && !reloaded.isLoading
  {
  }

  /** A save that fails keeps the modals and selection, sets the message, reloads nothing and stops submitting. */
  lemma SaveFails(s: AppState, form: FormState, reason: Thrown)
    ensures var submitted := Step(s, SubmitForm(form)).next;
      var settled := Step(submitted, SaveSettled(Rejected(reason)));
      && settled.calls == []
      && settled.next.isFormModalOpen == s.isFormModalOpen
      && settled.next.isDeleteModalOpen == s.isDeleteModalOpen
      && settled.next.selectedFood == s.selectedFood
      && settled.next.error == Some(MessageOr(reason, "Failed to save item"))
      && !settled.next.IsSubmitting()
      && settled.next.foods == s.foods
  {
  }

  /** Confirming a delete with nothing selected does nothing. */
  lemma DeleteNeedsSelection(s: AppState)
    requires s.selectedFood.None?
    ensures Step(s, ConfirmDelete) == Transition(s, [])
  {
  }

  /**
    A delete of the selected item that succeeds closes the modals and reloads
    with the term shown at confirmation; deleting ends when that reload settles.
   */
  lemma DeleteSucceeds(s: AppState, fetched: Settled<seq<FoodItem>>)
    requires s.selectedFood.Some?
    ensures var confirmed := Step(s, ConfirmDelete);
      var settled := Step(confirmed.next, DeleteSettled(Fulfilled(())));
      var reloaded := Step(settled.next, FetchSettled(fetched)).next;
      && confirmed.calls == [DeleteFood(s.selectedFood.value.id)]
      && confirmed.next.IsDeleting()
      && settled.calls == [GetFoods(s.searchTerm)]
      && !settled.next.isFormModalOpen && !settled.next.isDeleteModalOpen && settled.next.selectedFood.None?
      && !reloaded.IsDeleting() && !reloaded.isLoading
  {
  }

  /** A delete that fails keeps the modals and selection, sets the message and reloads nothing. */
  lemma DeleteFails(s: AppState, reason: Thrown)
    requires s.selectedFood.Some?
    ensures var confirmed := Step(s, ConfirmDelete).next;
      var settled := Step(confirmed, DeleteSettled(Rejected(reason)));
      && settled.calls == []
      && settled.next.isDeleteModalOpen == s.isDeleteModalOpen
      && settled.next.selectedFood == s.selectedFood
      && settled.next.error == Some(MessageOr(reason, "Failed to delete item"))
      && !settled.next.IsDeleting()
  {
  }
}
