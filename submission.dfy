/** An HTTP response as the browser's `fetch` sees it. */
module Http {
  import opened Wrappers

  /** `json` is the parsed body, or `None` when the body is not JSON (so `response.json()` rejects). */
  datatype Response = Response(status: int, json: Option<map<string, string>>)

  /** `response.ok`: a status in the range 200 to 299. */
  predicate IsOk(r: Response) {
    200 <= r.status <= 299
  }
}

/**
 * What the pages' `handleSubmit` functions share once validation has passed:
 * one request, then one of three endings. The page's network call, its
 * `localStorage` writes and its `navigate` call are taken in as an outcome,
 * a storage map and a navigation output.
 */
module Submission {
  import opened Wrappers
  import opened FieldStore
  import Http

  type ErrorMap = map<string, string>

  const TokenKey := "token"
  const RoleKey := "userRole"
  const RememberedEmailKey := "rememberedEmail"
  const SubmitKey := "submit"

  /**
   * How a request ended: the server answered with `response.ok` and a body
   * holding `token` and `role`; the server answered otherwise, with an
   * optional `message`; or `fetch` or `response.json()` threw.
   */
  datatype Outcome = Ok(token: string, role: string) | NotOk(message: Option<string>) | Threw

  /** The single `POST` a submission sends, with its JSON body. */
  datatype Request = Request(path: string, body: FormData)

  /** What an ok response leads to: the registration success view, or a route to navigate to. */
  datatype OnOk = ShowSuccess | NavigateTo(route: string)

  /** The constants that tell one page's `handleSubmit` from another's. */
  datatype Flow = Flow(path: string, fallback: string, unreachable: string, onOk: OnOk)

  /** The component state that `handleSubmit` sets (`registrationSuccess` only on registration pages). */
  datatype Status = Status(errors: ErrorMap, isSubmitting: bool, registrationSuccess: bool)

  /** The state after `handleSubmit`, the storage contents, the request sent and the navigation asked for. */
  datatype Effect = Effect(status: Status, storage: map<string, string>, request: Option<Request>, navigation: Option<string>)

  /** The value of `data.token` or `data.role`; `localStorage` stores a missing one as the text "undefined". */
  function Property(body: map<string, string>, key: string): string {
    if key in body then body[key] else "undefined"
  }

  /** `response.ok`, `await response.json()` and the fields the pages read from `data`. */
  function Receive(r: Http.Response): (o: Outcome)
    ensures r.json.None? ==> o == Threw
    ensures r.json.Some? && Http.IsOk(r) ==> o.Ok?
    ensures r.json.Some? && !Http.IsOk(r) ==> o.NotOk?
  {
    match r.json
    case None => Threw
    case Some(body) =>
      if Http.IsOk(r) then Ok(Property(body, "token"), Property(body, "role"))
      else NotOk(if "message" in body then Some(body["message"]) else None)
  }

  /** `data.message || fallback`: an absent or empty message gives the fallback. */
  function MessageOr(message: Option<string>, fallback: string): string {
    if message.Some? && message.value != [] then message.value else fallback
  }

  /** `localStorage.setItem('token', …)`, then `'userRole'`, then, when asked, `'rememberedEmail'`. */
  function StoreCredentials(storage: map<string, string>, token: string, role: string, remembered: Option<string>): map<string, string> {
    var s := storage[TokenKey := token][RoleKey := role];
    if remembered.Some? then s[RememberedEmailKey := remembered.value] else s
  }

  /**
   * The fetch-based `handleSubmit` as a transition: a non-empty validation
   * map is published and nothing else happens; otherwise the errors are
   * cleared, `isSubmitting` is set, one request is sent and the outcome
   * decides the rest.
   */
  function Resolve(flow: Flow, before: Status, storage: map<string, string>, validation: ErrorMap,
                   body: FormData, remembered: Option<string>, outcome: Outcome): Effect
  {
    if validation != map[] then Effect(before.(errors := validation), storage, None, None)
    else
      var request := Some(Request(flow.path, body));
      match outcome
      case Ok(token, role) =>
        var stored := StoreCredentials(storage, token, role, remembered);
        (match flow.onOk
         case ShowSuccess => Effect(Status(map[], false, true), stored, request, None)
         case NavigateTo(route) => Effect(Status(map[], true, before.registrationSuccess), stored, request, Some(route)))
      case NotOk(message) =>
        Effect(Status(map[SubmitKey := MessageOr(message, flow.fallback)], false, before.registrationSuccess), storage, request, None)
      case Threw =>
        Effect(Status(map[SubmitKey := flow.unreachable], false, before.registrationSuccess), storage, request, None)
  }

  /** A validation failure publishes the errors and halts: no request, no storage write, nothing else changed. */
  lemma ValidationFailureHalts(flow: Flow, before: Status, storage: map<string, string>, validation: ErrorMap,
                               body: FormData, remembered: Option<string>, outcome: Outcome)
    requires validation != map[]
    ensures var e := Resolve(flow, before, storage, validation, body, remembered, outcome);
      && e.status.errors == validation
      && e.status.isSubmitting == before.isSubmitting
      && e.status.registrationSuccess == before.registrationSuccess
      && e.storage == storage && e.request == None && e.navigation == None
  {
    assert validation.Keys != {};
  }

  /** A request is sent exactly when validation passes, to the flow's endpoint with the page's body. */
  lemma RequestIffValid(flow: Flow, before: Status, storage: map<string, string>, validation: ErrorMap,
                        body: FormData, remembered: Option<string>, outcome: Outcome)
    ensures var e := Resolve(flow, before, storage, validation, body, remembered, outcome);
      && (e.request.Some? <==> validation == map[])
      && (e.request.Some? ==> e.request.value == Request(flow.path, body))
  {
    if validation != map[] {
      ValidationFailureHalts(flow, before, storage, validation, body, remembered, outcome);
    }
  }

  /**
   * Storage changes only on an ok response to a valid form, and then only the
   * keys `token` and `userRole`, plus `rememberedEmail` when asked: no
   * failure leaves partial credentials behind.
   */
  lemma StorageOnlyOnOk(flow: Flow, before: Status, storage: map<string, string>, validation: ErrorMap,
                        body: FormData, remembered: Option<string>, outcome: Outcome)
    ensures var e := Resolve(flow, before, storage, validation, body, remembered, outcome);
      && (e.storage != storage ==> validation == map[] && outcome.Ok?)
      && (validation == map[] && outcome.Ok? ==>
            && e.storage[TokenKey] == outcome.token
            && e.storage[RoleKey] == outcome.role
            && (remembered.Some? ==> e.storage[RememberedEmailKey] == remembered.value)
            && (forall k :: (k in storage && k != TokenKey && k != RoleKey
                             && (remembered.Some? ==> k != RememberedEmailKey))
                   ==> k in e.storage && e.storage[k] == storage[k])
            && e.storage.Keys == storage.Keys + {TokenKey, RoleKey}
                 + (if remembered.Some? then {RememberedEmailKey} else {}))
  {
    if validation != map[] {
      ValidationFailureHalts(flow, before, storage, validation, body, remembered, outcome);
    }
  }

  /**
   * After a sent request: a refusal shows the server's message or the
   * flow's fallback, a throw shows the flow's fixed message, both under
   * `submit` alone and with `isSubmitting` reset; an ok response clears the
   * errors, and only the success view resets `isSubmitting`.
   */
  lemma RequestEndings(flow: Flow, before: Status, storage: map<string, string>, validation: ErrorMap,
                       body: FormData, remembered: Option<string>, outcome: Outcome)
    requires validation == map[]
    ensures var e := Resolve(flow, before, storage, validation, body, remembered, outcome);
      && (outcome.NotOk? ==> e.status.errors == map[SubmitKey := MessageOr(outcome.message, flow.fallback)] && !e.status.isSubmitting)
      && (outcome.Threw? ==> e.status.errors == map[SubmitKey := flow.unreachable] && !e.status.isSubmitting)
      && (outcome.Ok? ==> e.status.errors == map[] && (e.status.isSubmitting <==> flow.onOk.NavigateTo?))
      && (outcome.Ok? && flow.onOk.ShowSuccess? ==> e.status.registrationSuccess && e.navigation == None)
      && (outcome.Ok? && flow.onOk.NavigateTo? ==> e.navigation == Some(flow.onOk.route))
      && (!outcome.Ok? ==> e.navigation == None && e.status.registrationSuccess == before.registrationSuccess)
  {
  }

  /**
   * Errors are shown only after a failure: the map after a submission is
   * empty exactly when validation passed and the server accepted, and it
   * holds `submit` only when the request failed.
   */
  lemma ErrorsOnlyAfterFailure(flow: Flow, before: Status, storage: map<string, string>, validation: ErrorMap,
                               body: FormData, remembered: Option<string>, outcome: Outcome)
    requires SubmitKey !in validation
    ensures var e := Resolve(flow, before, storage, validation, body, remembered, outcome);
      && (e.status.errors == map[] <==> validation == map[] && outcome.Ok?)
      && (SubmitKey in e.status.errors <==> validation == map[] && !outcome.Ok?)
  {
    var e := Resolve(flow, before, storage, validation, body, remembered, outcome);
    if validation != map[] {
      ValidationFailureHalts(flow, before, storage, validation, body, remembered, outcome);
    } else if !outcome.Ok? {
      assert SubmitKey in e.status.errors;
    }
  }

  /**
   * The state while the request is in flight: `setIsSubmitting(true)` and
   * `setErrors({})` have run, and the success flag is as it was.
   */
  function Pending(before: Status): Status {
    Status(map[], true, before.registrationSuccess)
  }

  /**
   * What the fetch-based `handleSubmit` does once its request is in flight,
   * from the pending state: an ok answer stores the credentials and either
   * shows the success view or navigates away, leaving the pending state as
   * it is; a refusal or a throw shows one `submit` message and resets
   * `isSubmitting`.
   */
  function Settle(flow: Flow, pending: Status, storage: map<string, string>, remembered: Option<string>,
                  outcome: Outcome): Effect
  {
    match outcome
    case Ok(token, role) =>
      var stored := StoreCredentials(storage, token, role, remembered);
      (match flow.onOk
       case ShowSuccess => Effect(pending.(isSubmitting := false, registrationSuccess := true), stored, None, None)
       case NavigateTo(route) => Effect(pending, stored, None, Some(route)))
    case NotOk(message) =>
      Effect(pending.(errors := map[SubmitKey := MessageOr(message, flow.fallback)], isSubmitting := false),
             storage, None, None)
    case Threw =>
      Effect(pending.(errors := map[SubmitKey := flow.unreachable], isSubmitting := false), storage, None, None)
  }

  /**
   * A submission that passes validation goes through the pending state:
   * the transition is the request sent from `Pending(before)`, then
   * `Settle` from there.
   */
  lemma ResolveThroughPending(flow: Flow, before: Status, storage: map<string, string>,
                              body: FormData, remembered: Option<string>, outcome: Outcome)
    ensures Pending(before).errors == map[] && Pending(before).isSubmitting
    ensures Resolve(flow, before, storage, map[], body, remembered, outcome)
         == Settle(flow, Pending(before), storage, remembered, outcome).(request := Some(Request(flow.path, body)))
  {
  }

  /**
   * A page that navigates on success never leaves the pending state: after
   * the ok answer its errors are still empty and `isSubmitting` still set.
   */
  lemma NavigationKeepsPending(flow: Flow, before: Status, storage: map<string, string>,
                               body: FormData, remembered: Option<string>, token: string, role: string)
    requires flow.onOk.NavigateTo?
    ensures Resolve(flow, before, storage, map[], body, remembered, Ok(token, role)).status == Pending(before)
  {
  }

  /**
   * The delay-based `handleSubmit` inside the registration components: a
   * validation failure publishes the errors; otherwise the success view is
   * shown, the errors cleared and `isSubmitting` reset.
   */
  function ResolveSimulated(before: Status, validation: ErrorMap): Status {
    if validation != map[] then before.(errors := validation) else Status(map[], false, true)
  }

  /** The simulated submission is the fetch-based one answered ok, without its storage writes. */
  lemma SimulatedIsOkWithoutStorage(flow: Flow, before: Status, storage: map<string, string>, validation: ErrorMap,
                                    body: FormData, token: string, role: string)
    requires flow.onOk == ShowSuccess
    ensures ResolveSimulated(before, validation)
         == Resolve(flow, before, storage, validation, body, None, Ok(token, role)).status
  {
  }

  /** What the delay-based `handleSubmit` does after its delay, from the pending state: the success view. */
  function SettleSimulated(pending: Status): Status {
    pending.(isSubmitting := false, registrationSuccess := true)
  }

  /** The delay-based submission passes through the pending state, from which `SettleSimulated` ends it. */
  lemma SimulatedThroughPending(before: Status)
    ensures ResolveSimulated(before, map[]) == SettleSimulated(Pending(before))
    ensures SettleSimulated(Pending(before)).errors == map[] && !SettleSimulated(Pending(before)).isSubmitting
  {
  }

  /** The browser's `localStorage`: a key/value store shared by all pages. */
  class Storage {
    var items: map<string, string>

    constructor()
      ensures items == map[]
    {
      items := map[];
    }

    /** `localStorage.setItem(key, value)`. */
    method SetItem(key: string, value: string)
      modifies this
      ensures items == old(items)[key := value]
    {
      items := items[key := value];
    }
  }
}
