/** The delivery confirmation screen (src/pages/DeliveryConfirmation.tsx): a
    list of deliveries, each pending or confirmed, and a three-step workflow
    (pick a pending delivery, acknowledge it, type the store's token) that
    marks the picked delivery confirmed.

    The page's handlers are modelled twice, as the two halves of one idea: the
    pure functions `Handle…` compute the next state from the current one (the
    way React state updates work), and the class `ConfirmationPage` holds the
    four pieces of state as fields whose methods update them in place and are
    proved to agree with those functions. */
module Deliveries {
  import opened Text

  datatype Option<T> = None | Some(value: T)

  /** `"pendente" | "confirmado"`: there is no third status. */
  datatype Status = Pendente | Confirmado

  datatype Delivery = Delivery(
    id: int,
    sequence: int,
    address: string,
    customer: string,
    items: string,
    scheduledTime: string,
    status: Status)

  /** `confirmationStep`: `"select" | "confirm" | "token"`. */
  datatype Step = Select | Confirm | Token

  /** The list the page starts with. */
  const INITIAL_DELIVERIES: seq<Delivery> := [
    Delivery(1, 1, "Rua das Flores, 123 - Centro", "Loja ABC Ltda",
             "5 caixas - Eletrônicos", "09:00", Pendente),
    Delivery(2, 3, "Rua do Comércio, 789 - Zona Sul", "Supermercado XYZ",
             "12 caixas - Alimentícios", "14:00", Pendente),
    Delivery(3, 4, "Est. da Serra, 321 - Zona Oeste", "Farmácia Popular",
             "3 caixas - Medicamentos", "16:30", Pendente)
  ]

  /** `deliveries.map(d => d.id === id ? { ...d, status: "confirmado" } : d)`:
      every delivery whose id is `id` becomes confirmed, every other one is
      left exactly as it was, and the length and order are kept. */
  function MarkConfirmed(ds: seq<Delivery>, id: int): (r: seq<Delivery>)
    ensures |r| == |ds|
    ensures forall i :: 0 <= i < |ds| && ds[i].id == id ==> r[i] == ds[i].(status := Confirmado)
    ensures forall i :: 0 <= i < |ds| && ds[i].id != id ==> r[i] == ds[i]
  {
    if ds == [] then []
    else
      var d := ds[0];
      [if d.id == id then d.(status := Confirmado) else d] + MarkConfirmed(ds[1..], id)
  }

  /** `pendingDeliveries`: exactly the pending deliveries of `ds`. */
  function PendingDeliveries(ds: seq<Delivery>): (r: seq<Delivery>)
    ensures forall d :: d in r <==> d in ds && d.status == Pendente
    ensures |r| <= |ds|
  {
    if ds == [] then []
    else (if ds[0].status == Pendente then [ds[0]] else []) + PendingDeliveries(ds[1..])
  }

  /** `completedDeliveries`: exactly the confirmed deliveries of `ds`. */
  function CompletedDeliveries(ds: seq<Delivery>): (r: seq<Delivery>)
    ensures forall d :: d in r <==> d in ds && d.status == Confirmado
    ensures |r| <= |ds|
  {
    if ds == [] then []
    else (if ds[0].status == Confirmado then [ds[0]] else []) + CompletedDeliveries(ds[1..])
  }

  /** Because a status is either pending or confirmed, the two views split the
      list between them: every delivery is in exactly one, so the two counts
      the page shows add up to the length of the list. */
  lemma {:induction false} ViewsPartition(ds: seq<Delivery>)
    ensures multiset(PendingDeliveries(ds)) + multiset(CompletedDeliveries(ds)) == multiset(ds)
    ensures |PendingDeliveries(ds)| + |CompletedDeliveries(ds)| == |ds|
  {
    if ds != [] {
      ViewsPartition(ds[1..]);
      assert ds == [ds[0]] + ds[1..];
    }
  }

  /** `selectedDeliveryData`: `deliveries.find(d => d.id === selectedDelivery)`,
      the first delivery with the selected id; there is none when nothing is
      selected or no delivery has that id. */
  function FindDelivery(ds: seq<Delivery>, selection: Option<int>): (r: Option<Delivery>)
    ensures r.None? <==> selection.None? || forall i :: 0 <= i < |ds| ==> ds[i].id != selection.value
    ensures r.Some? ==> exists i :: 0 <= i < |ds| && ds[i] == r.value && ds[i].id == selection.value
                                    && forall j :: 0 <= j < i ==> ds[j].id != selection.value
  {
    if selection.None? || ds == [] then None
    else if ds[0].id == selection.value then Some(ds[0])
    else
      var r := FindDelivery(ds[1..], selection);
      assert r.Some? ==> exists i :: 0 <= i < |ds[1..]| && ds[1..][i] == r.value && ds[1..][i].id == selection.value
                                    && forall j :: 0 <= j < i ==> ds[1..][j].id != selection.value;
      if r.Some? then
        var i :| 0 <= i < |ds[1..]| && ds[1..][i] == r.value && ds[1..][i].id == selection.value
                  && forall j :: 0 <= j < i ==> ds[1..][j].id != selection.value;
        assert ds[i + 1] == r.value && forall j :: 0 <= j < i + 1 ==> ds[j].id != selection.value;
        r
      else r
  }

  /** `after` is `before` with some pending deliveries turned confirmed and
      nothing else changed: same length, same order, same ids and sequence
      numbers, and no confirmed delivery turned back to pending. */
  ghost predicate ConfirmsOnly(before: seq<Delivery>, after: seq<Delivery>) {
    |after| == |before| &&
    forall i :: 0 <= i < |before| ==>
      after[i] == before[i] || (before[i].status == Pendente && after[i] == before[i].(status := Confirmado))
  }

  lemma ConfirmsOnlyTransitive(a: seq<Delivery>, b: seq<Delivery>, c: seq<Delivery>)
    requires ConfirmsOnly(a, b) && ConfirmsOnly(b, c)
    ensures ConfirmsOnly(a, c)
  {
  }

  /** Confirming never lowers the number of confirmed deliveries nor raises
      the number of pending ones. */
  lemma {:induction false} ConfirmedCountMonotone(before: seq<Delivery>, after: seq<Delivery>)
    requires ConfirmsOnly(before, after)
    ensures |CompletedDeliveries(before)| <= |CompletedDeliveries(after)|
    ensures |PendingDeliveries(after)| <= |PendingDeliveries(before)|
  {
    if before != [] {
      assert ConfirmsOnly(before[1..], after[1..]) by {
        forall i | 0 <= i < |before[1..]|
          ensures after[1..][i] == before[1..][i]
                  || (before[1..][i].status == Pendente && after[1..][i] == before[1..][i].(status := Confirmado))
        {
          assert after[1..][i] == after[i + 1] && before[1..][i] == before[i + 1];
        }
      }
      ConfirmedCountMonotone(before[1..], after[1..]);
    }
  }

  /** Marking a delivery that is still pending gains one confirmed delivery at
      least. */
  lemma {:induction false} MarkConfirmedGains(ds: seq<Delivery>, id: int, k: nat)
    requires k < |ds| && ds[k].id == id && ds[k].status == Pendente
    ensures |CompletedDeliveries(MarkConfirmed(ds, id))| > |CompletedDeliveries(ds)|
  {
    var r := MarkConfirmed(ds, id);
    assert r[1..] == MarkConfirmed(ds[1..], id);
    if k == 0 {
      assert ConfirmsOnly(ds[1..], r[1..]);
      ConfirmedCountMonotone(ds[1..], r[1..]);
    } else {
      MarkConfirmedGains(ds[1..], id, k - 1);
    }
  }

  /** The four pieces of the page's state. */
  datatype PageState = PageState(
    deliveries: seq<Delivery>,
    selectedDelivery: Option<int>,
    storeToken: string,
    confirmationStep: Step)

  const INITIAL_STATE: PageState := PageState(INITIAL_DELIVERIES, None, "", Select)

  /** What `handleFinalConfirmation` tells the driver: the "token required"
      toast, the "delivery confirmed" toast, or nothing at all (a non-blank
      token with no truthy selection returns silently). */
  datatype FinalOutcome = TokenRequired | DeliveryConfirmed | Silent

  /** `handleSelectDelivery(id)`: remember the delivery and ask for the
      acknowledgement; the list and the token are untouched. */
  function HandleSelectDelivery(s: PageState, id: int): (r: PageState)
    ensures r.selectedDelivery == Some(id) && r.confirmationStep == Confirm
    ensures r.deliveries == s.deliveries && r.storeToken == s.storeToken
  {
    s.(selectedDelivery := Some(id), confirmationStep := Confirm)
  }

  /** `handleConfirmDelivery`: move to the token step and change nothing else.
      The handler does not look at the current step or selection. */
  function HandleConfirmDelivery(s: PageState): (r: PageState)
    ensures r.confirmationStep == Token
    ensures r.deliveries == s.deliveries && r.selectedDelivery == s.selectedDelivery
    ensures r.storeToken == s.storeToken
  {
    s.(confirmationStep := Token)
  }

  /** The token field's `onChange`: the typed text replaces the token. */
  function HandleStoreTokenChange(s: PageState, text: string): (r: PageState)
    ensures r.storeToken == text
    ensures r.deliveries == s.deliveries && r.selectedDelivery == s.selectedDelivery
    ensures r.confirmationStep == s.confirmationStep
  {
    s.(storeToken := text)
  }

  /** `handleCancel`: back to the first step with nothing selected and the
      token cleared, from whatever step; the list is never touched. */
  function HandleCancel(s: PageState): (r: PageState)
    ensures r.selectedDelivery == None && r.storeToken == "" && r.confirmationStep == Select
    ensures r.deliveries == s.deliveries
  {
    PageState(s.deliveries, None, "", Select)
  }

  /** `handleFinalConfirmation`. A blank token is refused and changes nothing;
      a non-blank token with no truthy selection changes nothing either (in
      `if (selectedDelivery)` both null and the id 0 are falsy); in
      the remaining case the selected delivery is confirmed and the workflow
      is reset as `handleCancel` resets it. */
  function HandleFinalConfirmation(s: PageState): (r: (PageState, FinalOutcome))
    ensures r.1 == TokenRequired <==> IsBlank(s.storeToken)
    ensures r.1 == DeliveryConfirmed <==> !IsBlank(s.storeToken) && s.selectedDelivery.Some? && s.selectedDelivery.value != 0
    ensures r.1 != DeliveryConfirmed ==> r.0 == s
    ensures r.1 == DeliveryConfirmed ==>
              r.0.deliveries == MarkConfirmed(s.deliveries, s.selectedDelivery.value)
              && r.0 == HandleCancel(s).(deliveries := r.0.deliveries)
  {
    if IsBlank(s.storeToken) then (s, TokenRequired)
    else if s.selectedDelivery.Some? && s.selectedDelivery.value != 0 then
      (PageState(MarkConfirmed(s.deliveries, s.selectedDelivery.value), None, "", Select), DeliveryConfirmed)
    else (s, Silent)
  }

  /** The things a driver can do on the page, one per handler. */
  datatype Action =
    | ClickDelivery(id: int)
    | ClickConfirm
    | TypeStoreToken(text: string)
    | ClickFinalize
    | ClickCancel

  function Next(s: PageState, a: Action): PageState {
    match a
    case ClickDelivery(id) => HandleSelectDelivery(s, id)
    case ClickConfirm => HandleConfirmDelivery(s)
    case TypeStoreToken(text) => HandleStoreTokenChange(s, text)
    case ClickFinalize => HandleFinalConfirmation(s).0
    case ClickCancel => HandleCancel(s)
  }

  /** The state after the actions `as`, in order. */
  function Run(s: PageState, actions: seq<Action>): PageState
    decreases |actions|
  {
    if actions == [] then s else Run(Next(s, actions[0]), actions[1..])
  }

  /** No handler writes "pendente" and none reorders, drops or edits a
      delivery: one step only ever confirms pending deliveries. */
  lemma NextConfirmsOnly(s: PageState, a: Action)
    ensures ConfirmsOnly(s.deliveries, Next(s, a).deliveries)
  {
  }

  /** A pending delivery whose id is 0 stays pending whatever the driver does:
      selecting it stores the falsy id 0, which `if (selectedDelivery)` treats
      as no selection. */
  lemma {:induction false} IdZeroNeverConfirmed(s: PageState, actions: seq<Action>, k: nat)
    requires k < |s.deliveries| && s.deliveries[k].id == 0 && s.deliveries[k].status == Pendente
    ensures k < |Run(s, actions).deliveries| && Run(s, actions).deliveries[k].status == Pendente
    decreases |actions|
  {
    if actions != [] {
      var t := Next(s, actions[0]);
      NextConfirmsOnly(s, actions[0]);
      IdZeroNeverConfirmed(t, actions[1..], k);
    }
  }

  /** Whatever the driver does, the list keeps its length, order, ids and
      sequence numbers, statuses only move from pending to confirmed, and the
      confirmed count never decreases. */
  lemma {:induction false} RunConfirmsOnly(s: PageState, actions: seq<Action>)
    ensures ConfirmsOnly(s.deliveries, Run(s, actions).deliveries)
    ensures |CompletedDeliveries(s.deliveries)| <= |CompletedDeliveries(Run(s, actions).deliveries)|
    decreases |actions|
  {
    if actions != [] {
      var t := Next(s, actions[0]);
      NextConfirmsOnly(s, actions[0]);
      RunConfirmsOnly(t, actions[1..]);
      ConfirmsOnlyTransitive(s.deliveries, t.deliveries, Run(t, actions[1..]).deliveries);
    }
    ConfirmedCountMonotone(s.deliveries, Run(s, actions).deliveries);
  }

  /** Cancelling twice is cancelling once. */
  lemma CancelIdempotent(s: PageState)
    ensures HandleCancel(HandleCancel(s)) == HandleCancel(s)
  {
  }

  /** The delivery the token step shows (`selectedDeliveryData`) is the one
      that a successful final confirmation marks confirmed. */
  lemma FinalizeConfirmsShownDelivery(s: PageState)
    requires !IsBlank(s.storeToken) && s.selectedDelivery.Some? && s.selectedDelivery.value != 0
    requires FindDelivery(s.deliveries, s.selectedDelivery).Some?
    ensures FindDelivery(HandleFinalConfirmation(s).0.deliveries, s.selectedDelivery)
            == Some(FindDelivery(s.deliveries, s.selectedDelivery).value.(status := Confirmado))
  {
  }

  /** A blank or whitespace-only token is refused whatever else holds. */
  lemma BlankTokenRefused(s: PageState)
    requires s.storeToken == "" || s.storeToken == "   "
    ensures HandleFinalConfirmation(s) == (s, TokenRequired)
  {
  }

  /** Confirming delivery 1 of the initial list with token "ABC123" leaves one
      confirmed delivery and two pending ones, and resets the workflow. */
  lemma ConfirmFirstDelivery()
    ensures var s := Run(INITIAL_STATE, [ClickDelivery(1), ClickConfirm, TypeStoreToken("ABC123"), ClickFinalize]);
            s.deliveries[0].status == Confirmado
            && |CompletedDeliveries(s.deliveries)| == 1 && |PendingDeliveries(s.deliveries)| == 2
            && s.selectedDelivery == None && s.storeToken == "" && s.confirmationStep == Select
  {
    var actions := [ClickDelivery(1), ClickConfirm, TypeStoreToken("ABC123"), ClickFinalize];
    var s1 := HandleSelectDelivery(INITIAL_STATE, 1);
    var s2 := HandleConfirmDelivery(s1);
    var s3 := HandleStoreTokenChange(s2, "ABC123");
    assert !IsWhitespace(s3.storeToken[0]);
    var s4 := HandleFinalConfirmation(s3).0;
    assert Run(s4, []) == s4;
    assert Run(s3, actions[3..]) == s4;
    assert Run(s2, actions[2..]) == s4;
    assert Run(s1, actions[1..]) == s4;
    var ds := s4.deliveries;
    assert ds == MarkConfirmed(INITIAL_DELIVERIES, 1);
    assert ds == [INITIAL_DELIVERIES[0].(status := Confirmado), INITIAL_DELIVERIES[1], INITIAL_DELIVERIES[2]];
    assert CompletedDeliveries(ds[2..]) == [] && PendingDeliveries(ds[2..]) == [ds[2]];
    assert CompletedDeliveries(ds[1..]) == [] && PendingDeliveries(ds[1..]) == [ds[1], ds[2]];
  }

  /** The page component: its four `useState` cells as fields, its handlers
      as methods that update those fields in place. */
  class ConfirmationPage {
    var deliveries: seq<Delivery>
    var selectedDelivery: Option<int>
    var storeToken: string
    var confirmationStep: Step

    function State(): PageState
      reads this
    {
      PageState(deliveries, selectedDelivery, storeToken, confirmationStep)
    }

    constructor ()
      ensures State() == INITIAL_STATE
    {
      deliveries := INITIAL_DELIVERIES;
      selectedDelivery := None;
      storeToken := "";
      confirmationStep := Select;
    }

    method SelectDelivery(deliveryId: int)
      modifies this
      ensures State() == HandleSelectDelivery(old(State()), deliveryId)
    {
      selectedDelivery := Some(deliveryId);
      confirmationStep := Confirm;
    }

    method ConfirmDelivery()
      modifies this
      ensures State() == HandleConfirmDelivery(old(State()))
    {
      confirmationStep := Token;
    }

    method SetStoreToken(text: string)
      modifies this
      ensures State() == HandleStoreTokenChange(old(State()), text)
    {
      storeToken := text;
    }

    /** Returns the toast it would show in place of showing it. */
    method FinalConfirmation() returns (outcome: FinalOutcome)
      modifies this
      ensures (State(), outcome) == HandleFinalConfirmation(old(State()))
      ensures ConfirmsOnly(old(deliveries), deliveries)
    {
      if IsBlank(storeToken) {
        outcome := TokenRequired;
        return;
      }
      outcome := Silent;
      if selectedDelivery.Some? && selectedDelivery.value != 0 {
        deliveries := MarkConfirmed(deliveries, selectedDelivery.value);
        outcome := DeliveryConfirmed;
        selectedDelivery := None;
        storeToken := "";
        confirmationStep := Select;
      }
    }

    method Cancel()
      modifies this
      ensures State() == HandleCancel(old(State()))
    {
      selectedDelivery := None;
      storeToken := "";
      confirmationStep := Select;
    }
  }
}
