/** The shared storefront actions components fall back on when no handler is passed:
    thin wrappers that use the provider's own action when there is one and otherwise talk
    to the builder directly, without the provider's guards or its pending command. */
module FsActions {
  import opened JsValue
  import opened FastSpring

  const AddNotReadyMessage := "SBL not ready (add)"
  const FlowNotReadyMessage := "SBL not ready (flow)"

  /** What a click on a shared action does: the effects, and whether it throws. */
  datatype Click = Click(effects: seq<Effect>, threw: bool)

  /** `addToCart(path)` with its default quantity of one: nothing for a falsy path; inside
      the provider, the provider's `addToCart(path, 1)`; otherwise an unguarded push, or an
      alert when there is no builder. */
  function SharedAdd(path: JsVal, inProvider: bool, items: seq<JsVal>, w: Widget): (r: Click)
    ensures !Truthy(path) ==> r == Click([], false)
    ensures Truthy(path) && inProvider ==> r == Click(AddPlan(ProductPathOf(path), items, 1, w), false)
    ensures Truthy(path) && !inProvider && !w.present ==> r == Click([Alert(AddNotReadyMessage)], false)
    ensures Truthy(path) && !inProvider && w.present ==>
      r.effects == [Sent(Push(ToStr(path), 1))] && (r.threw <==> PushKind in w.failing)
  {
    if !Truthy(path) then Click([], false)
    else if inProvider then Click(AddPlan(ProductPathOf(path), items, 1, w), false)
    else if !w.present then Click([Alert(AddNotReadyMessage)], false)
    else
      var push := Push(ToStr(path), 1);
      Click([Sent(push)], Fails(w, push))
  }

  /** `selectSingleAndCheckout(path, true)`: nothing for a falsy path; an alert when there
      is no builder; otherwise reset, push one unit and open the checkout at once, each
      call unguarded, so the first that throws ends the click. */
  function SharedSelect(path: JsVal, w: Widget): Click
  {
    if !Truthy(path) then Click([], false)
    else if !w.present then Click([Alert(FlowNotReadyMessage)], false)
    else if Fails(w, Reset) then Click([Sent(Reset)], true)
    else
      var push := Push(ToStr(path), 1);
      if Fails(w, push) then Click([Sent(Reset), Sent(push)], true)
      else Click([Sent(Reset), Sent(push), Sent(Checkout)], Fails(w, Checkout))
  }

  /** The shared add reaches the builder with at most one push and never opens the
      checkout; it alerts only when there is no builder outside a provider, or through the
      provider's own empty-path alert. */
  lemma SharedAddBounded(path: JsVal, inProvider: bool, items: seq<JsVal>, w: Widget)
    ensures var r := SharedAdd(path, inProvider, items, w);
      && Pushes(r.effects) <= 1 && Checkouts(r.effects) == 0
      && (r.threw ==> Truthy(path) && !inProvider && w.present)
  {
    var r := SharedAdd(path, inProvider, items, w);
    if Truthy(path) && inProvider {
      var p := ProductPathOf(path);
      if p == "" {
        CountsOne(Alert(NoPathMessage));
      } else {
        var c := AddCall(p, HasMatch(items, p), 1);
        GuardedCalls(w, c, ActionFailedMessage);
        GuardedCheckouts(w, c, ActionFailedMessage);
      }
    } else if Truthy(path) {
      CountsOne(r.effects[0]);
    }
  }

  /** A guarded call that is not a checkout opens no checkout. */
  lemma GuardedCheckouts(w: Widget, c: Call, message: string)
    requires c != Checkout
    ensures Checkouts(Guarded(w, c, message)) == 0
  {
    CountsOne(Sent(c));
    CountsOne(Alert(message));
    CountsAppend(Send(w, c), if Fails(w, c) then [Alert(message)] else []);
  }

  /** The shared single-select runs its whole flow in the click: with a working builder it
      resets, pushes the path once and opens the checkout, in that order; it never pushes
      twice or opens two checkouts; and without a builder it only alerts. */
  lemma SharedSelectFlow(path: JsVal, w: Widget)
    requires Truthy(path)
    ensures var r := SharedSelect(path, w);
      && Pushes(r.effects) <= 1 && Checkouts(r.effects) <= 1
      && (!w.present ==> r == Click([Alert(FlowNotReadyMessage)], false))
      && (w.present && w.failing == {} ==>
            r == Click([Sent(Reset), Sent(Push(ToStr(path), 1)), Sent(Checkout)], false))
      && (r.threw <==> w.present && w.failing * {ResetKind, PushKind, CheckoutKind} != {})
  {
    var push := Push(ToStr(path), 1);
    var r := SharedSelect(path, w);
    assert KindOf(Reset) == ResetKind && KindOf(push) == PushKind && KindOf(Checkout) == CheckoutKind;
    if !w.present {
      CountsOne(Alert(FlowNotReadyMessage));
    } else if Fails(w, Reset) {
      CountsOne(Sent(Reset));
      assert ResetKind in w.failing * {ResetKind, PushKind, CheckoutKind};
    } else {
      CountsOne(Sent(Reset));
      CountsOne(Sent(push));
      CountsAppend([Sent(Reset)], [Sent(push)]);
      assert [Sent(Reset)] + [Sent(push)] == [Sent(Reset), Sent(push)];
      if Fails(w, push) {
        assert PushKind in w.failing * {ResetKind, PushKind, CheckoutKind};
      } else {
        CountsOne(Sent(Checkout));
        CountsAppend([Sent(Reset), Sent(push)], [Sent(Checkout)]);
        assert [Sent(Reset), Sent(push)] + [Sent(Checkout)] == [Sent(Reset), Sent(push), Sent(Checkout)];
        assert ResetKind !in w.failing && PushKind !in w.failing;
        if CheckoutKind in w.failing {
          assert CheckoutKind in w.failing * {ResetKind, PushKind, CheckoutKind};
        } else {
          assert w.failing * {ResetKind, PushKind, CheckoutKind} == {};
        }
      }
    }
  }
}
