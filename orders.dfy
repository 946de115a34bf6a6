/**
 * `OrdersPage.submit` of the Atlas dashboard: the order form is only
 * validated, never sent. An empty (after stripping) quantity, or an empty
 * price on a Limit order, raises an error box; anything else raises a
 * success box describing the order. The quantity is never checked to be a
 * number.
 */
module Orders {
  import opened Text

  /** What the form's widgets hold when the button is pressed. */
  datatype OrderForm = OrderForm(side: string, orderType: string, qty: string, price: string)

  /** A `CTkMessagebox`. */
  datatype Popup = Popup(title: string, message: string, icon: string)

  const QtyMissing := "Please enter quantity."
  const PriceMissing := "Please enter price for Limit orders."

  function Failure(message: string): Popup
  {
    Popup("Error", message, "cancel")
  }

  /** The success text, given what is shown after `Price: ` on a Limit order. */
  function Confirmation(f: OrderForm, shownPrice: string): string
  {
    var base := f.side + " order placed!\nQuantity: " + Strip(f.qty);
    if f.orderType == "Limit" then base + "\nPrice: " + shownPrice else base
  }

  /**
   * `submit` as written: the Limit line formats `self.price`, the entry
   * widget itself, whose text is its Tk path name (`widgetName`), not the
   * price typed into it.
   */
  function SubmitAsWritten(f: OrderForm, widgetName: string): (p: Popup)
    ensures p.title == "Success" <==> Strip(f.qty) != "" && (f.orderType != "Limit" || Strip(f.price) != "")
  {
    if Strip(f.qty) == "" then Failure(QtyMissing)
    else if f.orderType == "Limit" && Strip(f.price) == "" then Failure(PriceMissing)
    else Popup("Success", Confirmation(f, widgetName), "check")
  }

  /** `submit` with the Limit line showing the stripped price, as the local `price` it just validated. */
  function Submit(f: OrderForm): (p: Popup)
    ensures p.title == "Success" <==> Strip(f.qty) != "" && (f.orderType != "Limit" || Strip(f.price) != "")
  {
    if Strip(f.qty) == "" then Failure(QtyMissing)
    else if f.orderType == "Limit" && Strip(f.price) == "" then Failure(PriceMissing)
    else Popup("Success", Confirmation(f, Strip(f.price)), "check")
  }

  /** The quantity check comes first and decides on its own. */
  lemma QuantityRequired(f: OrderForm)
    ensures Submit(f) == Failure(QtyMissing) <==> Strip(f.qty) == ""
  {
    if Strip(f.qty) != "" {
      var p := Submit(f);
      if f.orderType == "Limit" && Strip(f.price) == "" {
        assert p.message == PriceMissing;
        assert PriceMissing[13] != QtyMissing[13];
      } else {
        assert p.title == "Success";
      }
    }
  }

  /** With a quantity present, a Limit order without a price is the only other error. */
  lemma LimitPriceRequired(f: OrderForm)
    requires Strip(f.qty) != ""
    ensures Submit(f) == Failure(PriceMissing) <==> f.orderType == "Limit" && Strip(f.price) == ""
  {
  }

  /** On success the message names the side, the stripped quantity and, for a Limit order, the stripped price. */
  lemma SuccessMessage(f: OrderForm)
    requires Submit(f).title == "Success"
    ensures Submit(f).icon == "check"
    ensures f.orderType != "Limit" ==> Submit(f).message == f.side + " order placed!\nQuantity: " + Strip(f.qty)
    ensures f.orderType == "Limit" ==>
      Submit(f).message == f.side + " order placed!\nQuantity: " + Strip(f.qty) + "\nPrice: " + Strip(f.price)
  {
  }

  /** Any non-blank text passes as a quantity. */
  lemma QuantityNotNumeric()
    ensures Submit(OrderForm("BUY", "Market", "abc", "")).title == "Success"
  {
    assert Strip("abc") == "abc" by {
      assert !IsSpace('a') && !IsSpace('c');
    }
  }

  /** The two definitions differ exactly on successful Limit orders whose widget name is not the price. */
  lemma WidgetNameShown(f: OrderForm, widgetName: string)
    ensures SubmitAsWritten(f, widgetName) != Submit(f) <==>
      && Submit(f).title == "Success" && f.orderType == "Limit" && widgetName != Strip(f.price)
  {
    if Submit(f).title == "Success" && f.orderType == "Limit" {
      var base := f.side + " order placed!\nQuantity: " + Strip(f.qty) + "\nPrice: ";
      assert Confirmation(f, widgetName) == base + widgetName;
      assert Confirmation(f, Strip(f.price)) == base + Strip(f.price);
      if widgetName != Strip(f.price) {
        assert (base + widgetName)[|base|..] == widgetName;
        assert (base + Strip(f.price))[|base|..] == Strip(f.price);
      }
    }
  }

  /** A concrete Limit order: the corrected box reports the price 100, the box as written does not. */
  lemma WidgetNameExample()
    ensures var f := OrderForm("BUY", "Limit", "1", "100");
      && Submit(f).message == "BUY" + " order placed!\nQuantity: " + "1" + "\nPrice: " + "100"
      && SubmitAsWritten(f, ".!ctkentry2").title == "Success"
      && SubmitAsWritten(f, ".!ctkentry2").message != Submit(f).message
  {
    assert Strip("1") == "1" by {
      assert !IsSpace('1');
    }
    assert Strip("100") == "100" by {
      assert !IsSpace('1') && !IsSpace('0');
    }
    var f := OrderForm("BUY", "Limit", "1", "100");
    WidgetNameShown(f, ".!ctkentry2");
  }
}
