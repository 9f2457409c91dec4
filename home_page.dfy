/**
 * The state the `Home` component of nextjs-client/src/app/page.tsx keeps for itself:
 * the current page, the text box, the latest widget message and the map of buttons
 * shown as loading. Calls into the orchestrator client are recorded, in order, in
 * `outbox`; the chat history is owned by that client and reaches this state only
 * through `ChatHistoryChanged`, which also runs the effect that reacts to it.
 */
module HomePage {
  import opened Wrappers
  import opened JsonData
  import opened WidgetRender

  datatype Page = Welcome | Home | OrderConfirmation

  /** `startAgent()`, `sendMessage(text)` and `sendAction(name, params)` of the orchestrator client. */
  datatype Outbound =
    | StartAgent
    | SendMessage(text: string)
    | SendAction(name: string, params: map<string, Json>)

  function DigitChar(d: nat): char
    requires d < 10
  {
    ('0' as int + d) as char
  }

  /** The decimal text of a number, as a template literal prints it. */
  function NatToString(n: nat): (s: string)
    ensures 0 < |s|
    ensures forall i :: 0 <= i < |s| ==> '0' <= s[i] <= '9'
    ensures n < 10 <==> |s| == 1
  {
    if n < 10 then [DigitChar(n)] else NatToString(n / 10) + [DigitChar(n % 10)]
  }

  function IntToString(i: int): string {
    if i < 0 then "-" + NatToString(-i) else NatToString(i)
  }

  /** Different numbers print differently. */
  lemma {:induction false} NatToStringInjective(a: nat, b: nat)
    requires NatToString(a) == NatToString(b)
    ensures a == b
  {
    if 10 <= a && 10 <= b {
      var sa, sb := NatToString(a), NatToString(b);
      assert sa[|sa| - 1] == sb[|sb| - 1];
      assert a % 10 == b % 10;
      assert sa[..|sa| - 1] == NatToString(a / 10);
      assert sb[..|sb| - 1] == NatToString(b / 10);
      NatToStringInjective(a / 10, b / 10);
    }
  }

  /** Only a negative number's text starts with a minus sign. */
  lemma SignChar(i: int)
    ensures 0 < |IntToString(i)| && (IntToString(i)[0] == '-' <==> i < 0)
  {
    if 0 <= i {
      assert IntToString(i)[0] == NatToString(i)[0];
    }
  }

  lemma IntToStringInjective(a: int, b: int)
    requires IntToString(a) == IntToString(b)
    ensures a == b
  {
    SignChar(a);
    SignChar(b);
    var sa, sb := IntToString(a), IntToString(b);
    if a < 0 && b < 0 {
      assert sa[1..] == NatToString(-a) && sb[1..] == NatToString(-b);
      NatToStringInjective(-a, -b);
    } else if 0 <= a && 0 <= b {
      NatToStringInjective(a, b);
    }
  }

  /** The four click handlers that go through `handleButtonClick`. */
  datatype CartAction =
    | Details(productId: int)
    | Add(variantId: int, quantity: int)
    | Delete(variantId: int)
    | Submit

  /** The `buttonId` each handler locks. */
  function LockKey(a: CartAction): string {
    match a
    case Details(id) => "details-" + IntToString(id)
    case Add(id, _) => "add-" + IntToString(id)
    case Delete(id) => "delete-" + IntToString(id)
    case Submit => "submit-order"
  }

  /** The request each handler's action sends. */
  function Request(a: CartAction): Outbound {
    match a
    case Details(id) => SendAction("get_product_details", map["product_id" := Num(id)])
    case Add(id, q) => SendAction("add_item_to_cart", map["variant_id" := Num(id), "quantity" := Num(q)])
    case Delete(id) => SendAction("delete_item_from_cart", map["variant_id" := Num(id)])
    case Submit => SendAction("submit_cart_for_order", map[])
  }

  /** Two actions are on the same button when they name the same product or variant; quantity does not matter. */
  predicate SameButton(a: CartAction, b: CartAction) {
    match (a, b)
    case (Details(x), Details(y)) => x == y
    case (Add(x, _), Add(y, _)) => x == y
    case (Delete(x), Delete(y)) => x == y
    case (Submit, Submit) => true
    case _ => false
  }

  lemma PrefixedKeys(p: string, x: int, q: string, y: int)
    requires p + IntToString(x) == q + IntToString(y)
    requires |p| <= |q| && q[..|p|] == p
    ensures p == q ==> x == y
  {
    if p == q {
      var k := p + IntToString(x);
      assert k[|p|..] == IntToString(x);
      assert (q + IntToString(y))[|p|..] == IntToString(y);
      IntToStringInjective(x, y);
    }
  }

  /** The first and third characters of a key already tell the four handlers apart. */
  lemma KeyHead(a: CartAction)
    ensures 3 < |LockKey(a)|
    ensures LockKey(a)[0] == (if a.Details? || a.Delete? then 'd' else if a.Add? then 'a' else 's')
    ensures LockKey(a)[2] == (if a.Details? then 't' else if a.Delete? then 'l' else if a.Add? then 'd' else 'b')
  {
    SignChar(match a case Details(id) => id case Add(id, _) => id case Delete(id) => id case Submit => 0);
  }

  /** Lock keys tell buttons apart: two handlers share a key exactly when they are on the same button. */
  lemma LockKeysIdentifyButtons(a: CartAction, b: CartAction)
    ensures LockKey(a) == LockKey(b) <==> SameButton(a, b)
  {
    KeyHead(a);
    KeyHead(b);
    var ka, kb := LockKey(a), LockKey(b);
    if SameButton(a, b) {
    } else if ka == kb {
      match (a, b)
      case (Details(x), Details(y)) => PrefixedKeys("details-", x, "details-", y);
      case (Add(x, _), Add(y, _)) => PrefixedKeys("add-", x, "add-", y);
      case (Delete(x), Delete(y)) => PrefixedKeys("delete-", x, "delete-", y);
      case (Submit, Submit) =>
      case _ =>
    }
  }

  class HomeState {
    var currentPage: Page
    var message: string
    var latestWidget: Option<Json>
    var loadingButtons: map<string, bool>
    var chatHistory: seq<ChatEntry>
    var outbox: seq<Outbound>

    /**
     * Nothing in the component moves to the order-confirmation page; a lock is only ever
     * set to true; and after every change of the history the stored widget message is
     * that of its latest widget entry, when it has one.
     */
    ghost predicate Valid()
      reads this
    {
      && currentPage != OrderConfirmation
      && (forall id :: id in loadingButtons ==> loadingButtons[id])
      && (var i := LastWidgetIndex(chatHistory); i.Some? ==> latestWidget == chatHistory[i.value].message)
    }

    constructor ()
      ensures Valid()
      ensures currentPage == Welcome && message == "" && latestWidget == None
      ensures loadingButtons == map[] && chatHistory == [] && outbox == []
    {
      currentPage := Welcome;
      message := "";
      latestWidget := None;
      loadingButtons := map[];
      chatHistory := [];
      outbox := [];
    }

    /** `handleStartClick`: start the agent, then show the home page. */
    method StartClick()
      requires Valid()
      modifies this`outbox, this`currentPage
      ensures Valid()
      ensures outbox == old(outbox) + [StartAgent] && currentPage == Home
    {
      outbox := outbox + [StartAgent];
      currentPage := Home;
    }

    /** `handleMessageChange`: the text box's new content. */
    method ChangeMessage(text: string)
      requires Valid()
      modifies this`message
      ensures Valid() && message == text
    {
      message := text;
    }

    /** `handleSendMessage`: send what is typed, then clear the text box. */
    method SendTypedMessage()
      requires Valid()
      modifies this`outbox, this`message
      ensures Valid()
      ensures outbox == old(outbox) + [SendMessage(old(message))] && message == ""
    {
      outbox := outbox + [SendMessage(message)];
      message := "";
    }

    /**
     * `handleButtonClick`: mark the button as loading, then run its action. The lock is
     * never consulted, so a second click on a loading button sends its request again.
     */
    method ButtonClick(buttonId: string, action: Outbound)
      requires Valid()
      modifies this`loadingButtons, this`outbox
      ensures Valid()
      ensures loadingButtons == old(loadingButtons)[buttonId := true]
      ensures outbox == old(outbox) + [action]
    {
      loadingButtons := loadingButtons[buttonId := true];
      outbox := outbox + [action];
    }

    /** `showDetails`. */
    method ShowDetails(productId: int)
      requires Valid()
      modifies this`loadingButtons, this`outbox
      ensures Valid()
      ensures loadingButtons == old(loadingButtons)["details-" + IntToString(productId) := true]
      ensures outbox == old(outbox) + [SendAction("get_product_details", map["product_id" := Num(productId)])]
    {
      ButtonClick(LockKey(Details(productId)), Request(Details(productId)));
    }

    /** `addToCart`. */
    method AddToCart(variantId: int, quantity: int)
      requires Valid()
      modifies this`loadingButtons, this`outbox
      ensures Valid()
      ensures loadingButtons == old(loadingButtons)["add-" + IntToString(variantId) := true]
      ensures outbox == old(outbox) + [SendAction("add_item_to_cart", map["variant_id" := Num(variantId), "quantity" := Num(quantity)])]
    {
      ButtonClick(LockKey(Add(variantId, quantity)), Request(Add(variantId, quantity)));
    }

    /** `deleteFromCart`. */
    method DeleteFromCart(variantId: int)
      requires Valid()
      modifies this`loadingButtons, this`outbox
      ensures Valid()
      ensures loadingButtons == old(loadingButtons)["delete-" + IntToString(variantId) := true]
      ensures outbox == old(outbox) + [SendAction("delete_item_from_cart", map["variant_id" := Num(variantId)])]
    {
      ButtonClick(LockKey(Delete(variantId)), Request(Delete(variantId)));
    }

    /** `submitOrder`. */
    method SubmitOrder()
      requires Valid()
      modifies this`loadingButtons, this`outbox
      ensures Valid()
      ensures loadingButtons == old(loadingButtons)["submit-order" := true]
      ensures outbox == old(outbox) + [SendAction("submit_cart_for_order", map[])]
    {
      ButtonClick(LockKey(Submit), Request(Submit));
    }

    /**
     * A new chat history arrives and the effect keyed on it runs: the latest widget message
     * is kept only when the history has a widget entry, and every lock is cleared either way.
     */
    method ChatHistoryChanged(history: seq<ChatEntry>)
      requires Valid()
      modifies this`chatHistory, this`latestWidget, this`loadingButtons
      ensures Valid()
      ensures chatHistory == history && loadingButtons == map[]
      ensures latestWidget == match LastWidgetIndex(history)
                              case Some(i) => history[i].message
                              case None => old(latestWidget)
    {
      chatHistory := history;
      var last := LastWidgetIndex(history);
      if last.Some? {
        latestWidget := history[last.value].message;
      }
      loadingButtons := map[];
    }
  }

  /**
   * The dispatch scenario: adding variant 7 to the cart locks "add-7" at once, a second
   * click sends the request again, and the next widget entry clears every lock.
   */
  method AddToCartScenario() returns (lockedAfterClick: bool, requestsSent: nat, lockedAfterWidget: bool)
    ensures lockedAfterClick && requestsSent == 2 && !lockedAfterWidget
  {
    var home := new HomeState();
    home.StartClick();
    home.AddToCart(7, 1);
    assert LockKey(Add(7, 1)) == "add-7";
    lockedAfterClick := "add-7" in home.loadingButtons && home.loadingButtons["add-7"];
    home.AddToCart(7, 1);
    requestsSent := |home.outbox| - 1;
    var widget := ChatEntry(WidgetKind, Some(Obj(map["details" := Str("[]")])));
    home.ChatHistoryChanged(home.chatHistory + [widget]);
    lockedAfterWidget := "add-7" in home.loadingButtons;
  }
}
