/** The payment screen: the price breakdown of the item being rented and
    the "open chat" action that tells the lender the payment is done.
    The item arrives as a navigation parameter; its fields that are
    missing are written "" here. */
module Payment {
  import opened Text
  import opened Chat
  import ChatScreen

  const ServiceFee: nat := 25
  const SecurityDeposit: nat := 500

  /** The fields of the item record the screen reads. */
  datatype Item = Item(title: string, price: string, lender: string)

  /** `parseInt(priceString.replace(/[^0-9]/g, '') || '0')`, where the
      price string is `'0'` for an item without a price. */
  function BasePrice(price: string): (r: nat)
    ensures Digits(price) == "" ==> r == 0
    ensures r == DecimalValue(Digits(price))
  {
    assert Digits("0") == "0" && DecimalValue("0") == 0;
    DigitsValue(if price == "" then "0" else price)
  }

  /** What the renter pays now: base price plus both fixed fees. */
  function Total(price: string): (r: nat)
    ensures r >= ServiceFee + SecurityDeposit
    ensures r - (ServiceFee + SecurityDeposit) == BasePrice(price)
  {
    BasePrice(price) + ServiceFee + SecurityDeposit
  }

  /** Characters other than digits play no part in the base price. */
  lemma {:induction false} BasePriceIgnoresNonDigits(a: string, c: char, b: string)
    requires !IsDigit(c)
    ensures BasePrice(a + [c] + b) == BasePrice(a + b)
  {
    DigitsConcat(a + [c], b);
    DigitsConcat(a, [c]);
    DigitsConcat(a, b);
    assert Digits([c]) == "";
    assert Digits(a) + "" == Digits(a);
  }

  /** A price written `₹<n>` (as the details screen writes it) yields `n`. */
  lemma BasePriceOfRupeeAmount(n: nat)
    ensures BasePrice([Rupee] + Decimal(n)) == n
  {
    RupeeAmountRoundTrip(n);
  }

  /** A per-day listing price: the unit suffix contributes nothing. */
  lemma BasePriceOfDailyRate(n: nat)
    ensures BasePrice([Rupee] + Decimal(n) + "/day") == n
  {
    DigitsConcat([Rupee] + Decimal(n), "/day");
    assert Digits("/day") == "";
    assert Digits([Rupee] + Decimal(n)) + "" == Digits([Rupee] + Decimal(n));
    RupeeAmountRoundTrip(n);
  }

  /** `item.lender || 'Verified User'`. */
  function LenderOf(item: Item): (r: string)
    ensures r != ""
    ensures item.lender != "" ==> r == item.lender
    ensures item.lender == "" ==> r == "Verified User"
  {
    if item.lender != "" then item.lender else "Verified User"
  }

  /** `item.title || 'Item'`. */
  function TitleOf(item: Item): (r: string)
    ensures r != ""
    ensures item.title != "" ==> r == item.title
    ensures item.title == "" ==> r == "Item"
  {
    if item.title != "" then item.title else "Item"
  }

  /** The message open-chat stores for the item. */
  function PaidMessage(item: Item, stamp: string, time: string): (m: Message)
    ensures m.sender == Me && m.text == ChatScreen.AutoText(TitleOf(item))
  {
    Message(stamp, "Hi! I just completed the payment for \"" + TitleOf(item) + "\". When can I pick it up?", Me, time)
  }

  /** The store after open-chat: one message from the user in the lender's
      session, with exactly the text the chat screen looks for. */
  lemma {:induction false} OpenChatAppendsOnce(vs: seq<SessionView>, item: Item, stamp: string, time: string)
    ensures var r := WithMessage(vs, LenderOf(item), PaidMessage(item, stamp, time));
      && MessagesOf(r, LenderOf(item)) == MessagesOf(vs, LenderOf(item)) + [PaidMessage(item, stamp, time)]
      && r[0].name == LenderOf(item)
      && CountText(r, LenderOf(item), ChatScreen.AutoText(TitleOf(item)))
         == CountText(vs, LenderOf(item), ChatScreen.AutoText(TitleOf(item))) + 1
  {
    var m := PaidMessage(item, stamp, time);
    WithMessageAppends(vs, LenderOf(item), m);
    WithMessageShape(vs, LenderOf(item), m);
    WithMessageCountText(vs, LenderOf(item), m);
  }

  /** Paying, opening the chat from the receipt, and the chat screen's
      auto-message effect: the effect finds the message open-chat stored
      and adds nothing, so the message is stored exactly one time more than
      before (once, when it was not there). */
  lemma {:induction false} PayThenChatStoresOnce(vs: seq<SessionView>, item: Item,
                                                stamp: string, time: string, stamp2: string, time2: string)
    ensures var lender, title := LenderOf(item), TitleOf(item);
      var paid := WithMessage(vs, lender, PaidMessage(item, stamp, time));
      var reopened := WithSession(paid, ChatScreen.DisplayName(lender, ""));
      var shown := ChatScreen.AfterAutoMessage(reopened, lender, title, stamp2, time2);
      && shown == paid
      && CountText(shown, lender, ChatScreen.AutoText(title)) == CountText(vs, lender, ChatScreen.AutoText(title)) + 1
  {
    var lender, title := LenderOf(item), TitleOf(item);
    var paid := WithMessage(vs, lender, PaidMessage(item, stamp, time));
    OpenChatAppendsOnce(vs, item, stamp, time);
    WithSessionCases(paid, lender);
    ChatScreen.AlreadySentIffCounted(MessagesOf(paid, lender), ChatScreen.AutoText(title));
  }

  /** `handleOpenChat`: stores the message in the lender's session and
      returns the lender name and item title the chat screen is opened with. */
  method HandleOpenChat(chats: ChatStore, item: Item, stamp: string, time: string)
    returns (lenderName: string, itemTitle: string)
    requires chats.Valid()
    modifies chats.Repr
    ensures chats.Valid()
    ensures lenderName == LenderOf(item) && itemTitle == TitleOf(item)
    ensures chats.Snapshot() == WithMessage(old(chats.Snapshot()), lenderName, PaidMessage(item, stamp, time))
    ensures fresh(chats.Repr - old(chats.Repr))
  {
    lenderName := if item.lender != "" then item.lender else "Verified User";
    itemTitle := if item.title != "" then item.title else "Item";
    // the same text the chat screen's effect composes from the title
    var autoMsg := ChatScreen.AutoText(itemTitle);
    chats.AddMessage(lenderName, autoMsg, Me, stamp, time);
  }

  /** The store as open-chat leaves it is a fixed point of what the chat
      screen then does: the lender's session exists, and the effect finds
      the message already there. */
  lemma PaidStoreIsStable(vs: seq<SessionView>, item: Item, stamp: string, time: string, stamp2: string, time2: string)
    ensures var paid := WithMessage(vs, LenderOf(item), PaidMessage(item, stamp, time));
      && WithSession(paid, ChatScreen.DisplayName(LenderOf(item), "")) == paid
      && ChatScreen.AfterAutoMessage(paid, LenderOf(item), TitleOf(item), stamp2, time2) == paid
  {
    PayThenChatStoresOnce(vs, item, stamp, time, stamp2, time2);
  }

  /** The receipt's chat button followed by the chat screen it opens: the
      store ends as open-chat left it, with the message stored once. */
  method PayThenChat(chats: ChatStore, item: Item, stamp: string, time: string, stamp2: string, time2: string)
    returns (screen: ChatScreen.Screen)
    requires chats.Valid()
    modifies chats.Repr
    ensures screen.Valid() && screen.store == chats
    ensures chats.Snapshot() == WithMessage(old(chats.Snapshot()), LenderOf(item), PaidMessage(item, stamp, time))
  {
    PaidStoreIsStable(chats.Snapshot(), item, stamp, time, stamp2, time2);
    var lenderName, itemTitle := HandleOpenChat(chats, item, stamp, time);
    screen := ChatScreen.Mount(chats, lenderName, "", itemTitle, stamp2, time2);
  }
}
