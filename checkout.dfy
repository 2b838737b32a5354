// The checkout page (app/checkout/page.tsx): it loads the cart on mount,
// leaves for the catalogue when the cart is empty, and turns the cart, the
// order id and the optional contact fields into the text of an order e-mail.
module Checkout {
  import opened Common
  import opened Text
  import opened Products
  import opened Cart
  import CheckoutSummary

  /** The store's fixed payment and pickup details (their values live outside this model). */
  datatype StoreInfo = StoreInfo(storeEmail: string, pickupLocation: string, securityQuestion: string, securityAnswer: string)

  /** One `body +=` of generateEmailBody, by what it writes. */
  datatype Line =
    | OrderDetails
    | ItemTitle(title: string)
    | ItemSku(sku: string)
    | ItemQuantity(quantity: int, priceCents: int, lineCents: int)
    | Rule
    | SubtotalLine(totalCents: int)
    | CustomerHeading
    | NameLine(name: string)
    | EmailLine(email: string)
    | PhoneLine(phone: string)
    | SectionEnd
    | PickupLine(location: string)
    | PaymentHeading
    | TransferLine(storeEmail: string)
    | QuestionLine(question: string)
    | AnswerLine(answer: string)
    | AmountLine(totalCents: int)
    | MemoLine(orderId: string)

  /** The text each line appends. */
  function Render(line: Line): string
  {
    match line
    case OrderDetails => "Order Details:\n\n"
    case ItemTitle(t) => t + "\n"
    case ItemSku(s) => "SKU: " + s + "\n"
    case ItemQuantity(q, p, l) =>
      "Quantity: " + IntToString(q) + " \U{00D7} $" + FormatCents(p) + " = $" + FormatCents(l) + " CAD\n\n"
    case Rule => "---\n"
    case SubtotalLine(t) => "Subtotal (Grand Total): $" + FormatCents(t) + " CAD\n\n"
    case CustomerHeading => "Customer Information:\n"
    case NameLine(n) => "Name: " + n + "\n"
    case EmailLine(e) => "Email: " + e + "\n"
    case PhoneLine(p) => "Phone: " + p + "\n"
    case SectionEnd => "\n"
    case PickupLine(l) => "Pickup Location: " + l + "\n\n"
    case PaymentHeading => "Payment Instructions:\n"
    case TransferLine(e) => "Please send Interac e-Transfer to: " + e + "\n"
    case QuestionLine(q) => "Security Question: " + q + "\n"
    case AnswerLine(a) => "Answer: " + a + "\n"
    case AmountLine(t) => "Amount: $" + FormatCents(t) + " CAD\n"
    case MemoLine(id) => "Memo: " + Subject(id)
  }

  /** The e-mail subject, and the memo the payer is asked to quote. */
  function Subject(orderId: string): (s: string)
    ensures |s| == 6 + |orderId| && s[..6] == "Order " && s[6..] == orderId
  {
    "Order " + orderId
  }

  /** The three lines of one item: title, SKU, and quantity × unit price = line total. */
  function ItemLines(item: CartItem): (lines: seq<Line>)
    ensures |lines| == 3
  {
    [ItemTitle(item.product.title), ItemSku(item.product.sku),
     ItemQuantity(item.quantity, item.product.priceCents, LineTotal(item))]
  }

  /** The lines of all items, in cart order. */
  function ItemsLines(cart: seq<CartItem>): seq<Line>
  {
    FlatMap(cart, ItemLines)
  }

  /** The customer section: a heading, a line per non-empty field, a blank line; or nothing at all. */
  function CustomerLines(name: string, email: string, phone: string): seq<Line>
  {
    if name != "" || email != "" || phone != "" then
      [CustomerHeading] + OptionalLine(name, NameLine(name)) + OptionalLine(email, EmailLine(email)) +
      OptionalLine(phone, PhoneLine(phone)) + [SectionEnd]
    else []
  }

  /** A contact line is written only when its field is non-empty. */
  function OptionalLine(field: string, line: Line): seq<Line>
  {
    if field != "" then [line] else []
  }

  /** The fixed closing lines: pickup, payment details, the amount again and the memo. */
  function PaymentLines(total: int, info: StoreInfo, orderId: string): seq<Line>
  {
    [PickupLine(info.pickupLocation), PaymentHeading, TransferLine(info.storeEmail),
     QuestionLine(info.securityQuestion), AnswerLine(info.securityAnswer),
     AmountLine(total), MemoLine(orderId)]
  }

  /** Everything after the items: the rule, the subtotal, the customer section and the payment lines. */
  function ClosingLines(total: int, name: string, email: string, phone: string, info: StoreInfo, orderId: string): seq<Line>
  {
    [Rule, SubtotalLine(total)] + CustomerLines(name, email, phone) + PaymentLines(total, info, orderId)
  }

  /** Every `body +=` of generateEmailBody, in the order they run. */
  function EmailLines(cart: seq<CartItem>, orderId: string, name: string, email: string, phone: string, info: StoreInfo): seq<Line>
  {
    [OrderDetails] + ItemsLines(cart) + ClosingLines(Total(cart), name, email, phone, info, orderId)
  }

  /** generateEmailBody as a function of the cart, the order id, the contact fields and the store details. */
  function EmailBody(cart: seq<CartItem>, orderId: string, name: string, email: string, phone: string, info: StoreInfo): string
  {
    ConcatWith(EmailLines(cart, orderId, name, email, phone, info), Render)
  }

  // ---------------------------------------------------------------------------
  // Properties of the e-mail

  /** Item i of the cart owns lines 3i+1 .. 3i+3 of the e-mail, right after the heading: one block per item, in cart order. */
  lemma ItemBlockAt(cart: seq<CartItem>, orderId: string, name: string, email: string, phone: string, info: StoreInfo, i: nat)
    requires i < |cart|
    ensures var lines := EmailLines(cart, orderId, name, email, phone, info);
      lines[0] == OrderDetails && 3 * i + 4 <= |lines| && lines[3 * i + 1..3 * i + 4] == ItemLines(cart[i])
  {
    var items := ItemsLines(cart);
    var closing := ClosingLines(Total(cart), name, email, phone, info, orderId);
    FlatMapBlocks(cart, ItemLines, 3, i);
    SliceOfFront([OrderDetails] + items, closing, 3 * i + 1, 3 * i + 4);
    SliceOfBack([OrderDetails], items, 3 * i, 3 * i + 3);
  }

  /** After the items come the rule and the subtotal, and the amount line near the end repeats that same total. */
  lemma TotalsAfterItems(cart: seq<CartItem>, orderId: string, name: string, email: string, phone: string, info: StoreInfo)
    ensures var lines, k := EmailLines(cart, orderId, name, email, phone, info), 3 * |cart|;
      k + 3 <= |lines| && lines[k + 1] == Rule && lines[k + 2] == SubtotalLine(Total(cart)) &&
      lines[|lines| - 2] == AmountLine(Total(cart)) && lines[|lines| - 1] == MemoLine(orderId)
  {
    FlatMapLength(cart, ItemLines, 3);
  }

  /** The customer section is there exactly when at least one contact field is non-empty, as lines and as text. */
  lemma CustomerSectionPresence(name: string, email: string, phone: string)
    ensures CustomerLines(name, email, phone) != [] <==> name != "" || email != "" || phone != ""
    ensures ConcatWith(CustomerLines(name, email, phone), Render) != "" <==> name != "" || email != "" || phone != ""
  {
    var lines := CustomerLines(name, email, phone);
    ConcatWithEmptyIff(lines, Render);
    if lines != [] {
      assert Render(lines[0]) != "";
    }
  }

  /** The section holds a field's line exactly when that field is non-empty. */
  lemma CustomerSectionFields(name: string, email: string, phone: string)
    ensures NameLine(name) in CustomerLines(name, email, phone) <==> name != ""
    ensures EmailLine(email) in CustomerLines(name, email, phone) <==> email != ""
    ensures PhoneLine(phone) in CustomerLines(name, email, phone) <==> phone != ""
  {
  }

  /** The body starts with "Order Details:" and then the item blocks, in cart order. */
  lemma BodyStartsWithItems(cart: seq<CartItem>, orderId: string, name: string, email: string, phone: string, info: StoreInfo)
    ensures var body, items := EmailBody(cart, orderId, name, email, phone, info),
                               "Order Details:\n\n" + ConcatWith(ItemsLines(cart), Render);
      |items| <= |body| && body[..|items|] == items
  {
    var front := [OrderDetails] + ItemsLines(cart);
    var closing := ClosingLines(Total(cart), name, email, phone, info, orderId);
    ConcatWithAppend(front, closing, Render);
    ConcatWithAppend([OrderDetails], ItemsLines(cart), Render);
    assert ConcatWith([OrderDetails], Render) == Render(OrderDetails) by {
      assert [OrderDetails][..0] == [];
    }
    var text, rest := ConcatWith(front, Render), ConcatWith(closing, Render);
    assert EmailBody(cart, orderId, name, email, phone, info) == text + rest;
    SliceOfFront(text, rest, 0, |text|);
    assert text[0..|text|] == text;
  }

  /** The body ends with "Memo: " and the very subject the e-mail is sent under. */
  lemma BodyEndsWithMemo(cart: seq<CartItem>, orderId: string, name: string, email: string, phone: string, info: StoreInfo)
    ensures var body, memo := EmailBody(cart, orderId, name, email, phone, info), "Memo: " + Subject(orderId);
      |memo| <= |body| && body[|body| - |memo|..] == memo
  {
    var lines := EmailLines(cart, orderId, name, email, phone, info);
    assert lines[|lines| - 1] == MemoLine(orderId);
  }

  /** The amount the e-mail asks for is the summary panel's total, and it reads back as getCartTotal. */
  lemma AmountMatchesSummary(cart: seq<CartItem>)
    ensures "$" + FormatCents(Total(cart)) + " CAD" == CheckoutSummary.TotalText(cart)
    ensures ParseCents(FormatCents(Total(cart))) == Some(Total(cart))
  {
    CheckoutSummary.SubtotalIsCartTotal(cart);
    FormatCentsRoundTrip(Total(cart));
  }

  // ---------------------------------------------------------------------------
  // The page

  class CheckoutPage {
    const info: StoreInfo
    var cart: seq<CartItem>
    var orderId: string
    var customerName: string
    var customerEmail: string
    var customerPhone: string
    /** The paths pushed onto the router, oldest first. */
    var route: seq<string>

    constructor (info: StoreInfo)
      ensures this.info == info && cart == [] && orderId == ""
      ensures customerName == "" && customerEmail == "" && customerPhone == "" && route == []
    {
      this.info := info;
      cart := [];
      orderId := "";
      customerName := "";
      customerEmail := "";
      customerPhone := "";
      route := [];
    }

    /** The page returns null while its cart is empty. */
    predicate RendersNothing()
      reads this
    {
      |cart| == 0
    }

    /** The mount effect: load the cart and a fresh order id; an empty cart sends the visitor to "/". */
    method Mount(store: CartStore, newOrderId: string)
      modifies this
      ensures cart == store.GetCart() && orderId == newOrderId
      ensures RendersNothing() ==> route == old(route) + ["/"]
      ensures !RendersNothing() ==> route == old(route)
      ensures customerName == old(customerName) && customerEmail == old(customerEmail) &&
              customerPhone == old(customerPhone)
    {
      var currentCart := store.GetCart();
      cart := currentCart;
      orderId := newOrderId;
      if |currentCart| == 0 {
        route := route + ["/"];
      }
    }

    /** `body += ...` for one line, keeping track of the lines appended so far. */
    static method Append(body: string, ghost lines: seq<Line>, line: Line) returns (body': string, ghost lines': seq<Line>)
      requires body == ConcatWith(lines, Render)
      ensures lines' == lines + [line] && body' == ConcatWith(lines', Render)
      ensures body' == body + Render(line)
    {
      body' := body + Render(line);
      lines' := lines + [line];
      assert lines'[..|lines'| - 1] == lines;
    }

    /** The item loop of generateEmailBody: title, SKU and quantity line for each item in turn. */
    static method AppendItems(body: string, ghost lines: seq<Line>, cart: seq<CartItem>) returns (body': string, ghost lines': seq<Line>)
      requires body == ConcatWith(lines, Render)
      ensures lines' == lines + ItemsLines(cart) && body' == ConcatWith(lines', Render)
      ensures body' == body + ConcatWith(ItemsLines(cart), Render)
    {
      body', lines' := body, lines;
      var i := 0;
      while i < |cart|
        invariant 0 <= i <= |cart|
        invariant lines' == lines + ItemsLines(cart[..i]) && body' == ConcatWith(lines', Render)
      {
        var item := cart[i];
        var lineTotal := item.product.priceCents * item.quantity;
        body', lines' := Append(body', lines', ItemTitle(item.product.title));
        body', lines' := Append(body', lines', ItemSku(item.product.sku));
        body', lines' := Append(body', lines', ItemQuantity(item.quantity, item.product.priceCents, lineTotal));
        Extended3(lines, ItemsLines(cart[..i]), ItemTitle(item.product.title), ItemSku(item.product.sku),
                  ItemQuantity(item.quantity, item.product.priceCents, lineTotal));
        assert cart[..i + 1][..i] == cart[..i];
        i := i + 1;
      }
      assert cart[..i] == cart;
      ConcatWithAppend(lines, ItemsLines(cart), Render);
    }

    /** Regrouping three single appends after a prefix. */
    static lemma Extended3<T>(lines: seq<T>, done: seq<T>, x: T, y: T, z: T)
      ensures lines + done + [x] + [y] + [z] == lines + (done + [x, y, z])
    {
    }

    /** Regrouping seven single appends after a prefix. */
    static lemma Extended7<T>(lines: seq<T>, a: T, b: T, c: T, d: T, e: T, f: T, g: T)
      ensures lines + [a] + [b] + [c] + [d] + [e] + [f] + [g] == lines + [a, b, c, d, e, f, g]
    {
    }

    /** One contact line, written only when its field is non-empty. */
    static method AppendOptional(body: string, ghost lines: seq<Line>, field: string, line: Line) returns (body': string, ghost lines': seq<Line>)
      requires body == ConcatWith(lines, Render)
      ensures lines' == lines + OptionalLine(field, line) && body' == ConcatWith(lines', Render)
      ensures body' == body + ConcatWith(OptionalLine(field, line), Render)
    {
      body', lines' := body, lines;
      if field != "" {
        body', lines' := Append(body, lines, line);
      }
      ConcatWithAppend(lines, OptionalLine(field, line), Render);
    }

    /** The optional customer section of generateEmailBody. */
    static method AppendCustomer(body: string, ghost lines: seq<Line>, name: string, email: string, phone: string)
      returns (body': string, ghost lines': seq<Line>)
      requires body == ConcatWith(lines, Render)
      ensures lines' == lines + CustomerLines(name, email, phone) && body' == ConcatWith(lines', Render)
      ensures body' == body + ConcatWith(CustomerLines(name, email, phone), Render)
    {
      body', lines' := body, lines;
      if name != "" || email != "" || phone != "" {
        ghost var part: seq<Line> := [CustomerHeading];
        body', lines' := Append(body', lines', CustomerHeading);
        body', lines' := AppendOptional(body', lines', name, NameLine(name));
        AppendAssoc(lines, part, OptionalLine(name, NameLine(name)));
        part := part + OptionalLine(name, NameLine(name));
        body', lines' := AppendOptional(body', lines', email, EmailLine(email));
        AppendAssoc(lines, part, OptionalLine(email, EmailLine(email)));
        part := part + OptionalLine(email, EmailLine(email));
        body', lines' := AppendOptional(body', lines', phone, PhoneLine(phone));
        AppendAssoc(lines, part, OptionalLine(phone, PhoneLine(phone)));
        part := part + OptionalLine(phone, PhoneLine(phone));
        body', lines' := Append(body', lines', SectionEnd);
        AppendAssoc(lines, part, [SectionEnd]);
      }
      ConcatWithAppend(lines, CustomerLines(name, email, phone), Render);
    }

    /** The closing lines of generateEmailBody: pickup, payment details, amount and memo. */
    static method AppendPayment(body: string, ghost lines: seq<Line>, total: int, info: StoreInfo, orderId: string)
      returns (body': string, ghost lines': seq<Line>)
      requires body == ConcatWith(lines, Render)
      ensures lines' == lines + PaymentLines(total, info, orderId) && body' == ConcatWith(lines', Render)
      ensures body' == body + ConcatWith(PaymentLines(total, info, orderId), Render)
    {
      body', lines' := Append(body, lines, PickupLine(info.pickupLocation));
      body', lines' := Append(body', lines', PaymentHeading);
      body', lines' := Append(body', lines', TransferLine(info.storeEmail));
      body', lines' := Append(body', lines', QuestionLine(info.securityQuestion));
      body', lines' := Append(body', lines', AnswerLine(info.securityAnswer));
      body', lines' := Append(body', lines', AmountLine(total));
      body', lines' := Append(body', lines', MemoLine(orderId));
      Extended7(lines, PickupLine(info.pickupLocation), PaymentHeading, TransferLine(info.storeEmail),
                QuestionLine(info.securityQuestion), AnswerLine(info.securityAnswer), AmountLine(total), MemoLine(orderId));
      ConcatWithAppend(lines, PaymentLines(total, info, orderId), Render);
    }

    /** generateEmailBody: the heading, three lines per cart item, the subtotal, the optional customer section and the payment lines. */
    method GenerateEmailBody() returns (body: string)
      ensures body == EmailBody(cart, orderId, customerName, customerEmail, customerPhone, info)
    {
      var total := Total(cart);
      ghost var lines: seq<Line> := [];
      body, lines := Append("", [], OrderDetails);
      assert lines == [OrderDetails];
      body, lines := AppendItems(body, lines, cart);
      ghost var head := lines;
      body, lines := Append(body, lines, Rule);
      body, lines := Append(body, lines, SubtotalLine(total));
      AppendAssoc(head, [Rule], [SubtotalLine(total)]);
      assert [Rule] + [SubtotalLine(total)] == [Rule, SubtotalLine(total)];
      ghost var tail := [Rule, SubtotalLine(total)];
      assert lines == head + tail;
      body, lines := AppendCustomer(body, lines, customerName, customerEmail, customerPhone);
      AppendAssoc(head, tail, CustomerLines(customerName, customerEmail, customerPhone));
      tail := tail + CustomerLines(customerName, customerEmail, customerPhone);
      assert lines == head + tail;
      body, lines := AppendPayment(body, lines, total, info, orderId);
      AppendAssoc(head, tail, PaymentLines(total, info, orderId));
      tail := tail + PaymentLines(total, info, orderId);
      assert tail == ClosingLines(total, customerName, customerEmail, customerPhone, info, orderId);
      assert lines == head + ClosingLines(total, customerName, customerEmail, customerPhone, info, orderId);
    }

    /** handlePlaceOrder up to the mailto hand-off: the subject and the body of the e-mail. */
    method PlaceOrder() returns (subject: string, body: string)
      ensures subject == Subject(orderId)
      ensures body == EmailBody(cart, orderId, customerName, customerEmail, customerPhone, info)
    {
      subject := "Order " + orderId;
      body := GenerateEmailBody();
    }
  }

  // ---------------------------------------------------------------------------
  // A worked order

  /**
   * Two MOLLE panels at 24.99 and one 16-grenade set at 49.99: three items, the two
   * item blocks in cart order with their SKUs and line totals 49.98 and 49.99, and a
   * subtotal of 99.97, whatever the order id, contact fields and store details.
   */
  lemma ExampleOrder(orderId: string, name: string, email: string, phone: string, info: StoreInfo)
    ensures var cart := [CartItem(Catalogue[0], 2), CartItem(Catalogue[3], 1)];
      var lines := EmailLines(cart, orderId, name, email, phone, info);
      ItemCount(cart) == 3 && Total(cart) == 9997 && |lines| >= 9 &&
      lines[1..7] == [ItemTitle(Catalogue[0].title), ItemSku(Catalogue[0].sku), ItemQuantity(2, 2499, 4998),
                      ItemTitle(Catalogue[3].title), ItemSku(Catalogue[3].sku), ItemQuantity(1, 4999, 4999)] &&
      lines[8] == SubtotalLine(9997) &&
      FormatCents(9997) == "99.97" && FormatCents(4998) == "49.98" && FormatCents(4999) == "49.99"
  {
    var cart := [CartItem(Catalogue[0], 2), CartItem(Catalogue[3], 1)];
    var lines := EmailLines(cart, orderId, name, email, phone, info);
    assert LineTotal(cart[0]) == 4998 && LineTotal(cart[1]) == 4999;
    assert cart[..1] == [cart[0]] && cart[..1][..0] == [];
    assert Total(cart[..1]) == 4998;
    assert ItemCount(cart[..1]) == 2;
    ItemBlockAt(cart, orderId, name, email, phone, info, 0);
    ItemBlockAt(cart, orderId, name, email, phone, info, 1);
    TotalsAfterItems(cart, orderId, name, email, phone, info);
    assert lines[1..7] == lines[1..4] + lines[4..7];
    FormatsOfExample();
  }

  lemma FormatsOfExample()
    ensures FormatCents(9997) == "99.97" && FormatCents(4998) == "49.98" && FormatCents(4999) == "49.99"
  {
    assert NatToString(9) == "9" && NatToString(4) == "4";
    assert NatToString(99) == "99";
    assert NatToString(49) == "49";
  }
}
