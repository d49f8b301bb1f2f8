/**
 * The order message handed to the messaging channel when an order is
 * confirmed: a header with the delivery details, a map line when a location
 * was captured, one line per basket line in basket order, and the total.
 */
module OrderMessage {
  import opened Domain
  import opened Text
  import opened Basket
  import opened Seqs

  function Header(info: CustomerInfo): string {
    "*NEW ORDER - " + StoreName + "*\n\n👤 Name: " + info.name + "\n📞 Phone: " + info.phone
      + "\n📍 Address: " + info.address + "\n"
  }

  const MapPrefix: string := "🗺\U{FE0F} Map: https://www.google.com/maps?q="

  function MapLine(loc: Location): string {
    MapPrefix + IntToString(loc.lat) + "," + IntToString(loc.lng) + "\n"
  }

  /** The map line when a location was captured, nothing otherwise. */
  function MapSection(location: Option<Location>): string {
    match location
    case None => ""
    case Some(loc) => MapLine(loc)
  }

  const ItemsHeading: string := "\n📦 *Items:*\n"

  function ItemLine(item: CartItem): string {
    "- " + item.product.name + " (" + item.product.unit + ") x " + IntToString(item.quantity)
      + " = Rs. " + IntToString(LineAmount(item)) + "\n"
  }

  /** The item lines of a basket, one per line, in basket order. */
  function ItemLines(cart: seq<CartItem>): string {
    ConcatMap(cart, ItemLine)
  }

  const TotalLabel: string := "\n💰 *Total: Rs. "

  function TotalLine(total: int): string {
    TotalLabel + IntToString(total) + "*"
  }

  /** The whole message for the delivery details and basket at the moment of confirmation. */
  function Message(info: CustomerInfo, cart: seq<CartItem>): string {
    Header(info) + MapSection(info.location) + ItemsHeading + ItemLines(cart) + TotalLine(CartTotal(cart))
  }

  /** Line `k` of the basket contributes its item line right after the item lines of the lines before it. */
  lemma ItemLinesAt(cart: seq<CartItem>, k: nat)
    requires k < |cart|
    ensures ItemLines(cart) == ItemLines(cart[..k]) + ItemLine(cart[k]) + ItemLines(cart[k + 1..])
  {
    ConcatMapAt(cart, k, ItemLine);
  }

  /** One more basket line adds exactly its item line. */
  lemma ItemLinesSnoc(cart: seq<CartItem>, i: nat)
    requires i < |cart|
    ensures ItemLines(cart[..i + 1]) == ItemLines(cart[..i]) + ItemLine(cart[i])
  {
    assert cart[..i + 1] == cart[..i] + [cart[i]];
    ConcatMapSnoc(cart[..i], cart[i], ItemLine);
  }

  /** The `forEach` of `handleConfirmOrder`: one `+=` of an item line per basket line, in basket order. */
  method AppendItemLines(prefix: string, cart: seq<CartItem>) returns (msg: string)
    ensures msg == prefix + ItemLines(cart)
  {
    msg := prefix;
    var i := 0;
    while i < |cart|
      invariant 0 <= i <= |cart|
      invariant msg == prefix + ItemLines(cart[..i])
    {
      ItemLinesSnoc(cart, i);
      msg := msg + ItemLine(cart[i]);
      i := i + 1;
    }
    assert cart[..|cart|] == cart;
  }

  /**
   * `handleConfirmOrder`'s string building: the header, the map line if a
   * location is set, the heading, the item lines, then the total.
   */
  method BuildMessage(info: CustomerInfo, cart: seq<CartItem>) returns (msg: string)
    ensures msg == Message(info, cart)
  {
    var head := Header(info);
    if info.location.Some? {
      head := head + MapLine(info.location.value);
    }
    assert head == Header(info) + MapSection(info.location);
    msg := AppendItemLines(head + ItemsHeading, cart);
    msg := msg + TotalLine(CartTotal(cart));
  }

  /**
   * The map line is present exactly when a location is set: the message with
   * a location is the message without one, with the map line inserted right
   * after the delivery address.
   */
  lemma MapLineExactlyWithLocation(info: CustomerInfo, cart: seq<CartItem>, loc: Location)
    ensures var without := Message(info.(location := None), cart);
            var with := Message(info.(location := Some(loc)), cart);
            var h := |Header(info)|;
            h <= |without| && with == without[..h] + MapLine(loc) + without[h..]
    ensures |MapLine(loc)| > 0 && MapLine(loc)[..|MapPrefix|] == MapPrefix
  {
    var rest := ItemsHeading + ItemLines(cart) + TotalLine(CartTotal(cart));
    MessageSplit(info.(location := None), cart);
    MessageSplit(info.(location := Some(loc)), cart);
    InsertAfter(Header(info), MapLine(loc), rest);
    MapLineStart(loc);
  }

  /** The message is the header, the map section, then everything from the items heading on. */
  lemma MessageSplit(info: CustomerInfo, cart: seq<CartItem>)
    ensures Header(info) == Header(info.(location := None))
    ensures Message(info, cart) == Header(info) + MapSection(info.location)
      + (ItemsHeading + ItemLines(cart) + TotalLine(CartTotal(cart)))
  {
  }

  lemma MapLineStart(loc: Location)
    ensures |MapLine(loc)| > 0 && MapLine(loc)[..|MapPrefix|] == MapPrefix
  {
    var rest := IntToString(loc.lat) + "," + IntToString(loc.lng) + "\n";
    assert MapLine(loc) == MapPrefix + rest;
  }

  /** Text inserted right after a prefix `h`. */
  lemma InsertAfter(h: string, m: string, rest: string)
    ensures h + "" + rest == h + rest
    ensures h + m + rest == (h + rest)[..|h|] + m + (h + rest)[|h|..]
  {
    assert (h + rest)[..|h|] == h;
    assert (h + rest)[|h|..] == rest;
  }

  /** The message ends with the total, written as a numeral that reads back as the basket's total. */
  lemma MessageEndsWithTotal(info: CustomerInfo, cart: seq<CartItem>)
    ensures var m := Message(info, cart);
            var d := IntToString(CartTotal(cart));
            |TotalLabel + d + "*"| <= |m| && m[|m| - |TotalLabel + d + "*"|..] == TotalLabel + d + "*"
            && IsNumeral(d) && ParseInt(d) == CartTotal(cart)
  {
    IntToStringRoundTrip(CartTotal(cart));
    var m := Message(info, cart);
    var t := TotalLine(CartTotal(cart));
    var p := Header(info) + MapSection(info.location) + ItemsHeading + ItemLines(cart);
    assert m == p + t;
    assert m[|m| - |t|..] == t;
  }

  /**
   * The worked example of a one-product order: "Rice" at 340 per "1kg", added
   * twice, ordered by Ali with no location, gives one line of quantity 2, a
   * total of 680, and exactly this message.
   */
  lemma RiceOrderExample(rice: Product)
    requires rice.id == "1" && rice.name == "Rice" && rice.price == 340 && rice.unit == "1kg"
    ensures AddTimes([], rice, 2) == [CartItem(rice, 2)]
    ensures CartTotal([CartItem(rice, 2)]) == 680
    ensures Message(CustomerInfo("Ali", "0300", "X Street", None), [CartItem(rice, 2)]) ==
      "*NEW ORDER - TDR-STORE*\n\n👤 Name: Ali\n📞 Phone: 0300\n📍 Address: X Street\n"
      + "\n📦 *Items:*\n"
      + "- Rice (1kg) x 2 = Rs. 680\n"
      + "\n💰 *Total: Rs. 680*"
  {
    AddTimesSingleLine([], rice, 2);
    var cart := [CartItem(rice, 2)];
    var info := CustomerInfo("Ali", "0300", "X Street", None);
    RiceLines(rice);
    ExampleHeader();
    MessageSplit(info, cart);
    Regroup(Header(info), ItemsHeading, ItemLines(cart), TotalLine(CartTotal(cart)));
  }

  lemma Regroup(h: string, a: string, b: string, c: string)
    ensures h + "" + (a + b + c) == h + a + b + c
  {
  }

  lemma ExampleHeader()
    ensures Header(CustomerInfo("Ali", "0300", "X Street", None))
      == "*NEW ORDER - TDR-STORE*\n\n👤 Name: Ali\n📞 Phone: 0300\n📍 Address: X Street\n"
  {
    assert "*NEW ORDER - " + StoreName + "*\n\n👤 Name: " == "*NEW ORDER - TDR-STORE*\n\n👤 Name: ";
    assert "*NEW ORDER - TDR-STORE*\n\n👤 Name: " + "Ali" + "\n📞 Phone: " == "*NEW ORDER - TDR-STORE*\n\n👤 Name: Ali\n📞 Phone: ";
    assert "*NEW ORDER - TDR-STORE*\n\n👤 Name: Ali\n📞 Phone: " + "0300" + "\n📍 Address: "
      == "*NEW ORDER - TDR-STORE*\n\n👤 Name: Ali\n📞 Phone: 0300\n📍 Address: ";
    assert "*NEW ORDER - TDR-STORE*\n\n👤 Name: Ali\n📞 Phone: 0300\n📍 Address: " + "X Street" + "\n"
      == "*NEW ORDER - TDR-STORE*\n\n👤 Name: Ali\n📞 Phone: 0300\n📍 Address: X Street\n";
  }

  /** The basket of the worked example: its item lines and its total line. */
  lemma RiceLines(rice: Product)
    requires rice.name == "Rice" && rice.price == 340 && rice.unit == "1kg"
    ensures CartTotal([CartItem(rice, 2)]) == 680
    ensures ItemLines([CartItem(rice, 2)]) == "- Rice (1kg) x 2 = Rs. 680\n"
    ensures TotalLine(CartTotal([CartItem(rice, 2)])) == "\n💰 *Total: Rs. 680*"
  {
    var cart := [CartItem(rice, 2)];
    assert CartTotal(cart) == 680 by { assert cart[..0] == []; }
    RenderExample();
    assert ItemLines(cart) == ItemLine(cart[0]) by {
      assert cart[1..] == [];
      assert ConcatMap(cart[1..], ItemLine) == "";
    }
  }

  /** The two numbers of the worked example, rendered. */
  lemma RenderExample()
    ensures IntToString(2) == "2"
    ensures IntToString(680) == "680"
    ensures TotalLine(680) == "\n💰 *Total: Rs. 680*"
  {
    assert NatToString(68) == "68";
    assert NatToString(680) == "680";
  }
}
