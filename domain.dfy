/**
 * The records of the store (`Product`, `CartItem`, `CustomerInfo`), the
 * checkout step, the catalog-entry form, and the store's fixed configuration.
 * Prices, quantities and coordinates are integers.
 */
module Domain {

  datatype Option<T> = None | Some(value: T)

  type Id = string

  /** A sellable product; `isFeatured` is optional in the record. */
  datatype Product = Product(
    id: Id,
    name: string,
    category: string,
    price: int,
    unit: string,
    image: string,
    inStock: bool,
    isFeatured: Option<bool>)

  /** A basket line: a copy of the product taken when it was first added, and a quantity. */
  datatype CartItem = CartItem(product: Product, quantity: int)

  datatype Location = Location(lat: int, lng: int)

  datatype CustomerInfo = CustomerInfo(name: string, phone: string, address: string, location: Option<Location>)

  /** The three delivery fields the customer types into. */
  datatype DeliveryField = NameField | PhoneField | AddressField

  datatype CheckoutStep = Idle | Details | Success

  /** The catalog-entry form; `price` is the text of a numeric input. */
  datatype ProductForm = ProductForm(name: string, price: string, unit: string, category: string, image: string)

  function FieldValue(info: CustomerInfo, field: DeliveryField): string {
    match field
    case NameField => info.name
    case PhoneField => info.phone
    case AddressField => info.address
  }

  /** Typing into one delivery field: that field takes the new text, nothing else changes. */
  function UpdateField(info: CustomerInfo, field: DeliveryField, value: string): (r: CustomerInfo)
    ensures FieldValue(r, field) == value
    ensures forall g :: g != field ==> FieldValue(r, g) == FieldValue(info, g)
    ensures r.location == info.location
  {
    match field
    case NameField => info.(name := value)
    case PhoneField => info.(phone := value)
    case AddressField => info.(address := value)
  }

  const StoreName: string := "TDR-STORE"

  /** The image a new product gets when the form leaves the image link empty. */
  const DefaultImage: string :=
    "https://images.unsplash.com/photo-1542838132-92c53300491e?q=80&w=400&auto=format&fit=crop"

  /** The first category label, the one the form is reset to. */
  const FirstCategory: string := "Flour & Grains"

  const EmptyForm: ProductForm := ProductForm("", "", "", FirstCategory, "")

  const EmptyCustomer: CustomerInfo := CustomerInfo("", "", "", None)

  /** The category selector's value that matches every category. */
  const AllCategories: string := "All"

  function SeedProduct(id: Id, name: string, category: string, price: int, unit: string, photo: string): Product {
    Product(id, name, category, price, unit,
            "https://images.unsplash.com/photo-" + photo + "?q=80&w=400&auto=format&fit=crop", true, None)
  }

  /** The catalog used when nothing has been saved. */
  const InitialProducts: seq<Product> := [
    SeedProduct("1", "Fine Chakki Atta (Pure Whole Wheat)", "Flour & Grains", 1380, "10kg Bag", "1509440159596-0249088772ff"),
    SeedProduct("2", "Dalda Banaspati Ghee Pouch", "Oil & Ghee", 520, "1kg Pouch", "1589927986089-35812388d1f4"),
    SeedProduct("3", "Super Kernel Basmati Rice (A-Quality)", "Rice", 340, "1kg", "1586201375761-83865001e31c"),
    SeedProduct("4", "Tapal Danedar Family Pack", "Sugar & Tea", 640, "430g Pack", "1544787219-7f47ccb76574"),
    SeedProduct("5", "White Crystal Sugar (Safa Chini)", "Sugar & Tea", 155, "1kg", "1622484211148-71649964a2f8"),
    SeedProduct("6", "Daal Mash (Premium Washed)", "Pulses (Daal)", 540, "1kg", "1585994192732-756ef26e7a2b"),
    SeedProduct("7", "Olpers Milk Full Cream Pack", "Dairy", 290, "1 Ltr", "1550583724-125581fc2ab8")
  ]
}

/** Order-preserving selection (`Array.prototype.filter`), shared by the catalog and the basket. */
module Seqs {

  /** `r` is `s` with some elements dropped and the rest kept in order. */
  predicate IsSubsequence<T(==,!new)>(r: seq<T>, s: seq<T>)
    decreases |s|
  {
    if r == [] then true
    else if s == [] then false
    else (r[0] == s[0] && IsSubsequence(r[1..], s[1..])) || IsSubsequence(r, s[1..])
  }

  /** `xs.filter(keep)`. */
  function Select<T>(xs: seq<T>, keep: T -> bool): seq<T> {
    if xs == [] then []
    else (if keep(xs[0]) then [xs[0]] else []) + Select(xs[1..], keep)
  }

  /** The filter keeps exactly the elements that pass, and never more than there were. */
  lemma {:induction false} SelectMembers<T>(xs: seq<T>, keep: T -> bool)
    ensures |Select(xs, keep)| <= |xs|
    ensures forall x :: x in Select(xs, keep) <==> x in xs && keep(x)
  {
    if xs != [] {
      SelectMembers(xs[1..], keep);
      assert xs == [xs[0]] + xs[1..];
    }
  }

  /** The filter keeps every passing element as many times as it occurs, and no other element. */
  lemma {:induction false} SelectCount<T>(xs: seq<T>, keep: T -> bool)
    ensures forall x :: multiset(Select(xs, keep))[x] == if keep(x) then multiset(xs)[x] else 0
  {
    if xs != [] {
      SelectCount(xs[1..], keep);
      assert xs == [xs[0]] + xs[1..];
      assert multiset(xs) == multiset([xs[0]]) + multiset(xs[1..]);
      var head := if keep(xs[0]) then [xs[0]] else [];
      assert multiset(Select(xs, keep)) == multiset(head) + multiset(Select(xs[1..], keep));
    }
  }

  /** What the filter keeps stays in its original order. */
  lemma {:induction false} SelectIsSubsequence<T(!new)>(xs: seq<T>, keep: T -> bool)
    ensures IsSubsequence(Select(xs, keep), xs)
  {
    if xs != [] {
      SelectIsSubsequence(xs[1..], keep);
      var rest := Select(xs[1..], keep);
      if keep(xs[0]) {
        assert ([xs[0]] + rest)[1..] == rest;
      } else {
        assert Select(xs, keep) == rest;
        if rest != [] {
          assert IsSubsequence(rest, xs[1..]);
        }
      }
    }
  }

  /** Filtering a concatenation is concatenating the filtered halves. */
  lemma {:induction false} SelectAppend<T(!new)>(a: seq<T>, b: seq<T>, keep: T -> bool)
    ensures Select(a + b, keep) == Select(a, keep) + Select(b, keep)
  {
    if a == [] {
      assert a + b == b;
    } else {
      SelectAppend(a[1..], b, keep);
      var head := if keep(a[0]) then [a[0]] else [];
      assert (a + b)[0] == a[0];
      assert (a + b)[1..] == a[1..] + b;
      calc {
        Select(a + b, keep);
        head + Select(a[1..] + b, keep);
        head + (Select(a[1..], keep) + Select(b, keep));
        (head + Select(a[1..], keep)) + Select(b, keep);
      }
    }
  }

  /** When every element passes, the filter gives back the same sequence. */
  lemma {:induction false} SelectKeepsAll<T(!new)>(xs: seq<T>, keep: T -> bool)
    requires forall i :: 0 <= i < |xs| ==> keep(xs[i])
    ensures Select(xs, keep) == xs
  {
    if xs != [] {
      SelectKeepsAll(xs[1..], keep);
      assert [xs[0]] + xs[1..] == xs;
    }
  }

  /** When no element passes, the filter gives the empty sequence. */
  lemma {:induction false} SelectDropsAll<T(!new)>(xs: seq<T>, keep: T -> bool)
    requires forall i :: 0 <= i < |xs| ==> !keep(xs[i])
    ensures Select(xs, keep) == []
  {
    if xs != [] {
      SelectDropsAll(xs[1..], keep);
    }
  }

  /** `xs.forEach(x => out += f(x))`: the texts of the elements, one after another. */
  function ConcatMap<T>(xs: seq<T>, f: T -> string): string {
    if xs == [] then "" else f(xs[0]) + ConcatMap(xs[1..], f)
  }

  /** The texts of two sequences side by side are the texts of each, in that order. */
  lemma {:induction false} ConcatMapAppend<T>(a: seq<T>, b: seq<T>, f: T -> string)
    ensures ConcatMap(a + b, f) == ConcatMap(a, f) + ConcatMap(b, f)
  {
    if a == [] {
      assert a + b == b;
    } else {
      ConcatMapAppend(a[1..], b, f);
      assert (a + b)[1..] == a[1..] + b;
    }
  }

  /** Appending one element appends its text. */
  lemma ConcatMapSnoc<T>(xs: seq<T>, x: T, f: T -> string)
    ensures ConcatMap(xs + [x], f) == ConcatMap(xs, f) + f(x)
  {
    ConcatMapAppend(xs, [x], f);
    assert [x][1..] == [];
  }

  /** Element `k`'s text stands right after the texts of the elements before it. */
  lemma ConcatMapAt<T>(xs: seq<T>, k: nat, f: T -> string)
    requires k < |xs|
    ensures ConcatMap(xs, f) == ConcatMap(xs[..k], f) + f(xs[k]) + ConcatMap(xs[k + 1..], f)
  {
    var pre, post := xs[..k], xs[k + 1..];
    assert xs == pre + ([xs[k]] + post);
    ConcatMapAppend(pre, [xs[k]] + post, f);
    assert ([xs[k]] + post)[1..] == post;
    assert ConcatMap([xs[k]] + post, f) == f(xs[k]) + ConcatMap(post, f);
  }
}
