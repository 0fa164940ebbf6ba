/** The site header of `src/components/layout/Header.tsx`: the navigation links and
    when each is highlighted, the account link, and the cart badge. */
module Header {
  import opened Common
  import Decimal
  import opened CartContext

  datatype NavItem = NavItem(name: string, href: string)

  const NAVIGATION: seq<NavItem> := [
    NavItem("Shop", "/products"),
    NavItem("Women", "/categories/women"),
    NavItem("Men", "/categories/men"),
    NavItem("Brands", "/brands")
  ]

  /** A link is highlighted on its own path and on every path below it. */
  predicate NavActive(pathname: string, href: string) {
    pathname == href || StartsWith(pathname, href + "/")
  }

  /** Below means: the path goes on after the link's path with a `/`. A path that
      merely shares a prefix with the link does not highlight it. */
  lemma NavActiveIff(pathname: string, href: string)
    ensures NavActive(pathname, href) <==>
            pathname == href || exists rest :: pathname == href + "/" + rest
  {
    if StartsWith(pathname, href + "/") {
      var rest := pathname[|href| + 1..];
      assert pathname == pathname[..|href| + 1] + rest;
      assert pathname == href + "/" + rest;
    }
    if exists rest :: pathname == href + "/" + rest {
      var rest :| pathname == href + "/" + rest;
      assert pathname[..|href + "/"|] == href + "/";
    }
  }

  /** An illustration of `NavActiveIff`: a path that only begins with the link's
      text, with no `/` after it, does not mark the link active. */
  lemma ShopNotActiveOnLookalike()
    ensures !NavActive("/productsx", NAVIGATION[0].href)
    ensures NavActive("/products/abc", NAVIGATION[0].href) && NavActive("/products", NAVIGATION[0].href)
  {
    assert "/productsx"[..|"/products/"|] != "/products/" by {
      assert "/productsx"[..|"/products/"|][9] == 'x';
    }
    assert "/products/abc"[..|"/products/"|] == "/products/";
  }

  /** The account icon leads to the account page when signed in, else to login. */
  function AccountHref(signedIn: bool): (href: string)
    ensures href == "/account" <==> signedIn
    ensures href == "/login" <==> !signedIn
  {
    if signedIn then "/account" else "/login"
  }

  /** The cart badge: hidden for a count of zero or less, the count itself from one
      to nine, and `9+` above that. */
  function BadgeText(count: int): (text: Option<string>)
    ensures text.None? <==> count <= 0
    ensures 0 < count <= 9 ==> text == Some(Decimal.IntToDecimal(count))
    ensures count > 9 ==> text == Some("9+")
  {
    if count > 0 then Some(if count > 9 then "9+" else Decimal.IntToDecimal(count)) else None
  }

  /** A shown count is one digit that reads back as the count, and it never reads
      as `9+`. */
  lemma BadgeTextReadsBack(count: int)
    requires 0 < count <= 9
    ensures |BadgeText(count).value| == 1
    ensures Decimal.ParseInt(BadgeText(count).value) == Some(count)
    ensures BadgeText(count).value != "9+"
  {
    Decimal.IntToDecimalRoundTrip(count);
  }

  /** The header's badge is computed from the cart's item count. */
  function HeaderBadge(cart: CartStore): (text: Option<string>)
    reads cart
    ensures text.None? <==> Sum(cart.items, LineCount) <= 0
    ensures 0 < Sum(cart.items, LineCount) <= 9 ==> text == Some(Decimal.IntToDecimal(Sum(cart.items, LineCount)))
    ensures Sum(cart.items, LineCount) > 9 ==> text == Some("9+")
  {
    BadgeText(cart.ItemCount())
  }
}
