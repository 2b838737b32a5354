// The static product catalogue and its three lookups (lib/products.ts).
module Products {
  import opened Common

  /** A catalogue entry; `priceCents` stands for the decimal `price_cad` (24.99 is 2499). */
  datatype Product = Product(
    id: string,
    sku: string,
    title: string,
    variant: string,
    priceCents: nat,
    image: string,
    url: string,
    category: Option<string>)

  const Catalogue: seq<Product> := [
    Product("molle-pda-mc-cp", "MOLLE-PDA-001", "MOLLE PDA Phone Panel", "MC Camo / CP Camo", 2499,
            "/images/mollepda-mc-cp.png", "https://item.taobao.com/item.htm?id=713575933395", Some("Pouches")),
    Product("molle-pda-bcp", "MOLLE-PDA-002", "MOLLE PDA Phone Panel", "Dark Night Camo BCP", 2499,
            "/images/mollepda--bcp.png", "https://item.taobao.com/item.htm?id=713575933395", Some("Pouches")),
    Product("molle-pda-bk", "MOLLE-PDA-003", "MOLLE PDA Phone Panel", "Black BK", 2499,
            "/images/mollepda--bk.png", "https://item.taobao.com/item.htm?id=713575933395", Some("Pouches")),
    Product("m67-grenade-16", "M67-GRN-001", "M67 Toy Grenade Set", "16 Grenades + Airdrop Box", 4999,
            "/images/m67-16.png", "https://detail.tmall.com/item.htm?id=823946437927", Some("Grenades")),
    Product("m67-grenade-8-green", "M67-GRN-002", "M67 Toy Grenade Set", "8 Grenades + Airdrop Box Green", 3499,
            "/images/m67-8-.png", "https://detail.tmall.com/item.htm?id=823946437927", Some("Grenades")),
    Product("m26-green", "M26-GRN-001", "M26 Reusable Grenade", "Military Green", 1999,
            "/images/m67-m26.png", "https://detail.tmall.com/item.htm?id=823946437927", Some("Grenades"))
  ]

  /** The position `ps.find(p => p.id === id)` stops at: the first entry with that id. */
  function FirstWithId(ps: seq<Product>, id: string): (r: Option<nat>)
    ensures r.Some? ==> r.value < |ps| && ps[r.value].id == id &&
                        forall i :: 0 <= i < r.value ==> ps[i].id != id
    ensures r.None? ==> forall i :: 0 <= i < |ps| ==> ps[i].id != id
  {
    if ps == [] then None
    else if ps[0].id == id then Some(0)
    else
      match FirstWithId(ps[1..], id)
      case Some(k) => Some(k + 1)
      case None => None
  }

  /** `products.find(p => p.id === id)`: the first catalogue entry with that id, or undefined. */
  function GetProductById(id: string): (r: Option<Product>)
    ensures r.Some? ==> r.value in Catalogue && r.value.id == id
    ensures r.None? <==> forall p :: p in Catalogue ==> p.id != id
  {
    match FirstWithId(Catalogue, id)
    case Some(k) => Some(Catalogue[k])
    case None => None
  }

  /** No two catalogue entries share an id, so a lookup by id is unambiguous. */
  lemma CatalogueIdsDistinct()
    ensures forall i, j :: 0 <= i < j < |Catalogue| ==> Catalogue[i].id != Catalogue[j].id
  {
    var ids := seq(|Catalogue|, i requires 0 <= i < |Catalogue| => Catalogue[i].id);
    assert ids == ["molle-pda-mc-cp", "molle-pda-bcp", "molle-pda-bk",
                   "m67-grenade-16", "m67-grenade-8-green", "m26-green"];
    // the six ids differ already in length
    assert forall i :: 0 <= i < |ids| ==> |ids[i]| == [15, 13, 12, 14, 19, 9][i];
  }

  /** Looking up the id of any catalogue entry returns that very entry. */
  lemma GetProductByIdFindsEntry(k: nat)
    requires k < |Catalogue|
    ensures GetProductById(Catalogue[k].id) == Some(Catalogue[k])
  {
    CatalogueIdsDistinct();
  }

  /** `ps.filter(p => p.category === category)`: an entry without a category never matches. */
  function FilterByCategory(ps: seq<Product>, category: string): (r: seq<Product>)
    ensures forall p :: p in r <==> p in ps && p.category == Some(category)
    ensures Subsequence(r, ps)
  {
    if ps == [] then []
    else if ps[0].category == Some(category) then [ps[0]] + FilterByCategory(ps[1..], category)
    else
      var r := FilterByCategory(ps[1..], category);
      assert r != [] ==> r[0] in ps[1..];
      r
  }

  /** The filter keeps order and every copy: filtering two pieces laid end to end is filtering each piece in turn. */
  lemma {:induction false} FilterByCategoryAppend(a: seq<Product>, b: seq<Product>, category: string)
    ensures FilterByCategory(a + b, category) == FilterByCategory(a, category) + FilterByCategory(b, category)
  {
    if a == [] {
      assert a + b == b;
    } else {
      assert (a + b)[0] == a[0] && (a + b)[1..] == a[1..] + b;
      FilterByCategoryAppend(a[1..], b, category);
    }
  }

  /** One entry: itself exactly when it has the category. */
  lemma FilterByCategorySingle(p: Product, category: string)
    ensures FilterByCategory([p], category) == if p.category == Some(category) then [p] else []
  {
    assert [p][1..] == [];
  }

  function GetProductsByCategory(category: string): (r: seq<Product>)
    ensures forall p :: p in r <==> p in Catalogue && p.category == Some(category)
    ensures Subsequence(r, Catalogue)
  {
    FilterByCategory(Catalogue, category)
  }

  /**
   * `products.slice(0, count)`: a prefix of the catalogue. A negative count
   * counts back from the end, as Array.prototype.slice does.
   */
  function GetFeaturedProducts(count: int := 3): (r: seq<Product>)
    ensures |r| <= |Catalogue| && r == Catalogue[..|r|]
    ensures count >= 0 ==> |r| == if count < |Catalogue| then count else |Catalogue|
    ensures count < 0 ==> |r| == if |Catalogue| + count > 0 then |Catalogue| + count else 0
  {
    var end := if count >= 0 then (if count < |Catalogue| then count else |Catalogue|)
               else (if |Catalogue| + count > 0 then |Catalogue| + count else 0);
    Catalogue[..end]
  }
}
