/** The product listing page: the category buttons built from the fetched
    categories, the product records built from the fetched products, and the
    category-and-search filter over them. */
module Home {
  import opened Wrappers
  import Seqs

  /** The "all categories" entry. */
  const AllCategories: string := "Todos"

  // ---------------------------------------------------------------------
  // Text helpers

  /** `toLowerCase` on one character, for the ASCII and Latin-1 upper-case
      letters. */
  function LowerChar(c: char): char
  {
    if 'A' <= c <= 'Z' then (c as int + 32) as char
    else if 'À' <= c <= 'Þ' && c != '×' then (c as int + 32) as char
    else c
  }

  function Lower(s: string): (r: string)
    ensures |r| == |s|
    ensures forall k :: 0 <= k < |s| ==> r[k] == LowerChar(s[k])
    ensures forall k :: 0 <= k < |r| ==> !('A' <= r[k] <= 'Z')
  {
    seq(|s|, k requires 0 <= k < |s| => LowerChar(s[k]))
  }

  /** `String.prototype.includes`. */
  predicate Includes(s: string, t: string)
    decreases |s|
  {
    t <= s || (s != [] && Includes(s[1..], t))
  }

  /** `t` occurs in `s` starting at position `i`. */
  predicate OccursAt(s: string, t: string, i: int)
  {
    0 <= i && i + |t| <= |s| && s[i..i + |t|] == t
  }

  /** The scan agrees with the positional definition of a substring. */
  lemma {:induction false} IncludesIffOccurs(s: string, t: string)
    ensures Includes(s, t) <==> exists i :: OccursAt(s, t, i)
    decreases |s|
  {
    if t <= s {
      assert s[0..|t|] == t;
      assert OccursAt(s, t, 0);
    } else if s != [] {
      IncludesIffOccurs(s[1..], t);
      if Includes(s[1..], t) {
        var i :| OccursAt(s[1..], t, i);
        assert s[1..][i..i + |t|] == s[i + 1..i + 1 + |t|];
        assert OccursAt(s, t, i + 1);
      }
      if exists i :: OccursAt(s, t, i) {
        var i :| OccursAt(s, t, i);
        if i > 0 {
          assert s[1..][i - 1..i - 1 + |t|] == s[i..i + |t|];
          assert OccursAt(s[1..], t, i - 1);
        }
      }
    }
  }

  /** An empty search term is found in every name. */
  lemma IncludesEmpty(s: string)
    ensures Includes(s, "")
  {
  }

  // ---------------------------------------------------------------------
  // Categories

  datatype CategoryDto = CategoryDto(nome: string)

  /** The category buttons: "Todos" first, then the fetched names in
      response order. */
  method BuildCategories(response: seq<CategoryDto>) returns (aux: seq<string>)
    ensures |aux| == |response| + 1 && aux[0] == AllCategories
    ensures forall k :: 0 <= k < |response| ==> aux[k + 1] == response[k].nome
  {
    aux := [AllCategories];
    for i := 0 to |response|
      invariant |aux| == i + 1 && aux[0] == AllCategories
      invariant forall k :: 0 <= k < i ==> aux[k + 1] == response[k].nome
    {
      aux := aux + [response[i].nome];
    }
  }

  // ---------------------------------------------------------------------
  // Product records

  /** A product as the backend sends it; its name may be missing. */
  datatype ProductDto = ProductDto(id: int, nome: Option<string>, preco: int, categoriaNome: string)

  /** A product as the page lists it; `price` is in cents. */
  datatype Listing = Listing(id: int, name: Option<string>, price: int, category: string,
                             unit: string, description: string, image: string)

  const DescriptionSuffix: string := " frescas e de alta qualidade."

  const DefaultImage: string :=
    "https://t4.ftcdn.net/jpg/00/29/91/15/360_F_29911513_IdFIhTSh5VsJRGfvo2w3xkfmR3Rt8N4H.jpg"

  /** The image table, keyed by lower-case product name. */
  const Images: map<string, string> := map[
    "banana" := "https://images.unsplash.com/photo-1571771894821-ce9b6c11b08e?w=300&h=300&fit=crop",
    "alface" := "https://images.unsplash.com/photo-1622206151226-18ca2c9ab4a1?w=300&h=300&fit=crop",
    "cheiro verde" := "https://cdnm.westwing.com.br/glossary/uploads/br/2023/11/21185218/Cheiro-verde-uma-combinacao-que-traz-sabor-e-inovacao-para-qualquer-receita.-Fonte-Unsplash.jpg",
    "rucula" := "https://encrypted-tbn0.gstatic.com/images?q=tbn:ANd9GcSaJanuA_wUZ7A1n7jkiZb0n5v5M3kdClrreA&s",
    "cenoura" := "https://images.unsplash.com/photo-1598170845058-32b9d6a5da37?w=300&h=300&fit=crop",
    "uva" := "https://images.unsplash.com/photo-1416432969026-7e41a751ee1e?w=300&h=300&fit=crop",
    "abacaxi" := "https://images.unsplash.com/photo-1589820296156-2454bb8a6ad1?w=300&h=300&fit=crop",
    "brocolis" := "https://images.unsplash.com/photo-1459411621453-7b03977f4bfc?w=300&h=300&fit=crop"
  ]

  /** A missing name concatenates as the text "undefined". A name the
      server sends as JSON `null` would read "null" instead; such a product
      has no name either way and never passes the listing's filter. */
  function NameText(nome: Option<string>): string
  {
    if nome.Some? then nome.value else "undefined"
  }

  /** The table entry for the lower-cased name, or the default image. */
  function ImageFor(nome: Option<string>): (r: string)
    ensures r == DefaultImage || r in Images.Values
    ensures nome.None? ==> r == DefaultImage
    ensures nome.Some? && Lower(nome.value) in Images ==> r == Images[Lower(nome.value)]
    ensures nome.Some? && Lower(nome.value) !in Images ==> r == DefaultImage
  {
    if nome.Some? && Lower(nome.value) in Images && Images[Lower(nome.value)] != ""
    then Images[Lower(nome.value)]
    else DefaultImage
  }

  function ToListing(dto: ProductDto): Listing
  {
    Listing(dto.id, dto.nome, dto.preco, dto.categoriaNome, "kg",
            NameText(dto.nome) + DescriptionSuffix, ImageFor(dto.nome))
  }

  /** The `map` over the fetched products. */
  function ToListings(dtos: seq<ProductDto>): (r: seq<Listing>)
    ensures |r| == |dtos|
    ensures forall k :: 0 <= k < |r| ==>
      && r[k].id == dtos[k].id && r[k].name == dtos[k].nome && r[k].price == dtos[k].preco
      && r[k].category == dtos[k].categoriaNome
      && r[k].unit == "kg"
      && r[k].description == NameText(dtos[k].nome) + DescriptionSuffix
      && r[k].image == ImageFor(dtos[k].nome)
  {
    seq(|dtos|, k requires 0 <= k < |dtos| => ToListing(dtos[k]))
  }

  /** The image lookup ignores letter case. */
  lemma ImageIgnoresCase(a: string, b: string)
    requires Lower(a) == Lower(b)
    ensures ImageFor(Some(a)) == ImageFor(Some(b))
  {
  }

  // ---------------------------------------------------------------------
  // The filter

  /** The category matches ("Todos" matches all) and the lower-cased name
      contains the lower-cased search term; a product with no name never
      matches. */
  predicate Kept(p: Listing, category: string, term: string): (r: bool)
    ensures r ==> p.name.Some? && (category == AllCategories || p.category == category)
    ensures category == AllCategories && term == "" && p.name.Some? ==> r
  {
    (category == AllCategories || p.category == category)
    && p.name.Some? && Includes(Lower(p.name.value), Lower(term))
  }

  function KeptBy(category: string, term: string): Listing -> bool
  {
    (p: Listing) => Kept(p, category, term)
  }

  function FilteredProducts(products: seq<Listing>, category: string, term: string)
    : (r: seq<Listing>)
    ensures forall k :: 0 <= k < |r| ==> r[k] in products && Kept(r[k], category, term)
    ensures forall k :: 0 <= k < |products| && Kept(products[k], category, term) ==>
              products[k] in r
  {
    Seqs.Filter(KeptBy(category, term), products)
  }

  lemma FilteredInOrder(products: seq<Listing>, category: string, term: string)
    ensures Seqs.SubsequenceOf(FilteredProducts(products, category, term), products)
  {
    Seqs.FilterIsSubsequence(KeptBy(category, term), products);
  }

  /** With "Todos" and an empty search, every named product is listed, and a
      list of named products is listed whole. */
  lemma UnfilteredKeepsNamed(products: seq<Listing>)
    ensures forall k :: 0 <= k < |products| && products[k].name.Some? ==>
              products[k] in FilteredProducts(products, AllCategories, "")
    ensures (forall k :: 0 <= k < |products| ==> products[k].name.Some?) ==>
              FilteredProducts(products, AllCategories, "") == products
  {
    forall p: Listing | p.name.Some? ensures Kept(p, AllCategories, "") {
      IncludesEmpty(Lower(p.name.value));
    }
    if forall k :: 0 <= k < |products| ==> products[k].name.Some? {
      Seqs.FilterKeepsAll(KeptBy(AllCategories, ""), products);
    }
  }
}
