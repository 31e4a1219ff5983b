/** The storefront's built-in catalogue: eighteen pumps, each computed from
    its position. Prices are in integer cents. */
module Catalogue {
  import opened Text

  datatype Product = Product(index: int, name: string, price: int, image: string, description: string)

  /** The entry at position `i`; the model number shown is `i + 1`. */
  function MakeProduct(i: nat): Product {
    var number := Digits(i + 1);
    var name := "Pump Model " + number;
    Product(
      i,
      name,
      (100 + i * 50) * 100,
      "/src/Images/pump" + number + ".jpg",
      "This is the description of " + name
        + ". High performance, durable, and perfect for industrial or domestic use.")
  }

  /** The eighteen entries, generated from positions 0 to 17. */
  function Products(): seq<Product> {
    seq(18, i requires 0 <= i < 18 => MakeProduct(i))
  }

  /** Eighteen entries; the entry at position `i` has index `i`, so indices
      are distinct; prices rise strictly by 50 from 100 to 950. */
  lemma CatalogueShape()
    ensures |Products()| == 18
    ensures forall i | 0 <= i < 18 :: Products()[i].index == i
    ensures forall i, j | 0 <= i < j < 18 :: Products()[i].index != Products()[j].index
    ensures forall i | 0 <= i < 18 :: Products()[i].price == (100 + 50 * i) * 100
    ensures forall i, j | 0 <= i < j < 18 :: Products()[i].price < Products()[j].price
    ensures Products()[0].price == 100_00 && Products()[17].price == 950_00
  {
  }

  /** The name is "Pump Model " followed by digits that read back as the
      model number `i + 1`; the image path carries the same digits between
      "/src/Images/pump" and ".jpg". */
  lemma NameAndImage(i: nat)
    requires i < 18
    ensures var name := Products()[i].name;
            && "Pump Model " <= name
            && AllDigits(name[11..])
            && ParseDigits(name[11..]) == i + 1
    ensures var name, image := Products()[i].name, Products()[i].image;
            && "/src/Images/pump" <= image
            && |image| >= 20 && image[|image| - 4..] == ".jpg"
            && image[16..|image| - 4] == name[11..]
  {
    var p := Products()[i];
    assert p.name[11..] == Digits(i + 1);
    assert p.image[16..|p.image| - 4] == Digits(i + 1);
    DigitsRoundTrip(i + 1);
  }

  /** No two entries share a name. */
  lemma NamesDistinct(i: nat, j: nat)
    requires i < j < 18
    ensures Products()[i].name != Products()[j].name
  {
    var prefix := "Pump Model ";
    if Products()[i].name == Products()[j].name {
      assert Digits(i + 1) == Products()[i].name[|prefix|..];
      assert Digits(j + 1) == Products()[j].name[|prefix|..];
      DigitsInjective(i + 1, j + 1);
    }
  }

  /** Every description mentions its product's name. */
  lemma DescriptionContainsName(i: nat)
    requires i < 18
    ensures Contains(Products()[i].description, Products()[i].name)
  {
    var p := Products()[i];
    ContainsMiddle("This is the description of ", p.name,
      ". High performance, durable, and perfect for industrial or domestic use.");
  }
}
