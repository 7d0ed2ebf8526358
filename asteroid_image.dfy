/** The picture on an asteroid card, chosen by the size category of its
    maximum estimated diameter in kilometres. */
module AsteroidImage {

  datatype SizeCategory = Small | Medium | Large

  /** `getAsteroidSizeCategory`: under 100 metres is small, under one
      kilometre medium, and anything larger large. */
  function SizeCategoryOf(diameter: real): (c: SizeCategory)
    ensures c == Small <==> diameter < 0.1
    ensures c == Medium <==> 0.1 <= diameter < 1.0
    ensures c == Large <==> diameter >= 1.0
  {
    if diameter < 0.1 then Small
    else if diameter < 1.0 then Medium
    else Large
  }

  function Rank(c: SizeCategory): nat {
    match c
    case Small => 0
    case Medium => 1
    case Large => 2
  }

  /** A larger diameter never gives a smaller category. */
  lemma SizeCategoryMonotone(d1: real, d2: real)
    requires d1 <= d2
    ensures Rank(SizeCategoryOf(d1)) <= Rank(SizeCategoryOf(d2))
  {
  }

  datatype ImageFile = SmallJpg | MediumJpg | LargeJpg

  datatype Picture = Picture(src: ImageFile, alt: string)

  /** `ASTEROID_IMAGES`: one picture per category. */
  const AsteroidImages: map<SizeCategory, Picture> := map[
    Small := Picture(SmallJpg, "Un pequeño asteroide o roca en el espacio"),
    Medium := Picture(MediumJpg, "Un asteroide de tamaño mediano flotando en el espacio"),
    Large := Picture(LargeJpg, "Un asteroide muy grande o un planetoide en el espacio profundo")
  ]

  /** Every category has a picture, each its own file, so the lookup in
      `AsteroidImage` always succeeds. */
  lemma EveryCategoryHasImage(diameter: real)
    ensures SizeCategoryOf(diameter) in AsteroidImages
    ensures forall c1, c2 | c1 in AsteroidImages && c2 in AsteroidImages && c1 != c2 ::
      AsteroidImages[c1].src != AsteroidImages[c2].src
  {
  }

  /** The picture an asteroid card shows. */
  function PictureFor(diameter: real): (p: Picture)
    ensures p in AsteroidImages.Values
    ensures p.src == SmallJpg <==> diameter < 0.1
    ensures p.src == LargeJpg <==> diameter >= 1.0
  {
    AsteroidImages[SizeCategoryOf(diameter)]
  }
}
