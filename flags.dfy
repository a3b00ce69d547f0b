/**
 * The flag configurator: flag type, height, base, crossbar, custom link and
 * uploaded image, and the cart entry built from them.
 */
module FlagsPage {
  import opened Wrappers
  import opened Json
  import opened Auth
  import opened Cart
  import Strings

  datatype FlagType = Courbe | Droit | Incline | Rectangulaire

  function TypeName(t: FlagType): string {
    match t
    case Courbe => "courbé"
    case Droit => "droit"
    case Incline => "incliné"
    case Rectangulaire => "rectangulaire"
  }

  datatype BaseType = Water22 | Water15 | Beton | Metal7 | Metal75 | Metal10

  function BaseId(b: BaseType): string {
    match b
    case Water22 => "water-22kg"
    case Water15 => "water-15kg"
    case Beton => "beton"
    case Metal7 => "metal-7kg"
    case Metal75 => "metal-7.5kg"
    case Metal10 => "metal-10kg"
  }

  datatype Barre = With | Without

  function BarreName(b: Barre): string {
    match b
    case With => "with"
    case Without => "without"
  }

  const StandardHeights: seq<string> := ["2m", "2m50", "2m80", "3m20", "3m80", "4m50", "5m"]
  const RectangularHeights: seq<string> := ["2m30", "2m70", "3m30", "3m90"]

  /** `getAvailableHeights`: the four rectangular heights for "rectangulaire", the seven standard ones otherwise. */
  function AvailableHeights(t: FlagType): (hs: seq<string>)
    ensures |hs| == (if t == Rectangulaire then 4 else 7)
    ensures (if t == Rectangulaire then "2m30" else "2m") == hs[0]
  {
    if t == Rectangulaire then RectangularHeights else StandardHeights
  }

  /** No height is offered for both kinds of flag, so a height tells whether the flag is rectangular. */
  lemma HeightsDisjoint(t1: FlagType, t2: FlagType, h: string)
    requires h in AvailableHeights(t1) && h in AvailableHeights(t2)
    ensures t1 == Rectangulaire <==> t2 == Rectangulaire
  {
  }

  datatype BaseInfo = BaseInfo(id: BaseType, name: string, description: string)

  const BaseTypes: seq<BaseInfo> := [
    BaseInfo(Water22, "Water Base 22kg", "Heavy-duty water-filled base"),
    BaseInfo(Water15, "Water Base 15kg", "Medium water-filled base"),
    BaseInfo(Beton, "Béton Base", "Concrete base for maximum stability"),
    BaseInfo(Metal7, "Metal Base 7kg", "Lightweight metal base"),
    BaseInfo(Metal75, "Metal Base 7.5kg", "Standard metal base"),
    BaseInfo(Metal10, "Metal Base 10kg", "Heavy-duty metal base")
  ]

  /** `baseTypes.find((b) => b.id === id)`. */
  function FindBase(bases: seq<BaseInfo>, id: BaseType): (r: Option<BaseInfo>)
    ensures r.Some? ==> r.value in bases && r.value.id == id
    ensures r.None? ==> forall k :: 0 <= k < |bases| ==> bases[k].id != id
  {
    Find(bases, (b: BaseInfo) => b.id == id)
  }

  /** The summary's base line: the base's display name, or "None" without a base. */
  function BaseSummary(base: Option<BaseType>): (s: string)
    ensures base.None? <==> s == "None"
    ensures base.Some? && s != "" ==> exists k :: 0 <= k < |BaseTypes| && BaseTypes[k].id == base.value && s == BaseTypes[k].name
    ensures base.Some? && s == "" ==> forall k :: 0 <= k < |BaseTypes| ==> BaseTypes[k].id != base.value
  {
    match base
    case None => "None"
    case Some(b) =>
      match FindBase(BaseTypes, b)
      case Some(info) => info.name
      case None => ""
  }

  /** Every base the page offers is in the table, so the summary always shows its display name. */
  lemma BaseSummaryNamesEveryBase(b: BaseType)
    ensures exists k :: 0 <= k < |BaseTypes| && BaseTypes[k].id == b && BaseSummary(Some(b)) == BaseTypes[k].name
  {
    var k := match b
      case Water22 => 0 case Water15 => 1 case Beton => 2
      case Metal7 => 3 case Metal75 => 4 case Metal10 => 5;
    assert BaseTypes[k].id == b;
    var found := FindBase(BaseTypes, b);
    assert found.Some?;
  }

  /** `x ?? null` for a text field. */
  function OrNullValue<T>(x: Option<T>, text: T -> string): (v: Value)
    ensures v != Undefined
    ensures x.None? <==> v == Null
  {
    match x
    case Some(y) => Str(text(y))
    case None => Null
  }

  /** The flag's `options` object: every choice, with `null` for a missing base or image. */
  function OptionsRecord(flagType: string, height: string, base: Value, barre: string, link: string, image: Value): (o: Json.Options)
    ensures JsObject(o)
    ensures base != Undefined && image != Undefined ==> forall k :: 0 <= k < |o| ==> o[k].1 != Undefined
  {
    var o := [ ("type", Str(flagType)), ("height", Str(height)), ("base", base),
               ("barre", Str(barre)), ("customLink", Str(link)), ("customImage", image) ];
    LetterKeysMakeJsObject(o);
    o
  }

  /** Each choice can be read back from the `options` object under its key. */
  lemma OptionsRecordReads(flagType: string, height: string, base: Value, barre: string, link: string, image: Value)
    ensures var o := OptionsRecord(flagType, height, base, barre, link, image);
      && Get(o, "type") == Str(flagType) && Get(o, "height") == Str(height) && Get(o, "base") == base
      && Get(o, "barre") == Str(barre) && Get(o, "customLink") == Str(link)
  {
    var o := OptionsRecord(flagType, height, base, barre, link, image);
    GetDistinct(o, 0);
    GetDistinct(o, 1);
    GetDistinct(o, 2);
    GetDistinct(o, 3);
    GetDistinct(o, 4);
  }

  class FlagConfigurator {
    var flagType: FlagType
    var height: string
    var base: Option<BaseType>
    var barre: Barre
    var customLink: string
    var customImageUrl: Option<string>

    /** The selected height is one the selected type offers. */
    predicate Valid()
      reads this
    {
      height in AvailableHeights(flagType)
    }

    constructor ()
      ensures flagType == Courbe && height == "2m" && base == None && barre == With
      ensures customLink == "" && customImageUrl == None
      ensures Valid()
    {
      flagType, height, base, barre := Courbe, "2m", None, With;
      customLink, customImageUrl := "", None;
    }

    /** A type button: standard types reset the height to "2m", "rectangulaire" to "2m30". */
    method ChooseType(t: FlagType)
      modifies this`flagType, this`height
      ensures flagType == t && height == (if t == Rectangulaire then "2m30" else "2m")
      ensures Valid()
    {
      flagType := t;
      height := if t == Rectangulaire then "2m30" else "2m";
    }

    /** A height button; only the heights of the current type are rendered as buttons. */
    method ChooseHeight(h: string)
      requires h in AvailableHeights(flagType)
      modifies this`height
      ensures height == h && Valid()
    {
      height := h;
    }

    method ChooseBarre(b: Barre)
      modifies this`barre
      ensures barre == b
    {
      barre := b;
    }

    method ChooseBase(b: Option<BaseType>)
      modifies this`base
      ensures base == b
    {
      base := b;
    }

    method SetCustomLink(link: string)
      modifies this`customLink
      ensures customLink == link
    {
      customLink := link;
    }

    /** `onClientUploadComplete(res)`: keep the first uploaded file's URL when there is one. */
    method UploadComplete(urls: seq<string>)
      modifies this`customImageUrl
      ensures urls != [] && urls[0] != "" ==> customImageUrl == Some(urls[0])
      ensures !(urls != [] && urls[0] != "") ==> customImageUrl == old(customImageUrl)
    {
      if urls != [] && urls[0] != "" {
        customImageUrl := Some(urls[0]);
      }
    }

    /** The product id names the type and height first, then the base and barre. */
    function ProductId(): (id: string)
      reads this
      ensures Strings.StartsWith(id, "flag-" + TypeName(flagType) + "-" + height + "-")
    {
      "flag-" + TypeName(flagType) + "-" + height + "-"
      + (match base case Some(b) => BaseId(b) case None => "no-base")
      + "-" + BarreName(barre)
    }

    /** The `options` object of the current choices. */
    function Options(): (o: Json.Options)
      reads this
      ensures JsObject(o)
      ensures forall k :: 0 <= k < |o| ==> o[k].1 != Undefined
      ensures Get(o, "type") == Str(TypeName(flagType)) && Get(o, "height") == Str(height)
      ensures Get(o, "barre") == Str(BarreName(barre)) && Get(o, "customLink") == Str(customLink)
      ensures Get(o, "base") == OrNullValue(base, BaseId)
    {
      var image := OrNullValue(customImageUrl, (u: string) => u);
      OptionsRecordReads(TypeName(flagType), height, OrNullValue(base, BaseId), BarreName(barre), customLink, image);
      OptionsRecord(TypeName(flagType), height, OrNullValue(base, BaseId), BarreName(barre), customLink, image)
    }

    /** The cart entry `handleAddToCart` builds: one flag, pictured by the upload when there is one. */
    function Item(): (item: CartItem)
      reads this
      ensures item.quantity == 1 && item.productId == ProductId() && item.options == Some(Options())
      ensures item.image == (if customImageUrl.Some? && customImageUrl.value != "" then customImageUrl.value else "/flag.png")
    {
      var image := match customImageUrl case Some(u) => (if u != "" then u else "/flag.png") case None => "/flag.png";
      CartItem(ProductId(), "Flag " + TypeName(flagType) + " " + height, image, 1, Some(Options()))
    }

    /** `handleAddToCart`: without a session, redirect to the login page and leave the cart alone. */
    method AddToCart(store: CartProvider) returns (redirected: bool)
      modifies store`cart, store`storage
      ensures redirected <==> store.session.None?
      ensures redirected ==> store.cart == old(store.cart) && store.storage == old(store.storage)
      ensures !redirected ==> store.cart == Added(old(store.cart), Item())
      ensures !redirected ==> store.storage == Persisted(store.session, old(store.storage), store.cart)
      ensures old(store.Consistent()) ==> store.Consistent()
    {
      redirected := store.session.None?;
      if !redirected {
        store.AddToCart(Item());
      }
    }
  }

  /**
   * No option of a flag is undefined, so serialisation keeps every one of
   * them: the link and the image are part of the merge key.
   */
  lemma ItemSpec(c: FlagConfigurator)
    ensures Serialized(c.Item().options) == c.Item().options
    ensures Get(Serialized(c.Item().options).value, "customLink") == Str(c.customLink)
    ensures Get(Serialized(c.Item().options).value, "height") == Str(c.height)
  {
    DropUndefinedNoop(c.Options());
  }

  /**
   * Two flags configured alike except for the custom link share a product id
   * but not a merge key, so they become two cart entries.
   */
  lemma LinkSeparatesEntries(a: FlagConfigurator, b: FlagConfigurator)
    requires a.flagType == b.flagType && a.height == b.height && a.base == b.base && a.barre == b.barre
    requires a.customImageUrl == b.customImageUrl && a.customLink != b.customLink
    ensures a.Item().productId == b.Item().productId
    ensures Added(Added([], a.Item()), b.Item()) == [a.Item(), b.Item()]
  {
    ItemSpec(a);
    ItemSpec(b);
    assert Serialized(a.Item().options) != Serialized(b.Item().options);
    DifferentOptionsTwoEntries(a.Item(), b.Item());
  }
}
