/**
 * The pop-up stand configurator: stand type, size, custom link and uploaded
 * image, and the cart entry built from them.
 */
module PopupStandsPage {
  import opened Wrappers
  import opened Json
  import opened Cart
  import opened Upload
  import Strings

  datatype PopupType = Plat | Curve

  function TypeName(t: PopupType): string {
    match t
    case Plat => "plat"
    case Curve => "curve"
  }

  datatype PopupSize = PopupSize(id: string, name: string, width: string, height: string, description: string)

  const PlatSizes: seq<PopupSize> := [
    PopupSize("1/3", "1/3", "0m75", "2m25", "Compact size"),
    PopupSize("2/3", "2/3", "1m50", "2m25", "Medium size"),
    PopupSize("3/3", "3/3", "2m25", "2m25", "Large size"),
    PopupSize("4/3", "4/3", "3m00", "2m25", "Extra large size")
  ]

  const CurveSizes: seq<PopupSize> := [
    PopupSize("3/3", "3/3", "2m09", "2m25", "Large curved"),
    PopupSize("4/3", "4/3", "2m78", "2m25", "Extra large curved")
  ]

  /** `getAvailableSizes`: four sizes for a flat stand, two for a curved one, never none. */
  function AvailableSizes(t: PopupType): (sizes: seq<PopupSize>)
    ensures |sizes| == (if t == Plat then 4 else 2)
    ensures sizes[0].id == (if t == Plat then "1/3" else "3/3")
  {
    if t == Plat then PlatSizes else CurveSizes
  }

  function SizeIds(sizes: seq<PopupSize>): (ids: seq<string>)
    ensures |ids| == |sizes|
    ensures forall k :: 0 <= k < |sizes| ==> ids[k] == sizes[k].id
  {
    seq(|sizes|, k requires 0 <= k < |sizes| => sizes[k].id)
  }

  /** "plat" offers 1/3 to 4/3, "curve" only 3/3 and 4/3; the reset sizes are offered. */
  lemma OfferedSizes()
    ensures SizeIds(AvailableSizes(Plat)) == ["1/3", "2/3", "3/3", "4/3"]
    ensures SizeIds(AvailableSizes(Curve)) == ["3/3", "4/3"]
    ensures "1/3" in SizeIds(AvailableSizes(Plat)) && "3/3" in SizeIds(AvailableSizes(Curve))
  {
  }

  /** `sizes.find((size) => size.id === id) || sizes[0]`. */
  function FindSizeOr(sizes: seq<PopupSize>, id: string, fallback: PopupSize): (s: PopupSize)
    ensures s == fallback || s in sizes
    ensures id in SizeIds(sizes) ==> s in sizes && s.id == id
    ensures id !in SizeIds(sizes) ==> s == fallback
  {
    Find(sizes, (s: PopupSize) => s.id == id).GetOr(fallback)
  }

  /** `getCurrentSize`: the offered size with the selected id, else the first offered size. */
  function CurrentSizeOf(t: PopupType, id: string): (s: PopupSize)
    ensures s in AvailableSizes(t)
    ensures id in SizeIds(AvailableSizes(t)) ==> s.id == id
    ensures id !in SizeIds(AvailableSizes(t)) ==> s == AvailableSizes(t)[0]
  {
    FindSizeOr(AvailableSizes(t), id, AvailableSizes(t)[0])
  }

  const ImageUrlPrefix: string := "/Stand-pop.png?height=300&width=400&text=Popup+"

  /**
   * `getProductImageUrl`. The page defines it but never calls it; it is kept
   * for the URL it would build.
   */
  function ProductImageUrl(t: PopupType, sizeId: string): (url: string)
    ensures Strings.StartsWith(url, ImageUrlPrefix + TypeName(t) + "+")
    ensures |url| == |ImageUrlPrefix| + |TypeName(t)| + 1 + |sizeId|
  {
    ImageUrlPrefix + TypeName(t) + "+" + Strings.ReplaceFirst(sizeId, '/', '-')
  }

  /** A three-character id with its "/" in the middle is spelled with a "-" there instead. */
  lemma SlashInMiddle(id: string)
    requires |id| == 3 && id[1] == '/' && id[0] != '/' && id[2] != '/'
    ensures Strings.ReplaceFirst(id, '/', '-') == [id[0], '-', id[2]]
    ensures Strings.Occurrences(Strings.ReplaceFirst(id, '/', '-'), '/') == 0
  {
    assert id[..1] == [id[0]] && id[2..] == [id[2]];
    Strings.ReplaceFirstAt(id, '/', '-', 1);
    var r := [id[0], '-', id[2]];
    assert Strings.Occurrences([id[2]], '/') == 0 by { assert [id[2]][1..] == []; }
    assert Strings.Occurrences(['-', id[2]], '/') == 0 by { assert ['-', id[2]][1..] == [id[2]]; }
    assert r[1..] == ['-', id[2]];
  }

  /** Every offered size id has three characters with a single "/" in the middle. */
  lemma OfferedIdShape(t: PopupType, id: string)
    requires id in SizeIds(AvailableSizes(t))
    ensures |id| == 3 && id[1] == '/' && id[0] != '/' && id[2] != '/'
  {
    var sizes := AvailableSizes(t);
    var k :| 0 <= k < |sizes| && SizeIds(sizes)[k] == id;
    assert id == sizes[k].id;
    if t == Plat {
      assert sizes[k] == PlatSizes[k];
    } else {
      assert sizes[k] == CurveSizes[k];
    }
  }

  /** Every offered size id is "n/3"; the image URL spells it "n-3", with no "/" left. */
  lemma ImageUrlSizeHasNoSlash(t: PopupType, id: string)
    requires id in SizeIds(AvailableSizes(t))
    ensures |id| == 3 && id[1] == '/'
    ensures Strings.ReplaceFirst(id, '/', '-') == [id[0], '-', id[2]]
    ensures ProductImageUrl(t, id) == ImageUrlPrefix + TypeName(t) + "+" + [id[0], '-', id[2]]
    ensures Strings.Occurrences(Strings.ReplaceFirst(id, '/', '-'), '/') == 0
  {
    OfferedIdShape(t, id);
    SlashInMiddle(id);
  }

  class PopupConfigurator {
    var popupType: PopupType
    var size: string
    var customLink: string
    var customImage: Option<File>
    var previewUrl: Option<string>

    /** The selected size is one the selected type offers. */
    predicate Valid()
      reads this
    {
      size in SizeIds(AvailableSizes(popupType))
    }

    constructor ()
      ensures popupType == Plat && size == "1/3" && customLink == ""
      ensures customImage == None && previewUrl == None
      ensures Valid()
    {
      popupType, size, customLink := Plat, "1/3", "";
      customImage, previewUrl := None, None;
      new;
      OfferedSizes();
    }

    /** A type button: "plat" resets the size to "1/3", "curve" to "3/3". */
    method ChooseType(t: PopupType)
      modifies this`popupType, this`size
      ensures popupType == t && size == (if t == Plat then "1/3" else "3/3")
      ensures Valid()
    {
      OfferedSizes();
      popupType := t;
      size := if t == Plat then "1/3" else "3/3";
    }

    /** A size card; only the sizes of the current type are rendered. */
    method ChooseSize(id: string)
      requires id in SizeIds(AvailableSizes(popupType))
      modifies this`size
      ensures size == id && Valid()
    {
      size := id;
    }

    method SetCustomLink(link: string)
      modifies this`customLink
      ensures customLink == link
    {
      customLink := link;
    }

    /** `getCurrentSize` on the page's state: in a valid state, the selected size itself. */
    function CurrentSize(): (s: PopupSize)
      reads this
      ensures s in AvailableSizes(popupType)
      ensures Valid() ==> s.id == size
    {
      CurrentSizeOf(popupType, size)
    }

    /**
     * `handleImageUpload`: the first chosen file is kept, with `objectUrl` as
     * its preview, only if its MIME type starts with "image/".
     */
    method HandleImageUpload(files: seq<File>, objectUrl: string)
      modifies this`customImage, this`previewUrl
      ensures files != [] && IsImage(files[0]) ==> customImage == Some(files[0]) && previewUrl == Some(objectUrl)
      ensures !(files != [] && IsImage(files[0])) ==>
        customImage == old(customImage) && previewUrl == old(previewUrl)
    {
      if files != [] && IsImage(files[0]) {
        customImage := Some(files[0]);
        previewUrl := Some(objectUrl);
      }
    }

    /** The `options` object: type, size, link and the uploaded file's name (undefined without one). */
    function Options(): (o: Json.Options)
      reads this
      ensures JsObject(o)
      ensures Get(o, "type") == Str(TypeName(popupType)) && Get(o, "size") == Str(size)
      ensures Get(o, "customLink") == Str(customLink)
      ensures customImage.None? <==> Get(o, "customImage") == Undefined
    {
      var o := [ ("type", Str(TypeName(popupType))),
                 ("size", Str(size)),
                 ("customLink", Str(customLink)),
                 ("customImage", match customImage case Some(f) => Str(f.name) case None => Undefined) ];
      LetterKeysMakeJsObject(o);
      GetDistinct(o, 0);
      GetDistinct(o, 1);
      GetDistinct(o, 2);
      GetDistinct(o, 3);
      o
    }

    /** The cart entry `handleAddToCart` builds: one stand of the chosen type and size. */
    function Item(): (item: CartItem)
      reads this
      ensures item.quantity == 1 && item.image == "/Stand-pop.png"
      ensures item.productId == "popup-stands-" + TypeName(popupType) + "-" + size
      ensures item.options == Some(Options())
    {
      CartItem("popup-stands-" + TypeName(popupType) + "-" + size,
               "Pop-up Stand " + TypeName(popupType) + " " + size,
               "/Stand-pop.png", 1, Some(Options()))
    }

    /** `handleAddToCart`: without a session, redirect to the login page and add nothing. */
    method AddToCart(store: CartProvider) returns (redirected: bool)
      modifies store`cart, store`storage
      ensures redirected <==> store.session.None?
      ensures redirected ==> store.cart == old(store.cart) && store.storage == old(store.storage)
      ensures !redirected ==> store.cart == Added(old(store.cart), Item())
      ensures !redirected ==> store.storage == Persisted(store.session, old(store.storage), store.cart)
      ensures old(store.Consistent()) ==> store.Consistent()
    {
      redirected := store.session.None?;
      if !redirected {
        store.AddToCart(Item());
      }
    }
  }

  /**
   * Without an uploaded image the `customImage` key is undefined and
   * serialisation drops it; with one, its file name is part of the merge key.
   */
  lemma ItemSerialization(c: PopupConfigurator)
    ensures c.Item().quantity == 1 && c.Item().image == "/Stand-pop.png"
    ensures c.customImage.None? ==>
      Serialized(c.Item().options) == Some([("type", Str(TypeName(c.popupType))), ("size", Str(c.size)), ("customLink", Str(c.customLink))])
    ensures c.customImage.Some? ==>
      Serialized(c.Item().options) == c.Item().options
      && Get(c.Item().options.value, "customImage") == Str(c.customImage.value.name)
  {
    var o := c.Options();
    if c.customImage.None? {
      UndefinedKeyInvisible(o[..3], "customImage", []);
      assert o == o[..3] + [("customImage", Undefined)] + [];
      assert o[..3] + [] == o[..3];
      DropUndefinedNoop(o[..3]);
      assert o[..3] == [("type", Str(TypeName(c.popupType))), ("size", Str(c.size)), ("customLink", Str(c.customLink))];
    } else {
      DropUndefinedNoop(o);
      GetSingleKey(o, 3, "customImage");
    }
  }
}
