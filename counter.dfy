/**
 * The counter configurator: counter type, optional fabric cover ("drap"),
 * custom link and uploaded image, and the cart entry built from them.
 */
module CounterPage {
  import opened Wrappers
  import opened Json
  import opened Cart
  import opened Upload
  import Strings

  datatype CounterType = Square | Curved

  function TypeName(t: CounterType): string {
    match t
    case Square => "square"
    case Curved => "curved"
  }

  datatype CounterSpec = CounterSpec(
    counterType: CounterType,
    name: string,
    width: string,
    height: string,
    length: string,
    description: string)

  const CounterSpecs: seq<CounterSpec> := [
    CounterSpec(Square, "Professional Counter Square", "1m00", "0m94", "0m40",
                "Classic square design for professional presentations"),
    CounterSpec(Curved, "Professional Counter Curved", "1m20", "0m928", "0m45",
                "Modern curved design for enhanced visual appeal")
  ]

  /** `counterSpecs.find((counter) => counter.type === t) || counterSpecs[0]`. */
  function FindSpecOr(specs: seq<CounterSpec>, t: CounterType, fallback: CounterSpec): (c: CounterSpec)
    ensures c == fallback || (c in specs && c.counterType == t)
    ensures (exists k :: 0 <= k < |specs| && specs[k].counterType == t) ==> c in specs && c.counterType == t
  {
    Find(specs, (c: CounterSpec) => c.counterType == t).GetOr(fallback)
  }

  /** `getCurrentCounter`: every type has a spec, so the fallback is never used. */
  function CurrentCounter(t: CounterType): (c: CounterSpec)
    ensures c in CounterSpecs && c.counterType == t
  {
    assert CounterSpecs[if t == Square then 0 else 1].counterType == t;
    FindSpecOr(CounterSpecs, t, CounterSpecs[0])
  }

  function DrapPart(includeDrap: bool): string {
    if includeDrap then "drap" else "no-drap"
  }

  class CounterConfigurator {
    var counterType: CounterType
    var includeDrap: bool
    var customLink: string
    var customImage: Option<File>
    var previewUrl: Option<string>

    constructor ()
      ensures counterType == Square && !includeDrap && customLink == ""
      ensures customImage == None && previewUrl == None
    {
      counterType, includeDrap, customLink := Square, false, "";
      customImage, previewUrl := None, None;
    }

    method ChooseType(t: CounterType)
      modifies this`counterType
      ensures counterType == t
    {
      counterType := t;
    }

    method SetIncludeDrap(b: bool)
      modifies this`includeDrap
      ensures includeDrap == b
    {
      includeDrap := b;
    }

    method SetCustomLink(link: string)
      modifies this`customLink
      ensures customLink == link
    {
      customLink := link;
    }

    /**
     * `handleImageUpload`: the first chosen file is kept, with `objectUrl` as
     * its preview, only if its MIME type starts with "image/".
     */
    method HandleImageUpload(files: seq<File>, objectUrl: string)
      modifies this`customImage, this`previewUrl
      ensures files != [] && IsImage(files[0]) ==> customImage == Some(files[0]) && previewUrl == Some(objectUrl)
      ensures !(files != [] && IsImage(files[0])) ==>
        customImage == old(customImage) && previewUrl == old(previewUrl)
    {
      if files != [] && IsImage(files[0]) {
        customImage := Some(files[0]);
        previewUrl := Some(objectUrl);
      }
    }

    /** The product id names the type, then whether the cover is included. */
    function ProductId(): (id: string)
      reads this
      ensures Strings.StartsWith(id, "counter-" + TypeName(counterType) + "-")
      ensures id[|id| - |DrapPart(includeDrap)|..] == DrapPart(includeDrap)
    {
      "counter-" + TypeName(counterType) + "-" + DrapPart(includeDrap)
    }

    function Name(): (name: string)
      reads this
      ensures Strings.StartsWith(name, "Counter " + TypeName(counterType))
    {
      "Counter " + TypeName(counterType) + (if includeDrap then " + Drap" else "")
    }

    /** The `options` object: type, cover, link and the uploaded file's name (undefined without one). */
    function Options(): (o: Json.Options)
      reads this
      ensures JsObject(o)
      ensures Get(o, "type") == Str(TypeName(counterType)) && Get(o, "drap") == Bool(includeDrap)
      ensures Get(o, "customLink") == Str(customLink)
      ensures customImage.None? <==> Get(o, "customImage") == Undefined
    {
      var o := [ ("type", Str(TypeName(counterType))),
                 ("drap", Bool(includeDrap)),
                 ("customLink", Str(customLink)),
                 ("customImage", match customImage case Some(f) => Str(f.name) case None => Undefined) ];
      LetterKeysMakeJsObject(o);
      GetDistinct(o, 0);
      GetDistinct(o, 1);
      GetDistinct(o, 2);
      GetDistinct(o, 3);
      o
    }

    /** The cart entry `handleAddToCart` builds: one counter with the fixed picture. */
    function Item(): (item: CartItem)
      reads this
      ensures item.quantity == 1 && item.image == "/Counter.jpg"
      ensures item.productId == ProductId() && item.name == Name() && item.options == Some(Options())
    {
      CartItem(ProductId(), Name(), "/Counter.jpg", 1, Some(Options()))
    }

    /** `handleAddToCart`: without a session, redirect to the login page and add nothing. */
    method AddToCart(store: CartProvider) returns (redirected: bool)
      modifies store`cart, store`storage
      ensures redirected <==> store.session.None?
      ensures redirected ==> store.cart == old(store.cart) && store.storage == old(store.storage)
      ensures !redirected ==> store.cart == Added(old(store.cart), Item())
      ensures !redirected ==> store.storage == Persisted(store.session, old(store.storage), store.cart)
      ensures old(store.Consistent()) ==> store.Consistent()
    {
      redirected := store.session.None?;
      if !redirected {
        store.AddToCart(Item());
      }
    }
  }

  /** The name ends in " + Drap" exactly when the cover is included. */
  lemma NameMentionsDrap(c: CounterConfigurator)
    ensures var n := c.Name();
      (c.includeDrap <==> |n| >= 7 && n[|n| - 7..] == " + Drap")
  {
    var base := "Counter " + TypeName(c.counterType);
    if !c.includeDrap {
      assert c.Name() == base;
      if c.counterType == Square {
        assert base == "Counter square";
      } else {
        assert base == "Counter curved";
      }
    } else {
      assert c.Name()[|c.Name()| - 7..] == " + Drap";
    }
  }

  /** The product id tells the two cover options apart, so they never merge. */
  lemma DrapSeparatesEntries(a: CounterConfigurator, b: CounterConfigurator)
    requires a.counterType == b.counterType && a.includeDrap != b.includeDrap
    ensures a.ProductId() != b.ProductId()
    ensures !SameKey(a.Item(), b.Item())
  {
    var p := "counter-" + TypeName(a.counterType) + "-";
    assert a.ProductId() == p + DrapPart(a.includeDrap);
    assert b.ProductId() == p + DrapPart(b.includeDrap);
    assert |a.ProductId()| != |b.ProductId()|;
  }

  /** Without an uploaded image the undefined `customImage` key is dropped from the merge key. */
  lemma NoImageKey(c: CounterConfigurator)
    requires c.customImage.None?
    ensures Serialized(c.Item().options) ==
      Some([("type", Str(TypeName(c.counterType))), ("drap", Bool(c.includeDrap)), ("customLink", Str(c.customLink))])
  {
    var o := c.Options();
    UndefinedKeyInvisible(o[..3], "customImage", []);
    assert o == o[..3] + [("customImage", Undefined)] + [];
    assert o[..3] + [] == o[..3];
    DropUndefinedNoop(o[..3]);
    assert o[..3] == [("type", Str(TypeName(c.counterType))), ("drap", Bool(c.includeDrap)), ("customLink", Str(c.customLink))];
  }
}
