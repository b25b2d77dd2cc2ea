/** The product editor pages, ManageProduct.tsx and NewProduct.tsx. Their
    form state, pricing effect and tax handlers are the same code; they
    differ in their initial values, in ManageProduct's loading of a stored
    product, and in how they submit. */
module ProductEditor {
  import opened Wrappers
  import opened Numbers
  import opened Pricing
  import opened ProductSlice
  import Seqs

  /** The two buttons of NewProduct: `handleSubmit('Live' | 'Saved')`. */
  datatype PublishStatus = Live | Saved

  function StatusName(s: PublishStatus): string
  {
    match s
    case Live => "Live"
    case Saved => "Saved"
  }

  /** The form's text state and tax list. */
  datatype Form = Form(
    name: string,
    description: string,
    basePrice: string,
    profitPercentage: string,
    taxes: seq<Tax>,
    stock: string,
    sku: string,
    status: string,
    image: string,
    brand: string,
    category: string,
    dimensions: string,
    weight: string)

  /** The plain text inputs, each bound to one `setX(e.target.value)`. */
  datatype TextField = Name | Description | Stock | Sku | Status | Brand | Category | Dimensions | Weight

  function WithText(f: Form, field: TextField, value: string): (r: Form)
    ensures r.basePrice == f.basePrice && r.profitPercentage == f.profitPercentage
    ensures r.taxes == f.taxes && r.image == f.image
  {
    match field
    case Name => f.(name := value)
    case Description => f.(description := value)
    case Stock => f.(stock := value)
    case Sku => f.(sku := value)
    case Status => f.(status := value)
    case Brand => f.(brand := value)
    case Category => f.(category := value)
    case Dimensions => f.(dimensions := value)
    case Weight => f.(weight := value)
  }

  /** The validation both pages share: every required field is non-empty.
      Profit, status, dimensions and weight may be empty. */
  predicate RequiredFilled(f: Form)
  {
    f.name != "" && f.image != "" && f.brand != "" && f.category != ""
    && f.description != "" && f.basePrice != "" && f.stock != "" && f.sku != ""
  }

  /** The `productData` object both pages build: numbers parsed from the
      text, the tax list as it stands, and the given status. The computed
      prices are not part of it. */
  function Payload(f: Form, conv: Conversions, status: string): ProductData
  {
    ProductData(f.name, f.image, f.brand, f.category, f.description,
      conv.parseFloat(f.basePrice), conv.parseFloat(f.profitPercentage),
      f.taxes, conv.parseInt(f.stock), f.sku, status, f.dimensions, f.weight)
  }

  /** ManageProduct's `handleSave`: nothing without a route id, the alert
      when a required field is empty, otherwise `updateProduct({ id,
      productData })` with the form's own status. */
  function SaveChanges(routeId: Option<string>, f: Form, conv: Conversions): (r: Submission<(string, ProductData)>)
    ensures r.Skipped? <==> routeId.None? || routeId.value == ""
    ensures r.Invalid? <==> routeId.Some? && routeId.value != "" && !RequiredFilled(f)
    ensures r.Sent? ==> r.payload.0 == routeId.value && r.payload.1.status == f.status
    ensures r.Sent? ==> r.payload.1.taxes == f.taxes && r.payload.1.name == f.name
    ensures r.Sent? ==> r.payload.1.basePrice == conv.parseFloat(f.basePrice)
    ensures r.Sent? ==> r.payload.1.profitPercentage == conv.parseFloat(f.profitPercentage)
    ensures r.Sent? ==> r.payload.1.stock == conv.parseInt(f.stock)
    ensures r.Sent? ==> r.payload.1.image == f.image && r.payload.1.brand == f.brand
    ensures r.Sent? ==> r.payload.1.category == f.category && r.payload.1.description == f.description
    ensures r.Sent? ==> r.payload.1.sku == f.sku && r.payload.1.dimensions == f.dimensions
    ensures r.Sent? ==> r.payload.1.weight == f.weight
  {
    if routeId.None? || routeId.value == "" then Skipped
    else if !RequiredFilled(f) then Invalid
    else Sent((routeId.value, Payload(f, conv, f.status)))
  }

  /** NewProduct's `handleSubmit(submitStatus)`: the alert when a required
      field is empty, otherwise `createProduct(productData)` with the status
      of the button pressed, whatever the status selector shows. */
  function SubmitNew(f: Form, conv: Conversions, pressed: PublishStatus): (r: Submission<ProductData>)
    ensures !r.Skipped?
    ensures r.Invalid? <==> !RequiredFilled(f)
    ensures r.Sent? ==> r.payload.status == StatusName(pressed)
    ensures r.Sent? ==> r.payload.taxes == f.taxes && r.payload.name == f.name
    ensures r.Sent? ==> r.payload.basePrice == conv.parseFloat(f.basePrice)
    ensures r.Sent? ==> r.payload.profitPercentage == conv.parseFloat(f.profitPercentage)
    ensures r.Sent? ==> r.payload.stock == conv.parseInt(f.stock)
    ensures r.Sent? ==> r.payload.image == f.image && r.payload.brand == f.brand
    ensures r.Sent? ==> r.payload.category == f.category && r.payload.description == f.description
    ensures r.Sent? ==> r.payload.sku == f.sku && r.payload.dimensions == f.dimensions
    ensures r.Sent? ==> r.payload.weight == f.weight
  {
    if !RequiredFilled(f) then Invalid
    else Sent(Payload(f, conv, StatusName(pressed)))
  }

  /** ManageProduct's load effect: the stored product copied into the form,
      numbers printed with `toString()`, missing dimensions and weight as "". */
  function Loaded(p: Product, conv: Conversions): Form
  {
    Form(p.name, p.description, conv.showReal(p.basePrice), conv.showReal(p.profitPercentage),
      p.taxes, conv.showInt(p.stock), p.sku, p.status, p.image, p.brand, p.category,
      p.dimensions.GetOr(""), p.weight.GetOr(""))
  }

  /** The fields of a stored product the update body carries. */
  function StoredData(p: Product): ProductData
  {
    ProductData(p.name, p.image, p.brand, p.category, p.description,
      Some(p.basePrice), Some(p.profitPercentage), p.taxes, Some(p.stock), p.sku, p.status,
      p.dimensions.GetOr(""), p.weight.GetOr(""))
  }

  /** The text fields of a stored product that the validation requires. */
  predicate StoredComplete(p: Product)
  {
    p.name != "" && p.image != "" && p.brand != "" && p.category != ""
    && p.description != "" && p.sku != ""
  }

  /** Loading a stored product and saving it untouched sends back exactly its
      stored fields, provided printing and parsing numbers round-trip; a
      product missing a required text field cannot be saved untouched. */
  lemma LoadThenSave(p: Product, id: string, conv: Conversions)
    requires RoundTrips(conv) && id != ""
    ensures StoredComplete(p) ==> SaveChanges(Some(id), Loaded(p, conv), conv) == Sent((id, StoredData(p)))
    ensures !StoredComplete(p) ==> SaveChanges(Some(id), Loaded(p, conv), conv) == Invalid
  {
    var f := Loaded(p, conv);
    assert conv.parseFloat(f.basePrice) == Some(p.basePrice);
    assert conv.parseFloat(f.profitPercentage) == Some(p.profitPercentage);
    assert conv.parseInt(f.stock) == Some(p.stock);
    assert f.basePrice != "" && f.stock != "";
  }

  /** The page state of either editor. The pricing effect, which runs
      whenever the base price, profit or taxes change, is folded into the
      handlers that change them, so the shown prices are always those of
      the current form (`Priced`). */
  class Editor {
    const conv: Conversions
    var form: Form
    var newTaxName: string
    var newTaxPercentage: string
    var imagePreview: Option<string>
    var priceWithProfit: Option<real>
    var finalPrice: Option<real>

    ghost predicate Priced()
      reads this
    {
      && priceWithProfit == PriceWithProfit(conv.parseFloat(form.basePrice), conv.parseFloat(form.profitPercentage))
      && finalPrice == FinalPrice(priceWithProfit, form.taxes)
    }

    /** Mount, followed by the pricing effect's first run. */
    constructor (conv: Conversions, initialProfit: string, initialStatus: string)
      ensures this.conv == conv && Priced()
      ensures form == Form("", "", "", initialProfit, [], "", "", initialStatus, "", "", "", "", "")
      ensures newTaxName == "" && newTaxPercentage == "" && imagePreview == None
    {
      this.conv := conv;
      form := Form("", "", "", initialProfit, [], "", "", initialStatus, "", "", "", "", "");
      newTaxName := "";
      newTaxPercentage := "";
      imagePreview := None;
      var pwp := PriceWithProfit(conv.parseFloat(""), conv.parseFloat(initialProfit));
      priceWithProfit := pwp;
      finalPrice := FinalPrice(pwp, []);
    }

    /** The pricing effect. */
    method Reprice()
      modifies this
      ensures Priced()
      ensures form == old(form) && newTaxName == old(newTaxName)
      ensures newTaxPercentage == old(newTaxPercentage) && imagePreview == old(imagePreview)
    {
      priceWithProfit := PriceWithProfit(conv.parseFloat(form.basePrice), conv.parseFloat(form.profitPercentage));
      finalPrice := FinalPrice(priceWithProfit, form.taxes);
    }

    /** Typing into a text input that the pricing does not depend on. */
    method SetText(field: TextField, value: string)
      requires Priced()
      modifies this
      ensures Priced() && form == WithText(old(form), field, value)
      ensures priceWithProfit == old(priceWithProfit) && finalPrice == old(finalPrice)
      ensures newTaxName == old(newTaxName) && newTaxPercentage == old(newTaxPercentage)
      ensures imagePreview == old(imagePreview)
    {
      form := WithText(form, field, value);
    }

    /** Typing into the new-tax inputs. */
    method SetTaxInputs(name: string, percentage: string)
      modifies this
      ensures newTaxName == name && newTaxPercentage == percentage
      ensures form == old(form) && imagePreview == old(imagePreview)
      ensures priceWithProfit == old(priceWithProfit) && finalPrice == old(finalPrice)
    {
      newTaxName := name;
      newTaxPercentage := percentage;
    }

    method SetBasePrice(text: string)
      modifies this
      ensures Priced() && form == old(form).(basePrice := text)
      ensures newTaxName == old(newTaxName) && newTaxPercentage == old(newTaxPercentage)
      ensures imagePreview == old(imagePreview)
    {
      form := form.(basePrice := text);
      Reprice();
    }

    method SetProfitPercentage(text: string)
      modifies this
      ensures Priced() && form == old(form).(profitPercentage := text)
      ensures newTaxName == old(newTaxName) && newTaxPercentage == old(newTaxPercentage)
      ensures imagePreview == old(imagePreview)
    {
      form := form.(profitPercentage := text);
      Reprice();
    }

    /** `handleAddTax`: with both inputs non-empty, the tax is appended, the
        inputs are cleared and the final price grows by that tax's term
        alone; otherwise nothing changes. */
    method AddTax()
      requires Priced()
      modifies this
      ensures Priced() && imagePreview == old(imagePreview)
      ensures priceWithProfit == old(priceWithProfit)
      ensures old(newTaxName) != "" && old(newTaxPercentage) != "" ==>
        && form == old(form).(taxes := old(form.taxes) + [Tax(old(newTaxName), conv.parseFloat(old(newTaxPercentage)))])
        && newTaxName == "" && newTaxPercentage == ""
        && finalPrice == Add(old(finalPrice), TaxTerm(priceWithProfit, form.taxes[|form.taxes| - 1]))
      ensures !(old(newTaxName) != "" && old(newTaxPercentage) != "") ==>
        form == old(form) && newTaxName == old(newTaxName) && newTaxPercentage == old(newTaxPercentage)
        && finalPrice == old(finalPrice)
    {
      if newTaxName != "" && newTaxPercentage != "" {
        var t := Tax(newTaxName, conv.parseFloat(newTaxPercentage));
        FinalPriceAddTax(priceWithProfit, form.taxes, t);
        form := form.(taxes := form.taxes + [t]);
        newTaxName := "";
        newTaxPercentage := "";
        Reprice();
      }
    }

    /** `handleRemoveTax(index)`: the tax at `index` is dropped and its term
        taken off the final price; an index out of range changes nothing. */
    method RemoveTax(index: int)
      requires Priced()
      modifies this
      ensures Priced() && imagePreview == old(imagePreview)
      ensures newTaxName == old(newTaxName) && newTaxPercentage == old(newTaxPercentage)
      ensures form == old(form).(taxes := Seqs.RemoveAt(old(form.taxes), index))
      ensures priceWithProfit == old(priceWithProfit)
      ensures 0 <= index < |old(form.taxes)| ==>
        old(finalPrice) == Add(finalPrice, TaxTerm(priceWithProfit, old(form.taxes)[index]))
      ensures !(0 <= index < |old(form.taxes)|) ==> finalPrice == old(finalPrice)
    {
      var taxes := form.taxes;
      if 0 <= index < |taxes| {
        FinalPriceRemoveTax(priceWithProfit, taxes, index);
        assert Seqs.RemoveAt(taxes, index) == taxes[..index] + taxes[index + 1..];
      }
      form := form.(taxes := Seqs.RemoveAt(taxes, index));
      Reprice();
    }

    /** The image reader's `onloadend`: preview and image become the data URL. */
    method UploadImage(dataUrl: string)
      requires Priced()
      modifies this
      ensures Priced() && imagePreview == Some(dataUrl) && form == old(form).(image := dataUrl)
      ensures newTaxName == old(newTaxName) && newTaxPercentage == old(newTaxPercentage)
      ensures priceWithProfit == old(priceWithProfit) && finalPrice == old(finalPrice)
    {
      imagePreview := Some(dataUrl);
      form := form.(image := dataUrl);
    }

    /** The remove-image button: no preview and an empty image, so the form
        no longer passes validation. */
    method RemoveImage()
      requires Priced()
      modifies this
      ensures Priced() && imagePreview == None && form == old(form).(image := "")
      ensures !RequiredFilled(form)
      ensures newTaxName == old(newTaxName) && newTaxPercentage == old(newTaxPercentage)
      ensures priceWithProfit == old(priceWithProfit) && finalPrice == old(finalPrice)
    {
      imagePreview := None;
      form := form.(image := "");
    }

    /** ManageProduct's load effect, followed by the pricing effect it
        triggers: the prices shown are recomputed from the stored base price,
        profit and taxes, not copied from the stored product. */
    method Load(p: Product)
      modifies this
      ensures Priced() && form == Loaded(p, conv) && imagePreview == Some(p.image)
      ensures newTaxName == old(newTaxName) && newTaxPercentage == old(newTaxPercentage)
      ensures RoundTrips(conv) ==>
        priceWithProfit == PriceWithProfit(Some(p.basePrice), Some(p.profitPercentage))
    {
      form := Loaded(p, conv);
      imagePreview := Some(p.image);
      Reprice();
    }
  }

  /** NewProduct's initial state: profit "20" and status "Saved". */
  method NewProductPage(conv: Conversions) returns (e: Editor)
    ensures fresh(e) && e.conv == conv && e.Priced()
    ensures e.form.profitPercentage == "20" && e.form.status == "Saved" && e.form.taxes == []
    ensures RoundTrips(conv) && conv.parseFloat("20") == Some(20.0) ==>
      e.priceWithProfit == Some(0.0) && e.finalPrice == Some(0.0)
  {
    e := new Editor(conv, "20", "Saved");
    if RoundTrips(conv) && conv.parseFloat("20") == Some(20.0) {
      PriceWithProfitSpec(conv.parseFloat(""), conv.parseFloat("20"));
      NoTaxIdentity(e.priceWithProfit);
    }
  }

  /** ManageProduct's initial state, before the stored product arrives:
      every field empty. */
  method ManageProductPage(conv: Conversions) returns (e: Editor)
    ensures fresh(e) && e.conv == conv && e.Priced()
    ensures e.form.profitPercentage == "" && e.form.status == "" && e.form.taxes == []
    ensures RoundTrips(conv) ==> e.priceWithProfit == None && e.finalPrice == None
  {
    e := new Editor(conv, "", "");
  }
}
