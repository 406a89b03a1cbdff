/**
 * The product edit dialog of components/edit-product-dialog.tsx (the menu
 * back office): the form mirrors the product with the description's null
 * shown as "" and the quantity as text, is reset whenever the dialog opens,
 * and submitting sends a PATCH body, closing the dialog and notifying the
 * page only when the answer was ok.
 */
module EditProductDialog {
  import opened Js

  /** A product as the products API returns it; `price` is kept as text. */
  datatype Product = Product(
    id: int,
    name: string,
    description: Option<string>,
    price: string,
    category: string,
    quantity: int,
    isAvailable: bool)

  datatype FormData = FormData(
    name: string,
    description: string,
    price: string,
    category: string,
    quantity: string,
    isAvailable: bool)

  /** The JSON body of the PATCH; `description` None is `null`. */
  datatype Body = Body(
    name: string,
    description: Option<string>,
    price: string,
    category: string,
    quantity: JsInt,
    isAvailable: bool)

  /** The category options. */
  const Categories: seq<string> :=
    ["pizzas", "lanches", "bebidas", "bebidas quentes", "sobremesas", "acompanhamentos", "massas", "saladas"]

  /** There are eight options and no two are the same. */
  lemma CategoriesDistinct()
    ensures |Categories| == 8
    ensures forall i, j :: 0 <= i < j < |Categories| ==> Categories[i] != Categories[j]
  {
  }

  /** `description || ""`: null and "" both show as "". */
  function DescriptionText(d: Option<string>): (s: string)
    ensures d.None? ==> s == ""
    ensures d.Some? ==> s == d.value
  {
    if d.Some? then d.value else ""
  }

  /** `description || null`: the empty text is sent as null. */
  function DescriptionValue(s: string): (d: Option<string>)
    ensures d.None? <==> s == ""
    ensures d.Some? ==> d.value == s
  {
    if s == "" then None else Some(s)
  }

  /** The form built from the product, at mount and whenever the dialog opens. */
  function FormDe(p: Product): (f: FormData)
    ensures f.name == p.name && f.price == p.price && f.category == p.category && f.isAvailable == p.isAvailable
    ensures f.description == DescriptionText(p.description)
    ensures ParseInt(f.quantity) == Int(p.quantity)
  {
    ParseIntOfIntToString(p.quantity);
    FormData(p.name, DescriptionText(p.description), p.price, p.category, IntToString(p.quantity), p.isAvailable)
  }

  /** The PATCH body built from the form. */
  function Corpo(f: FormData): (b: Body)
    ensures b.name == f.name && b.price == f.price && b.category == f.category && b.isAvailable == f.isAvailable
    ensures b.description == DescriptionValue(f.description)
    ensures b.quantity == ParseInt(f.quantity)
  {
    Body(f.name, DescriptionValue(f.description), f.price, f.category, ParseInt(f.quantity), f.isAvailable)
  }

  /** A description goes null -> "" -> null and s -> s -> s for a non-empty s; only "" is turned into null. */
  lemma DescriptionRoundTrip(d: Option<string>)
    ensures d.None? ==> DescriptionValue(DescriptionText(d)) == None
    ensures d.Some? && d.value != "" ==> DescriptionValue(DescriptionText(d)) == d
    ensures d == Some("") ==> DescriptionValue(DescriptionText(d)) == None
  {
  }

  /**
   * Opening the dialog and saving without edits sends the product's own
   * values, the quantity as the same integer and an empty description as null.
   */
  lemma CorpoSemEdicao(p: Product)
    ensures Corpo(FormDe(p)) ==
              Body(p.name, DescriptionValue(DescriptionText(p.description)), p.price, p.category,
                   Int(p.quantity), p.isAvailable)
  {
  }

  /** The dialog's state. */
  class Dialog {
    var open: bool
    var loading: bool
    var formData: FormData

    constructor (p: Product)
      ensures !open && !loading && formData == FormDe(p)
    {
      open := false;
      loading := false;
      formData := FormDe(p);
    }

    /** `setOpen` followed by the effect on `[open, product]`: opening resets the form. */
    method SetOpen(o: bool, p: Product)
      modifies this`open, this`formData
      ensures open == o
      ensures o ==> formData == FormDe(p)
      ensures !o ==> formData == old(formData)
    {
      open := o;
      if o {
        formData := FormDe(p);
      }
    }

    /**
     * `handleSubmit`: the PATCH for `p.id` carries `body`; `ok` is whether
     * the answer arrived with `res.ok`. The dialog closes and `updated`
     * (`onProductUpdated` was called) only on ok; loading ends false either way.
     */
    method HandleSubmit(p: Product, ok: bool) returns (target: int, body: Body, updated: bool)
      modifies this`open, this`loading
      ensures target == p.id && body == Corpo(formData)
      ensures updated == ok
      ensures ok ==> !open
      ensures !ok ==> open == old(open)
      ensures !loading
    {
      loading := true;
      target := p.id;
      body := Corpo(formData);
      if ok {
        open := false;
        updated := true;
      } else {
        updated := false;
      }
      loading := false;
    }
  }
}
