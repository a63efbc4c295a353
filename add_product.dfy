/** The admin page that adds a product (`app/admin/products/add/page.jsx`): the
 *  form keeps the uploaded image URLs in order, an image can be removed by its
 *  position, and submitting inserts the product with stock 0.
 *
 *  The upload widget's result, the insert's error and the router are modelled as
 *  parameters and fields; `parseFloat` of the price fields is not part of this
 *  model, so the inserted row carries the typed text.
 */
module AddProduct {
  import opened Common

  /** What the upload widget reports: its event name and the file's URL. */
  datatype UploadResult = UploadResult(event: string, secureUrl: string)

  /** The row inserted into `products`. */
  datatype NewProduct = NewProduct(name: string, description: string, price: string, mrp: string,
                                   category: string, stock: int, images: seq<string>)

  /** The text inputs, named as in the form. */
  datatype Field = Name | Description | Price | Mrp | Category

  const ProductsPath := "/admin/products"

  /** `images.filter((_, idx) => idx !== i)`, walking the list with its index
   *  starting at `offset`: an index inside the list drops exactly that image and
   *  keeps the others in order, and any other index removes nothing. */
  function Without(images: seq<string>, i: int, offset: int): (r: seq<string>)
    ensures offset <= i < offset + |images| ==> r == images[..i - offset] + images[i - offset + 1..]
    ensures !(offset <= i < offset + |images|) ==> r == images
    decreases |images|
  {
    if images == [] then []
    else
      var rest := Without(images[1..], i, offset + 1);
      if offset != i then
        assert offset < i < offset + |images| ==>
          images[..i - offset] == [images[0]] + images[1..][..i - offset - 1]
          && images[i - offset + 1..] == images[1..][i - offset..];
        assert !(offset <= i < offset + |images|) ==> images == [images[0]] + images[1..];
        [images[0]] + rest
      else
        assert images[..0] + images[1..] == images[1..];
        rest
  }

  /** The list after the remove button of image `i`. */
  function RemovedAt(images: seq<string>, i: int): seq<string>
  {
    Without(images, i, 0)
  }

  lemma RemovedAtSpec(images: seq<string>, i: int)
    ensures 0 <= i < |images| ==> RemovedAt(images, i) == images[..i] + images[i + 1..]
    ensures 0 <= i < |images| ==> |RemovedAt(images, i)| == |images| - 1
    ensures !(0 <= i < |images|) ==> RemovedAt(images, i) == images
  {
  }

  class ProductForm {
    var name: string
    var description: string
    var price: string
    var mrp: string
    var category: string
    var images: seq<string>
    var loading: bool
    /** The rows inserted into `products`, oldest first. */
    var inserted: seq<NewProduct>
    /** Where the router was sent, if anywhere. */
    var location: Option<string>
    /** The last `alert` shown. */
    var alert: Option<string>

    constructor()
      ensures name == "" && description == "" && price == "" && mrp == "" && category == ""
      ensures images == [] && !loading && inserted == [] && location.None? && alert.None?
    {
      name, description, price, mrp, category := "", "", "", "", "";
      images := [];
      loading := false;
      inserted := [];
      location := None;
      alert := None;
    }

    /** `handleChange`: one input's value. */
    method Change(field: Field, value: string)
      modifies this
      ensures name == (if field == Name then value else old(name))
      ensures description == (if field == Description then value else old(description))
      ensures price == (if field == Price then value else old(price))
      ensures mrp == (if field == Mrp then value else old(mrp))
      ensures category == (if field == Category then value else old(category))
      ensures images == old(images) && loading == old(loading) && inserted == old(inserted)
      ensures location == old(location) && alert == old(alert)
    {
      match field
      case Name => name := value;
      case Description => description := value;
      case Price => price := value;
      case Mrp => mrp := value;
      case Category => category := value;
    }

    /** `handleUpload`: only a "success" event appends its URL, at the end. */
    method Upload(result: UploadResult)
      modifies this
      ensures images == if result.event == "success" then old(images) + [result.secureUrl] else old(images)
      ensures name == old(name) && description == old(description) && price == old(price)
      ensures mrp == old(mrp) && category == old(category)
      ensures loading == old(loading) && inserted == old(inserted) && location == old(location) && alert == old(alert)
    {
      if result.event == "success" {
        images := images + [result.secureUrl];
      }
    }

    /** The remove button under image `i`. */
    method Remove(i: int)
      modifies this
      ensures images == RemovedAt(old(images), i)
      ensures name == old(name) && description == old(description) && price == old(price)
      ensures mrp == old(mrp) && category == old(category)
      ensures loading == old(loading) && inserted == old(inserted) && location == old(location) && alert == old(alert)
    {
      images := RemovedAt(images, i);
    }

    /** `handleSubmit`: the product goes in with stock 0 and the current images; an
     *  error is alerted and re-enables the form, success navigates to the product
     *  list (with `loading` left on). A failed insert adds no row. */
    method Submit(insertError: Option<string>)
      modifies this
      ensures insertError.None? ==> inserted == old(inserted) + [NewProduct(name, description, price, mrp, category, 0, images)]
      ensures insertError.None? ==> loading && location == Some(ProductsPath) && alert == old(alert)
      ensures insertError.Some? ==> inserted == old(inserted) && !loading && location == old(location)
      ensures insertError.Some? ==> alert == Some("Error creating product: " + insertError.value)
      ensures name == old(name) && description == old(description) && price == old(price)
      ensures mrp == old(mrp) && category == old(category) && images == old(images)
    {
      loading := true;
      if insertError.Some? {
        alert := Some("Error creating product: " + insertError.value);
        loading := false;
      } else {
        inserted := inserted + [NewProduct(name, description, price, mrp, category, 0, images)];
        location := Some(ProductsPath);
      }
    }
  }
}
