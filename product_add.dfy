/**
 * The admin page for adding a product: an admin gate, up to four selected
 * images with their previews, and a submit that uploads the images and adds
 * the product document to the catalog.
 */
module ProductAdd {
  import opened Wrappers

  /** The most images one product may carry. */
  const MaxImages := 4

  /** The category the form starts with and returns to after a submit. */
  const DefaultCategory := "Clothing"

  datatype PageView = Loading | Unauthorized | Form

  /** What the page shows: nothing until the session is loaded, then the form for admins only. */
  function View(isLoaded: bool, role: Option<string>): (v: PageView)
    ensures v == Loading <==> !isLoaded
    ensures v == Form <==> isLoaded && role == Some("admin")
    ensures v == Unauthorized <==> isLoaded && role != Some("admin")
  {
    if !isLoaded then Loading
    else if role == Some("admin") then Form
    else Unauthorized
  }

  /** `filter((_, i) => i !== index)`: the entry at `index` dropped, the rest in order. */
  function RemoveIndex<T>(s: seq<T>, index: int): (r: seq<T>)
    ensures 0 <= index < |s| ==> |r| == |s| - 1
    ensures 0 <= index < |s| ==> forall j :: 0 <= j < index ==> r[j] == s[j]
    ensures 0 <= index < |s| ==> forall j :: index <= j < |r| ==> r[j] == s[j + 1]
    ensures !(0 <= index < |s|) ==> r == s
  {
    if 0 <= index < |s| then s[..index] + s[index + 1..] else s
  }

  /** Putting the removed entry back at its index restores the list. */
  lemma RemoveIndexRestore<T>(s: seq<T>, index: int)
    requires 0 <= index < |s|
    ensures RemoveIndex(s, index)[..index] + [s[index]] + RemoveIndex(s, index)[index..] == s
  {
    var r := RemoveIndex(s, index);
    var t := r[..index] + [s[index]] + r[index..];
    assert |t| == |s|;
    forall j | 0 <= j < |s|
      ensures t[j] == s[j]
    {
      if j > index {
        assert t[j] == r[j - 1];
      }
    }
  }

  /** A file chosen in the picker, identified by its name. */
  type FileRef = string

  /** `Promise.all(files.map(upload))`: one hosted URL per file, in the files' order. */
  function UploadAll(files: seq<FileRef>, upload: FileRef -> string): (urls: seq<string>)
    ensures |urls| == |files|
    ensures forall i :: 0 <= i < |files| ==> urls[i] == upload(files[i])
  {
    if files == [] then [] else [upload(files[0])] + UploadAll(files[1..], upload)
  }

  /** The document added to the `products` collection. */
  datatype ProductDoc = ProductDoc(
    name: string,
    description: string,
    category: string,
    price: string,
    offerPrice: string,
    images: seq<string>,
    createdBy: Option<string>,
    createdAt: int)

  /** The `products` collection, in the order documents were added. */
  class Catalog {
    var products: seq<ProductDoc>

    constructor ()
      ensures products == []
    {
      products := [];
    }
  }

  datatype SelectOutcome = NoFile | TooManyImages | ImageAdded

  datatype SubmitOutcome = NoImages | ProductAdded

  /** The form's text inputs and its category select. */
  datatype ProductField = Name | Description | Category | Price | OfferPrice

  class AddProductForm {
    var files: seq<FileRef>
    var previews: seq<string>
    var name: string
    var description: string
    var category: string
    var price: string
    var offerPrice: string

    /** At most four images, each with its preview at the same index. */
    ghost predicate Valid()
      reads this
    {
      |files| <= MaxImages && |files| == |previews|
    }

    /** No images, empty texts, the default category. */
    predicate IsBlank()
      reads this
    {
      && files == [] && previews == []
      && name == "" && description == "" && category == DefaultCategory
      && price == "" && offerPrice == ""
    }

    constructor ()
      ensures Valid() && IsBlank()
    {
      files, previews := [], [];
      name, description, category, price, offerPrice := "", "", DefaultCategory, "", "";
    }

    /**
     * `handleImageSelect`: no file chosen changes nothing; with four images
     * held the choice is refused; otherwise the file and its preview are
     * appended.
     */
    method HandleImageSelect(file: Option<FileRef>, preview: string) returns (outcome: SelectOutcome)
      requires Valid()
      modifies this`files, this`previews
      ensures Valid()
      ensures outcome == NoFile <==> file.None?
      ensures outcome == TooManyImages <==> file.Some? && |old(files)| >= MaxImages
      ensures outcome == ImageAdded ==> files == old(files) + [file.value] && previews == old(previews) + [preview]
      ensures outcome != ImageAdded ==> files == old(files) && previews == old(previews)
    {
      if file.None? {
        return NoFile;
      }
      if |files| >= MaxImages {
        return TooManyImages;
      }
      files := files + [file.value];
      previews := previews + [preview];
      outcome := ImageAdded;
    }

    /** `removeImage`: the same index leaves both lists, so they stay paired. */
    method RemoveImage(index: int)
      requires Valid()
      modifies this`files, this`previews
      ensures Valid()
      ensures files == RemoveIndex(old(files), index)
      ensures previews == RemoveIndex(old(previews), index)
    {
      files := RemoveIndex(files, index);
      previews := RemoveIndex(previews, index);
    }

    /** Typing into an input, or choosing a category, sets that field only. */
    method FieldChanged(field: ProductField, text: string)
      requires Valid()
      modifies this`name, this`description, this`category, this`price, this`offerPrice
      ensures Valid()
      ensures name == (if field == Name then text else old(name))
      ensures description == (if field == Description then text else old(description))
      ensures category == (if field == Category then text else old(category))
      ensures price == (if field == Price then text else old(price))
      ensures offerPrice == (if field == OfferPrice then text else old(offerPrice))
    {
      match field
      case Name => name := text;
      case Description => description := text;
      case Category => category := text;
      case Price => price := text;
      case OfferPrice => offerPrice := text;
    }

    /**
     * `handleSubmit`: refused before any upload when no image is held;
     * otherwise the images are uploaded, the product document is added with
     * their URLs, and the form is reset.
     */
    method HandleSubmit(upload: FileRef -> string, createdBy: Option<string>, now: int, catalog: Catalog)
      returns (outcome: SubmitOutcome)
      requires Valid()
      modifies this, catalog
      ensures Valid()
      ensures outcome == NoImages <==> old(files) == []
      ensures outcome == NoImages ==> unchanged(this) && catalog.products == old(catalog.products)
      ensures outcome == ProductAdded ==>
                && catalog.products == old(catalog.products) + [ProductDoc(
                     old(name), old(description), old(category), old(price), old(offerPrice),
                     UploadAll(old(files), upload), createdBy, now)]
                && IsBlank()
    {
      if |files| == 0 {
        return NoImages;
      }
      var images := UploadAll(files, upload);
      catalog.products := catalog.products + [ProductDoc(name, description, category, price, offerPrice, images, createdBy, now)];
      files, previews := [], [];
      name, description, category, price, offerPrice := "", "", DefaultCategory, "", "";
      outcome := ProductAdded;
    }
  }
}
