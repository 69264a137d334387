/**
  The new-pet form of app/add-new-pet/index.jsx: the form edited key by key,
  the category list with its leading 'None' entry, the ordered required-field
  checks, and the record written to the `Pets` collection.
 */
module AddNewPet {
  import opened Js

  /** The form state: one string per input, looked up by key. */
  type Form = map<string, string>

  const InitialForm: Form := map[
    "name" := "", "username" := "", "breed" := "", "age" := "", "weight" := "",
    "sex" := "", "category" := "None", "price" := "", "address" := "", "about" := "",
    "ownerName" := "", "ownerContact" := "", "ownerAddress" := ""]

  const FormKeys: set<string> := {
    "name", "username", "breed", "age", "weight", "sex", "category",
    "price", "address", "about", "ownerName", "ownerContact", "ownerAddress"
  }

  predicate WellFormed(form: Form) {
    FormKeys <= form.Keys
  }

  /** `handleChange(key, value)`: `{ ...prev, [key]: value }`. */
  function HandleChange(form: Form, key: string, value: string): (r: Form)
    ensures key in r && r[key] == value
    ensures r.Keys == form.Keys + {key}
    ensures forall k :: k in form && k != key ==> r[k] == form[k]
    ensures WellFormed(form) ==> WellFormed(r)
  {
    form[key := value]
  }

  // ------------------------------------------------------------ categories

  datatype CategoryData = CategoryData(id: Option<string>, name: string, imageUrl: string)
  datatype CategoryDoc = CategoryDoc(docId: string, data: CategoryData)
  datatype Category = Category(id: string, name: string, imageUrl: string)

  const NoneCategory := Category("none", "None", "https://cdn-icons-png.flaticon.com/512/1828/1828843.png")

  /** `{ id: doc.id, ...doc.data() }`: an `id` in the data overrides the document id. */
  function CategoryEntry(d: CategoryDoc): (c: Category)
    ensures c.name == d.data.name && c.imageUrl == d.data.imageUrl
    ensures c.id == if d.data.id.Some? then d.data.id.value else d.docId
  {
    Category(if d.data.id.Some? then d.data.id.value else d.docId, d.data.name, d.data.imageUrl)
  }

  /** `getCategories`: one entry per fetched document, in fetch order, after the 'None' entry. */
  method BuildCategoryList(docs: seq<CategoryDoc>) returns (list: seq<Category>)
    ensures |list| == |docs| + 1
    ensures list[0] == NoneCategory
    ensures forall i :: 0 <= i < |docs| ==> list[i + 1] == CategoryEntry(docs[i])
  {
    var categories: seq<Category> := [];
    var i := 0;
    while i < |docs|
      invariant 0 <= i <= |docs|
      invariant |categories| == i
      invariant forall j :: 0 <= j < i ==> categories[j] == CategoryEntry(docs[j])
    {
      categories := categories + [CategoryEntry(docs[i])];
      i := i + 1;
    }
    list := [NoneCategory] + categories;
  }

  // ------------------------------------------------------------ submitting

  datatype FormError = NameRequired | ImageRequired | SexRequired | CategoryRequired

  /** The required-field checks of `handleSubmit`, in order; the first failure is reported. */
  function Validate(form: Form, image: Option<string>): (r: Option<FormError>)
    requires WellFormed(form)
    ensures r == Some(NameRequired) <==> Trim(form["name"]) == ""
    ensures r == Some(ImageRequired) <==> Trim(form["name"]) != "" && !Truthy(image)
    ensures r == Some(SexRequired) <==> Trim(form["name"]) != "" && Truthy(image) && form["sex"] == ""
    ensures r == Some(CategoryRequired) <==>
              Trim(form["name"]) != "" && Truthy(image) && form["sex"] != "" && form["category"] == ""
    ensures r.None? ==> Trim(form["name"]) != "" && Truthy(image) && form["sex"] != "" && form["category"] != ""
  {
    if Trim(form["name"]) == "" then Some(NameRequired)
    else if !Truthy(image) then Some(ImageRequired)
    else if form["sex"] == "" then Some(SexRequired)
    else if form["category"] == "" then Some(CategoryRequired)
    else None
  }

  /** The initial form always fails, on the pet name first. */
  lemma InitialFormNeedsName(image: Option<string>)
    ensures WellFormed(InitialForm) && Validate(InitialForm, image) == Some(NameRequired)
  {
    assert WellFormed(InitialForm);
    assert InitialForm["name"] == "";
    assert Trim(InitialForm["name"]) == "";
  }

  /** The `Pets` record. */
  datatype PetData = PetData(
    name: string, username: string, breed: string, age: string, weight: string,
    sex: string, category: string, price: string, address: string, about: string,
    ownerName: string, ownerContact: string, ownerAddress: string,
    imageUrl: string, postedDate: string, status: string)

  /** The stored category: 'None' means no category. */
  function StoredCategory(category: string): (r: string)
    ensures category == "None" ==> r == ""
    ensures category != "None" ==> r == category
  {
    if category == "None" then "" else category
  }

  /** `petData`: the trimmed text fields, the sex as chosen, the picked image, status 'available'. */
  function BuildPetData(form: Form, image: string, nowIso: string): (d: PetData)
    requires WellFormed(form)
    ensures d.status == "available" && d.imageUrl == image && d.postedDate == nowIso
    ensures d.sex == form["sex"] && d.category == StoredCategory(form["category"])
  {
    PetData(
      name := Trim(form["name"]), username := Trim(form["username"]), breed := Trim(form["breed"]),
      age := Trim(form["age"]), weight := Trim(form["weight"]),
      sex := form["sex"], category := StoredCategory(form["category"]),
      price := Trim(form["price"]), address := Trim(form["address"]), about := Trim(form["about"]),
      ownerName := Trim(form["ownerName"]), ownerContact := Trim(form["ownerContact"]),
      ownerAddress := Trim(form["ownerAddress"]),
      imageUrl := image, postedDate := nowIso, status := "available")
  }

  /** A text field of the record has no white space at either end. */
  predicate Trimmed(s: string) {
    Trim(s) == s
  }

  /**
    Every text field of the record is the trimmed form value, so it has no white
    space at either end, and a valid form gives a non-empty name.
   */
  lemma PetDataTrimmed(form: Form, image: string, nowIso: string)
    requires WellFormed(form)
    ensures var d := BuildPetData(form, image, nowIso);
            && d.name == Trim(form["name"]) && d.username == Trim(form["username"])
            && d.breed == Trim(form["breed"]) && d.age == Trim(form["age"]) && d.weight == Trim(form["weight"])
            && d.price == Trim(form["price"]) && d.address == Trim(form["address"]) && d.about == Trim(form["about"])
            && d.ownerName == Trim(form["ownerName"]) && d.ownerContact == Trim(form["ownerContact"])
            && d.ownerAddress == Trim(form["ownerAddress"])
    ensures var d := BuildPetData(form, image, nowIso);
            && Trimmed(d.name) && Trimmed(d.username) && Trimmed(d.breed) && Trimmed(d.age)
            && Trimmed(d.weight) && Trimmed(d.price) && Trimmed(d.address) && Trimmed(d.about)
            && Trimmed(d.ownerName) && Trimmed(d.ownerContact) && Trimmed(d.ownerAddress)
    ensures Validate(form, Some(image)).None? ==> BuildPetData(form, image, nowIso).name != ""
  {
    TrimIdempotent(form["name"]);
    TrimIdempotent(form["username"]);
    TrimIdempotent(form["breed"]);
    TrimIdempotent(form["age"]);
    TrimIdempotent(form["weight"]);
    TrimIdempotent(form["price"]);
    TrimIdempotent(form["address"]);
    TrimIdempotent(form["about"]);
    TrimIdempotent(form["ownerName"]);
    TrimIdempotent(form["ownerContact"]);
    TrimIdempotent(form["ownerAddress"]);
  }

  /**
    A form that passed validation never stores the placeholder 'None': its
    category is stored as chosen, or as no category when 'None' was chosen.
   */
  lemma ValidFormCategoryStored(form: Form, image: string, nowIso: string)
    requires WellFormed(form)
    requires Validate(form, Some(image)).None?
    ensures var c := BuildPetData(form, image, nowIso).category;
            && c != "None"
            && (c == "" <==> form["category"] == "None")
            && (form["category"] != "None" ==> c == form["category"])
  {
  }

  /** The `Pets` collection; `addDoc` appends. */
  class PetStore {
    var pets: seq<PetData>

    constructor (pets: seq<PetData>)
      ensures this.pets == pets
    {
      this.pets := pets;
    }
  }

  datatype SubmitStart = Invalid(error: FormError) | Pending(data: PetData)

  /** The add-pet screen's state. */
  class NewPetScreen {
    var form: Form
    var image: Option<string>
    var categoryList: seq<Category>
    var isSubmitting: bool

    ghost predicate Valid()
      reads this
    {
      WellFormed(form)
    }

    constructor ()
      ensures Valid()
      ensures form == InitialForm && image.None? && categoryList == [] && !isSubmitting
    {
      form := InitialForm;
      image := None;
      categoryList := [];
      isSubmitting := false;
    }

    method Change(key: string, value: string)
      requires Valid()
      modifies this
      ensures Valid()
      ensures form == HandleChange(old(form), key, value)
      ensures image == old(image) && categoryList == old(categoryList) && isSubmitting == old(isSubmitting)
    {
      form := form[key := value];
    }

    /** The picker result replaces the image unless the picker was cancelled. */
    method PickImage(canceled: bool, uri: string)
      requires Valid()
      modifies this
      ensures Valid()
      ensures image == if canceled then old(image) else Some(uri)
      ensures form == old(form) && categoryList == old(categoryList) && isSubmitting == old(isSubmitting)
    {
      if !canceled {
        image := Some(uri);
      }
    }

    /** The mount effect: a failed fetch leaves the list as it was. */
    method LoadCategories(docs: seq<CategoryDoc>, fetchOk: bool)
      requires Valid()
      modifies this
      ensures Valid()
      ensures fetchOk ==> |categoryList| == |docs| + 1 && categoryList[0] == NoneCategory &&
                          forall i :: 0 <= i < |docs| ==> categoryList[i + 1] == CategoryEntry(docs[i])
      ensures !fetchOk ==> categoryList == old(categoryList)
      ensures form == old(form) && image == old(image) && isSubmitting == old(isSubmitting)
    {
      if fetchOk {
        categoryList := BuildCategoryList(docs);
      }
    }

    /**
      `handleSubmit` up to the write: a failed check returns at once and changes
      nothing; otherwise `isSubmitting` is set and the record to add is built.
     */
    method BeginSubmit(nowIso: string) returns (r: SubmitStart)
      requires Valid()
      modifies this
      ensures Valid()
      ensures unchanged(this`form, this`image, this`categoryList)
      ensures Validate(form, image).Some? ==> r == Invalid(Validate(form, image).value) && isSubmitting == old(isSubmitting)
      ensures Validate(form, image).None? ==> r == Pending(BuildPetData(form, image.value, nowIso)) && isSubmitting
    {
      var error := Validate(form, image);
      if error.Some? {
        return Invalid(error.value);
      }
      assert Truthy(image);
      var data := BuildPetData(form, image.value, nowIso);
      isSubmitting := true;
      r := Pending(data);
    }

    /** The write and the `finally`: `isSubmitting` is cleared on success and on failure. */
    method FinishSubmit(store: PetStore, data: PetData, writeOk: bool)
      requires Valid() && isSubmitting
      modifies this, store
      ensures Valid() && !isSubmitting
      ensures store.pets == if writeOk then old(store.pets) + [data] else old(store.pets)
      ensures form == old(form) && image == old(image) && categoryList == old(categoryList)
    {
      if writeOk {
        store.pets := store.pets + [data];
      }
      isSubmitting := false;
    }
  }
}
