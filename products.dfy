/** The product list and editor page: field resolution over several
    possible column names, the form-to-column mapping on save, the reverse
    mapping on edit, the client-side search, and the page state its handlers
    update. */
module Products {
  import opened Js
  import opened Supabase
  import opened Outcomes

  /** `v !== null && v !== undefined && v !== ''` */
  predicate Present(v: Value) {
    v != Null && v != Undefined && v != Str("")
  }

  /** `keys[i]` is the first listed key whose value in `row` is present. */
  predicate IsFirstPresent(row: Row, keys: seq<string>, i: int) {
    0 <= i < |keys| && Present(Get(row, keys[i])) &&
    forall j :: 0 <= j < i ==> !Present(Get(row, keys[j]))
  }

  /** The position of the first listed key whose value is present. */
  function FirstPresent(row: Row, keys: seq<string>): (r: Option<nat>)
    ensures r.Some? ==> IsFirstPresent(row, keys, r.value)
    ensures r.None? ==> forall j :: 0 <= j < |keys| ==> !Present(Get(row, keys[j]))
  {
    if keys == [] then None
    else if Present(Get(row, keys[0])) then Some(0)
    else match FirstPresent(row, keys[1..])
      case None => None
      case Some(i) => Some(i + 1)
  }

  /** `getFieldValue(row, ...keys)`: the first present value, else `null`. */
  function GetFieldValue(row: Row, keys: seq<string>): (v: Value)
    ensures v == Null || Present(v)
    ensures Present(v) <==> exists i :: 0 <= i < |keys| && Present(Get(row, keys[i]))
    ensures forall i :: IsFirstPresent(row, keys, i) ==> v == Get(row, keys[i])
  {
    match FirstPresent(row, keys)
    case Some(i) => Get(row, keys[i])
    case None => Null
  }

  /** `getValue(row, ...keys)` in `handleEdit`: the same search, yielding `''` when nothing is present. */
  function GetValue(row: Row, keys: seq<string>): (v: Value)
    ensures v == Str("") || Present(v)
    ensures Present(v) <==> exists i :: 0 <= i < |keys| && Present(Get(row, keys[i]))
    ensures forall i :: IsFirstPresent(row, keys, i) ==> v == Get(row, keys[i])
  {
    match FirstPresent(row, keys)
    case Some(i) => Get(row, keys[i])
    case None => Str("")
  }

  /** The two helpers differ only in what they return when nothing is present. */
  lemma GetValueIsGetFieldValue(row: Row, keys: seq<string>)
    ensures GetValue(row, keys) ==
      (if GetFieldValue(row, keys) == Null then Str("") else GetFieldValue(row, keys))
  {
  }

  // Column names tried for each field, in the order the page tries them.
  const NameKeys := ["product_brand_name", "product_name", "name", "product", "Product Name", "brand"]
  const BrandKeys := ["brand", "Brand", "product_brand_name"]
  const GenericNameKeys := ["generic_name", "genericName", "Generic Name"]
  const ManufacturerKeys := ["manufacturer_name", "manufacturer", "Manufacturer"]
  const CountryKeys := ["manufacturer_country", "country", "Country"]
  const StrengthKeys := ["dosage_strength", "strength", "Strength"]
  const LicenseExpiryKeys := ["expiry_date", "license_expiry_date", "licenseExpiryDate", "License Expiry Date"]

  // Further column names `handleEdit` tries, in its order.
  const GtinKeys := ["gtin"]
  const EditNameKeys := ["product_brand_name", "product_name", "name", "product", "Product Name"]
  const RegistrationNoKeys := ["registration_no", "rfda_reg_no", "registration_number", "Registration No"]
  const RegistrationDateKeys := ["registration_date", "Registration Date"]
  const DosageFormKeys := ["dosage_form", "dosageForm", "Dosage Form"]
  const PackSizeKeys := ["pack_size", "packSize", "Pack Size"]
  const ExpiryDateKeys := ["expiry_date", "expiryDate", "Expiry Date"]
  const ShelfLifeKeys := ["shelf_life", "shelfLife", "Shelf Life"]
  const PackagingTypeKeys := ["packaging_type", "packagingType", "Packaging Type"]
  const AuthHolderKeys := ["marketing_authorization_holder", "marketing_auth_holder", "marketingAuthHolder", "Marketing Auth Holder"]
  const TechRepKeys := ["local_technical_representative", "local_tech_rep", "localTechRep", "Local Tech Rep"]

  /** `getProductName`: never null or empty, `'N/A'` when no name column is present. */
  function ProductName(p: Row): (v: Value)
    ensures Truthy(v)
    ensures Truthy(GetFieldValue(p, NameKeys)) ==> v == GetFieldValue(p, NameKeys)
    ensures !Truthy(GetFieldValue(p, NameKeys)) ==> v == Str("N/A")
  {
    Or(GetFieldValue(p, NameKeys), Str("N/A"))
  }

  /** `getManufacturer`: never null or empty, `'N/A'` when no manufacturer column is present. */
  function Manufacturer(p: Row): (v: Value)
    ensures Truthy(v)
    ensures Truthy(GetFieldValue(p, ManufacturerKeys)) ==> v == GetFieldValue(p, ManufacturerKeys)
    ensures !Truthy(GetFieldValue(p, ManufacturerKeys)) ==> v == Str("N/A")
  {
    Or(GetFieldValue(p, ManufacturerKeys), Str("N/A"))
  }

  /** `getBrand`, `getCountry`, `getStrength`, `getLicenseExpiryDate`:
      the first present column of their list, else `null`. */
  function Brand(p: Row): (v: Value)
    ensures v == Null <==> forall i :: 0 <= i < |BrandKeys| ==> !Present(Get(p, BrandKeys[i]))
    ensures forall i :: IsFirstPresent(p, BrandKeys, i) ==> v == Get(p, BrandKeys[i])
    ensures v != Null ==> v in {Get(p, "brand"), Get(p, "Brand"), Get(p, "product_brand_name")}
  {
    var v := GetFieldValue(p, BrandKeys);
    FirstPresentIsListed(p, BrandKeys);
    v
  }

  function Country(p: Row): (v: Value)
    ensures v == Null <==> forall i :: 0 <= i < |CountryKeys| ==> !Present(Get(p, CountryKeys[i]))
    ensures forall i :: IsFirstPresent(p, CountryKeys, i) ==> v == Get(p, CountryKeys[i])
    ensures v != Null ==> v in {Get(p, "manufacturer_country"), Get(p, "country"), Get(p, "Country")}
  {
    var v := GetFieldValue(p, CountryKeys);
    FirstPresentIsListed(p, CountryKeys);
    v
  }

  function Strength(p: Row): (v: Value)
    ensures v == Null <==> forall i :: 0 <= i < |StrengthKeys| ==> !Present(Get(p, StrengthKeys[i]))
    ensures forall i :: IsFirstPresent(p, StrengthKeys, i) ==> v == Get(p, StrengthKeys[i])
    ensures v != Null ==> v in {Get(p, "dosage_strength"), Get(p, "strength"), Get(p, "Strength")}
  {
    var v := GetFieldValue(p, StrengthKeys);
    FirstPresentIsListed(p, StrengthKeys);
    v
  }

  function LicenseExpiryDate(p: Row): (v: Value)
    ensures v == Null <==> forall i :: 0 <= i < |LicenseExpiryKeys| ==> !Present(Get(p, LicenseExpiryKeys[i]))
    ensures forall i :: IsFirstPresent(p, LicenseExpiryKeys, i) ==> v == Get(p, LicenseExpiryKeys[i])
    ensures v != Null ==> v in {Get(p, "expiry_date"), Get(p, "license_expiry_date"),
                                Get(p, "licenseExpiryDate"), Get(p, "License Expiry Date")}
  {
    var v := GetFieldValue(p, LicenseExpiryKeys);
    FirstPresentIsListed(p, LicenseExpiryKeys);
    v
  }

  /** A present field value is read from one of the listed columns. */
  lemma FirstPresentIsListed(p: Row, keys: seq<string>)
    ensures GetFieldValue(p, keys) != Null ==>
      exists i :: 0 <= i < |keys| && GetFieldValue(p, keys) == Get(p, keys[i])
  {
    var r := FirstPresent(p, keys);
    if r.Some? {
      assert GetFieldValue(p, keys) == Get(p, keys[r.value]);
    }
  }

  /** A present `expiry_date` is shown as the license expiry date, ahead of
      any `license_expiry_date`; without it, `license_expiry_date` is shown
      when present. */
  lemma ExpiryDateShadowsLicenseExpiry(p: Row)
    ensures Present(Get(p, "expiry_date")) ==> LicenseExpiryDate(p) == p["expiry_date"]
    ensures !Present(Get(p, "expiry_date")) && Present(Get(p, "license_expiry_date")) ==>
      LicenseExpiryDate(p) == p["license_expiry_date"]
  {
    if Present(Get(p, "expiry_date")) {
      assert IsFirstPresent(p, LicenseExpiryKeys, 0);
    } else if Present(Get(p, "license_expiry_date")) {
      assert IsFirstPresent(p, LicenseExpiryKeys, 1);
    }
  }

  /** A row with no brand column shows its product brand name as the brand. */
  lemma BrandFallsBackToBrandName(p: Row)
    requires !Present(Get(p, "brand")) && !Present(Get(p, "Brand"))
    ensures Brand(p) == (if Present(Get(p, "product_brand_name")) then p["product_brand_name"] else Null)
  {
    if Present(Get(p, "product_brand_name")) {
      assert IsFirstPresent(p, BrandKeys, 2);
    }
  }

  // ---------------------------------------------------------------------
  // Search

  /** `(v || '').toLowerCase()`: `None` when `v` is a truthy non-string,
      on which the call throws. */
  function LowerOrEmpty(v: Value): (r: Option<string>)
    ensures !Truthy(v) ==> r == Some("")
    ensures Truthy(v) && v.Str? ==> r == Some(Lower(v.s))
    ensures r.None? <==> Truthy(v) && !v.Str?
  {
    if !Truthy(v) then Some("") else if v.Str? then Some(Lower(v.s)) else None
  }

  /** The lower-cased name, GTIN, brand, generic name and manufacturer the
      search looks in; all five are computed before any is tested. */
  function SearchFields(p: Row): Option<seq<string>> {
    match (LowerOrEmpty(ProductName(p)), LowerOrEmpty(Get(p, "gtin")), LowerOrEmpty(Brand(p)),
           LowerOrEmpty(GetFieldValue(p, GenericNameKeys)), LowerOrEmpty(Manufacturer(p)))
    case (Some(a), Some(b), Some(c), Some(d), Some(e)) => Some([a, b, c, d, e])
    case _ => None
  }

  /** The filter callback of `filteredProducts`. */
  function KeepProduct(term: string): Row -> Option<bool> {
    p => match SearchFields(p)
         case None => None
         case Some(fields) => Some(exists f :: f in fields && Includes(f, Lower(term)))
  }

  /** A product the search keeps: none of its five fields throws, and one
      of them contains the term, ignoring case. */
  predicate Kept(p: Row, term: string) {
    SearchFields(p).Some? && exists f :: f in SearchFields(p).value && Includes(f, Lower(term))
  }

  /** `filteredProducts`: the loaded products, in order and with their
      repetitions, whose name, GTIN, brand, generic name or manufacturer
      contains the term, ignoring case. */
  function FilterProducts(products: seq<Row>, term: string): (r: Option<seq<Row>>)
    ensures r.Some? <==> forall i :: 0 <= i < |products| ==> SearchFields(products[i]).Some?
    ensures r.Some? ==> Subsequence(r.value, products)
    ensures r.Some? ==> forall p :: p in r.value <==> p in products && Kept(p, term)
    ensures r.Some? ==> forall p :: multiset(r.value)[p] == if Kept(p, term) then multiset(products)[p] else 0
  {
    var r := FilterOrThrow(products, KeepProduct(term));
    KeptProducts(products, term, r);
    r
  }

  lemma KeptProducts(products: seq<Row>, term: string, r: Option<seq<Row>>)
    requires r == FilterOrThrow(products, KeepProduct(term))
    ensures r.Some? ==> forall p :: p in r.value <==> p in products && Kept(p, term)
    ensures r.Some? ==> forall p :: multiset(r.value)[p] == if Kept(p, term) then multiset(products)[p] else 0
  {
    if r.Some? {
      forall p
        ensures p in r.value <==> p in products && Kept(p, term)
        ensures multiset(r.value)[p] == if Kept(p, term) then multiset(products)[p] else 0
      {
        assert p in products ==> (KeepProduct(term)(p) == Some(true) <==> Kept(p, term));
      }
    }
  }

  /** An empty search term keeps every product. */
  lemma EmptyTermKeepsAll(products: seq<Row>)
    requires forall i :: 0 <= i < |products| ==> SearchFields(products[i]).Some?
    ensures FilterProducts(products, "") == Some(products)
  {
    forall i | 0 <= i < |products|
      ensures KeepProduct("")(products[i]) == Some(true)
    {
      var fields := SearchFields(products[i]).value;
      assert fields[0] in fields && Includes(fields[0], Lower(""));
    }
    FilterKeepingAll(products, KeepProduct(""));
  }

  // ---------------------------------------------------------------------
  // The editor form

  datatype ProductForm = ProductForm(
    gtin: Value,
    productName: Value,
    brand: Value,
    genericName: Value,
    manufacturer: Value,
    country: Value,
    registrationNo: Value,
    registrationDate: Value,
    licenseExpiryDate: Value,
    dosageForm: Value,
    strength: Value,
    packSize: Value,
    expiryDate: Value,
    shelfLife: Value,
    packagingType: Value,
    marketingAuthorizationHolder: Value,
    localTechnicalRepresentative: Value)

  /** The form's initial and reset value: every field `''`. */
  const EmptyForm := ProductForm(
    Str(""), Str(""), Str(""), Str(""), Str(""), Str(""), Str(""), Str(""), Str(""),
    Str(""), Str(""), Str(""), Str(""), Str(""), Str(""), Str(""), Str(""))

  /** Every field holds text, as the form's inputs produce. */
  predicate TextForm(f: ProductForm) {
    f.gtin.Str? && f.productName.Str? && f.brand.Str? && f.genericName.Str? &&
    f.manufacturer.Str? && f.country.Str? && f.registrationNo.Str? &&
    f.registrationDate.Str? && f.licenseExpiryDate.Str? && f.dosageForm.Str? &&
    f.strength.Str? && f.packSize.Str? && f.expiryDate.Str? && f.shelfLife.Str? &&
    f.packagingType.Str? && f.marketingAuthorizationHolder.Str? &&
    f.localTechnicalRepresentative.Str?
  }

  /** The columns `handleSubmit` writes. */
  const SavedColumns: set<string> := {
    "gtin", "product_brand_name", "generic_name", "manufacturer_name", "manufacturer_country",
    "registration_no", "registration_date", "license_expiry_date", "dosage_form",
    "dosage_strength", "pack_size", "shelf_life", "packaging_type",
    "marketing_authorization_holder", "local_technical_representative"}

  /** `dataToSave`: the row `handleSubmit` sends for a form. */
  function SavedRow(f: ProductForm): Row
  {
    map[
      "gtin" := f.gtin,
      "product_brand_name" := f.productName,
      "generic_name" := f.genericName,
      "manufacturer_name" := f.manufacturer,
      "manufacturer_country" := f.country,
      "registration_no" := f.registrationNo,
      "registration_date" := f.registrationDate,
      "license_expiry_date" := f.licenseExpiryDate,
      "dosage_form" := f.dosageForm,
      "dosage_strength" := f.strength,
      "pack_size" := f.packSize,
      "shelf_life" := f.shelfLife,
      "packaging_type" := f.packagingType,
      "marketing_authorization_holder" := f.marketingAuthorizationHolder,
      "local_technical_representative" := f.localTechnicalRepresentative]
  }

  lemma SavedRowKeys(f: ProductForm)
    ensures SavedRow(f).Keys == SavedColumns
  {
  }

  lemma SavedRowAbsent(f: ProductForm)
    ensures "brand" !in SavedRow(f) && "expiry_date" !in SavedRow(f)
  {
  }

  /** `v` is what a form field shows for `keys`: `''` when no listed key is
      present, otherwise the first present value, itself through `|| ''`
      (a present `0` or `false` shows as `''`). */
  predicate ReadsFirstPresent(p: Row, keys: seq<string>, v: Value) {
    ((forall i :: 0 <= i < |keys| ==> !Present(Get(p, keys[i]))) ==> v == Str("")) &&
    (forall i :: 0 <= i < |keys| && IsFirstPresent(p, keys, i) ==> v == Or(Get(p, keys[i]), Str("")))
  }

  /** `getValue(product, ...keys) || ''` */
  function EditField(p: Row, keys: seq<string>): (v: Value)
    ensures ReadsFirstPresent(p, keys, v)
  {
    Or(GetValue(p, keys), Str(""))
  }

  /** The form `handleEdit` fills from a row. */
  function EditForm(p: Row): ProductForm
  {
    ProductForm(
      EditField(p, GtinKeys),
      EditField(p, EditNameKeys),
      EditField(p, BrandKeys),
      EditField(p, GenericNameKeys),
      EditField(p, ManufacturerKeys),
      EditField(p, CountryKeys),
      EditField(p, RegistrationNoKeys),
      EditField(p, RegistrationDateKeys),
      EditField(p, LicenseExpiryKeys),
      EditField(p, DosageFormKeys),
      EditField(p, StrengthKeys),
      EditField(p, PackSizeKeys),
      EditField(p, ExpiryDateKeys),
      EditField(p, ShelfLifeKeys),
      EditField(p, PackagingTypeKeys),
      EditField(p, AuthHolderKeys),
      EditField(p, TechRepKeys))
  }

  /** Each field of the edit form shows the first present of its own
      columns, in the order `handleEdit` lists them. */
  lemma EditFormReads(p: Row)
    ensures var f := EditForm(p);
      ReadsFirstPresent(p, GtinKeys, f.gtin) &&
      ReadsFirstPresent(p, EditNameKeys, f.productName) &&
      ReadsFirstPresent(p, BrandKeys, f.brand) &&
      ReadsFirstPresent(p, GenericNameKeys, f.genericName) &&
      ReadsFirstPresent(p, ManufacturerKeys, f.manufacturer) &&
      ReadsFirstPresent(p, CountryKeys, f.country) &&
      ReadsFirstPresent(p, RegistrationNoKeys, f.registrationNo) &&
      ReadsFirstPresent(p, RegistrationDateKeys, f.registrationDate) &&
      ReadsFirstPresent(p, LicenseExpiryKeys, f.licenseExpiryDate) &&
      ReadsFirstPresent(p, DosageFormKeys, f.dosageForm) &&
      ReadsFirstPresent(p, StrengthKeys, f.strength) &&
      ReadsFirstPresent(p, PackSizeKeys, f.packSize) &&
      ReadsFirstPresent(p, ExpiryDateKeys, f.expiryDate) &&
      ReadsFirstPresent(p, ShelfLifeKeys, f.shelfLife) &&
      ReadsFirstPresent(p, PackagingTypeKeys, f.packagingType) &&
      ReadsFirstPresent(p, AuthHolderKeys, f.marketingAuthorizationHolder) &&
      ReadsFirstPresent(p, TechRepKeys, f.localTechnicalRepresentative)
  {
  }

  /** No key that `handleEdit` reads and `handleSubmit` never writes holds
      a present value. */
  predicate NoAliases(row: Row) {
    !Present(Get(row, "product_name")) &&
    !Present(Get(row, "name")) &&
    !Present(Get(row, "product")) &&
    !Present(Get(row, "Product Name")) &&
    !Present(Get(row, "brand")) &&
    !Present(Get(row, "Brand")) &&
    !Present(Get(row, "genericName")) &&
    !Present(Get(row, "Generic Name")) &&
    !Present(Get(row, "manufacturer")) &&
    !Present(Get(row, "Manufacturer")) &&
    !Present(Get(row, "country")) &&
    !Present(Get(row, "Country")) &&
    !Present(Get(row, "rfda_reg_no")) &&
    !Present(Get(row, "registration_number")) &&
    !Present(Get(row, "Registration No")) &&
    !Present(Get(row, "Registration Date")) &&
    !Present(Get(row, "expiry_date")) &&
    !Present(Get(row, "licenseExpiryDate")) &&
    !Present(Get(row, "License Expiry Date")) &&
    !Present(Get(row, "dosageForm")) &&
    !Present(Get(row, "Dosage Form")) &&
    !Present(Get(row, "strength")) &&
    !Present(Get(row, "Strength")) &&
    !Present(Get(row, "packSize")) &&
    !Present(Get(row, "Pack Size")) &&
    !Present(Get(row, "expiryDate")) &&
    !Present(Get(row, "Expiry Date")) &&
    !Present(Get(row, "shelfLife")) &&
    !Present(Get(row, "Shelf Life")) &&
    !Present(Get(row, "packagingType")) &&
    !Present(Get(row, "Packaging Type")) &&
    !Present(Get(row, "marketing_auth_holder")) &&
    !Present(Get(row, "marketingAuthHolder")) &&
    !Present(Get(row, "Marketing Auth Holder")) &&
    !Present(Get(row, "local_tech_rep")) &&
    !Present(Get(row, "localTechRep")) &&
    !Present(Get(row, "Local Tech Rep"))
  }

  // What `handleSubmit` writes, column by column, in five groups.

  predicate HoldsNames(row: Row, f: ProductForm) {
    Get(row, "gtin") == f.gtin &&
    Get(row, "product_brand_name") == f.productName &&
    Get(row, "generic_name") == f.genericName
  }

  predicate HoldsMaker(row: Row, f: ProductForm) {
    Get(row, "manufacturer_name") == f.manufacturer &&
    Get(row, "manufacturer_country") == f.country &&
    Get(row, "registration_no") == f.registrationNo
  }

  predicate HoldsLicense(row: Row, f: ProductForm) {
    Get(row, "registration_date") == f.registrationDate &&
    Get(row, "license_expiry_date") == f.licenseExpiryDate &&
    Get(row, "dosage_form") == f.dosageForm
  }

  predicate HoldsPack(row: Row, f: ProductForm) {
    Get(row, "dosage_strength") == f.strength &&
    Get(row, "pack_size") == f.packSize &&
    Get(row, "shelf_life") == f.shelfLife
  }

  predicate HoldsHolders(row: Row, f: ProductForm) {
    Get(row, "packaging_type") == f.packagingType &&
    Get(row, "marketing_authorization_holder") == f.marketingAuthorizationHolder &&
    Get(row, "local_technical_representative") == f.localTechnicalRepresentative
  }

  /** `row` holds, column by column, what `handleSubmit` writes for `f`:
      the product name under `product_brand_name`, the manufacturer under
      `manufacturer_name`, the country under `manufacturer_country`, the
      strength under `dosage_strength`, every other field under its own
      snake-case column. */
  predicate HoldsSaved(row: Row, f: ProductForm) {
    HoldsNames(row, f) && HoldsMaker(row, f) && HoldsLicense(row, f) &&
    HoldsPack(row, f) && HoldsHolders(row, f)
  }

  /** A stored row whose saved columns override whatever else it holds
      (`other`: its id, its timestamps, any further columns). */
  lemma SavedColumnsReadBack(f: ProductForm, other: Row, row: Row)
    requires row == other + SavedRow(f)
    ensures HoldsSaved(row, f)
  {
    NamesReadBack(f, other, row);
    MakerReadBack(f, other, row);
    LicenseReadBack(f, other, row);
    PackReadBack(f, other, row);
    HoldersReadBack(f, other, row);
  }

  lemma NamesReadBack(f: ProductForm, other: Row, row: Row)
    requires row == other + SavedRow(f)
    ensures HoldsNames(row, f)
  {
  }

  lemma MakerReadBack(f: ProductForm, other: Row, row: Row)
    requires row == other + SavedRow(f)
    ensures HoldsMaker(row, f)
  {
  }

  lemma LicenseReadBack(f: ProductForm, other: Row, row: Row)
    requires row == other + SavedRow(f)
    ensures HoldsLicense(row, f)
  {
  }

  lemma PackReadBack(f: ProductForm, other: Row, row: Row)
    requires row == other + SavedRow(f)
    ensures HoldsPack(row, f)
  {
  }

  lemma HoldersReadBack(f: ProductForm, other: Row, row: Row)
    requires row == other + SavedRow(f)
    ensures HoldsHolders(row, f)
  {
  }

  /** Saving and then editing: a row holding the columns `handleSubmit`
      wrote, and none of the alias keys, gives back every form field except
      `brand`, which becomes the product name, and `expiry_date`, which
      becomes `''`. */
  lemma EditAfterSave(f: ProductForm, other: Row, row: Row)
    requires TextForm(f)
    requires row == other + SavedRow(f)
    requires NoAliases(row)
    ensures EditForm(row) == f.(brand := f.productName, expiryDate := Str(""))
  {
    SavedColumnsReadBack(f, other, row);
    EditAfterSaveHolding(f, row);
  }

  lemma EditAfterSaveHolding(f: ProductForm, row: Row)
    requires TextForm(f)
    requires HoldsSaved(row, f)
    requires NoAliases(row)
    ensures EditForm(row) == f.(brand := f.productName, expiryDate := Str(""))
  {
    EditReadsNames(f, row);
    EditReadsMaker(f, row);
    EditReadsLicense(f, row);
    EditReadsPack(f, row);
    EditReadsHolders(f, row);
    EditReadsRenamed(f, row);
  }

  lemma EditReadsNames(f: ProductForm, row: Row)
    requires TextForm(f) && HoldsNames(row, f) && NoAliases(row)
    ensures EditForm(row).gtin == f.gtin
    ensures EditForm(row).productName == f.productName
    ensures EditForm(row).genericName == f.genericName
  {
    ReadsKey1Of1(row, "gtin", f.gtin.s);
    ReadsKey1Of5(row, "product_brand_name", "product_name", "name", "product", "Product Name", f.productName.s);
    ReadsKey1Of3(row, "generic_name", "genericName", "Generic Name", f.genericName.s);
  }

  lemma EditReadsMaker(f: ProductForm, row: Row)
    requires TextForm(f) && HoldsMaker(row, f) && NoAliases(row)
    ensures EditForm(row).manufacturer == f.manufacturer
    ensures EditForm(row).country == f.country
    ensures EditForm(row).registrationNo == f.registrationNo
  {
    ReadsKey1Of3(row, "manufacturer_name", "manufacturer", "Manufacturer", f.manufacturer.s);
    ReadsKey1Of3(row, "manufacturer_country", "country", "Country", f.country.s);
    ReadsKey1Of4(row, "registration_no", "rfda_reg_no", "registration_number", "Registration No", f.registrationNo.s);
  }

  lemma EditReadsLicense(f: ProductForm, row: Row)
    requires TextForm(f) && HoldsLicense(row, f) && NoAliases(row)
    ensures EditForm(row).registrationDate == f.registrationDate
    ensures EditForm(row).licenseExpiryDate == f.licenseExpiryDate
    ensures EditForm(row).dosageForm == f.dosageForm
  {
    ReadsKey1Of2(row, "registration_date", "Registration Date", f.registrationDate.s);
    // The license expiry date is read after an absent `expiry_date`.
    ReadsKey2Of4(row, "expiry_date", "license_expiry_date", "licenseExpiryDate", "License Expiry Date",
                 f.licenseExpiryDate.s);
    ReadsKey1Of3(row, "dosage_form", "dosageForm", "Dosage Form", f.dosageForm.s);
  }

  lemma EditReadsPack(f: ProductForm, row: Row)
    requires TextForm(f) && HoldsPack(row, f) && NoAliases(row)
    ensures EditForm(row).strength == f.strength
    ensures EditForm(row).packSize == f.packSize
    ensures EditForm(row).shelfLife == f.shelfLife
  {
    ReadsKey1Of3(row, "dosage_strength", "strength", "Strength", f.strength.s);
    ReadsKey1Of3(row, "pack_size", "packSize", "Pack Size", f.packSize.s);
    ReadsKey1Of3(row, "shelf_life", "shelfLife", "Shelf Life", f.shelfLife.s);
  }

  lemma EditReadsHolders(f: ProductForm, row: Row)
    requires TextForm(f) && HoldsHolders(row, f) && NoAliases(row)
    ensures EditForm(row).packagingType == f.packagingType
    ensures EditForm(row).marketingAuthorizationHolder == f.marketingAuthorizationHolder
    ensures EditForm(row).localTechnicalRepresentative == f.localTechnicalRepresentative
  {
    ReadsKey1Of3(row, "packaging_type", "packagingType", "Packaging Type", f.packagingType.s);
    ReadsKey1Of4(row, "marketing_authorization_holder", "marketing_auth_holder", "marketingAuthHolder",
                 "Marketing Auth Holder", f.marketingAuthorizationHolder.s);
    ReadsKey1Of4(row, "local_technical_representative", "local_tech_rep", "localTechRep", "Local Tech Rep",
                 f.localTechnicalRepresentative.s);
  }

  /** The two form fields that no saved column holds. */
  lemma EditReadsRenamed(f: ProductForm, row: Row)
    requires TextForm(f) && HoldsNames(row, f) && NoAliases(row)
    ensures EditForm(row).brand == f.productName
    ensures EditForm(row).expiryDate == Str("")
  {
    // The brand falls through to the product brand name.
    ReadsKey3Of3(row, "brand", "Brand", "product_brand_name", f.productName.s);
    // No saved column holds the expiry date.
    ReadsNoneOf3(row, "expiry_date", "expiryDate", "Expiry Date");
  }

  // A text field read back through `getValue(...) || ''`, for each shape
  // of key list the form uses: the listed key holds the text and every
  // other key is absent.

  lemma ReadsKey1Of1(p: Row, a: string, s: string)
    requires Get(p, a) == Str(s)
    ensures EditField(p, [a]) == Str(s)
  {
    if s != "" {
      assert IsFirstPresent(p, [a], 0);
    }
  }

  lemma ReadsKey1Of2(p: Row, a: string, b: string, s: string)
    requires Get(p, a) == Str(s) && !Present(Get(p, b))
    ensures EditField(p, [a, b]) == Str(s)
  {
    if s != "" {
      assert IsFirstPresent(p, [a, b], 0);
    }
  }

  lemma ReadsKey1Of3(p: Row, a: string, b: string, c: string, s: string)
    requires Get(p, a) == Str(s) && !Present(Get(p, b)) && !Present(Get(p, c))
    ensures EditField(p, [a, b, c]) == Str(s)
  {
    if s != "" {
      assert IsFirstPresent(p, [a, b, c], 0);
    }
  }

  lemma ReadsKey1Of4(p: Row, a: string, b: string, c: string, d: string, s: string)
    requires Get(p, a) == Str(s) && !Present(Get(p, b)) && !Present(Get(p, c)) && !Present(Get(p, d))
    ensures EditField(p, [a, b, c, d]) == Str(s)
  {
    if s != "" {
      assert IsFirstPresent(p, [a, b, c, d], 0);
    }
  }

  lemma ReadsKey1Of5(p: Row, a: string, b: string, c: string, d: string, e: string, s: string)
    requires Get(p, a) == Str(s) && !Present(Get(p, b)) && !Present(Get(p, c))
    requires !Present(Get(p, d)) && !Present(Get(p, e))
    ensures EditField(p, [a, b, c, d, e]) == Str(s)
  {
    if s != "" {
      assert IsFirstPresent(p, [a, b, c, d, e], 0);
    }
  }

  lemma ReadsKey2Of4(p: Row, a: string, b: string, c: string, d: string, s: string)
    requires !Present(Get(p, a)) && Get(p, b) == Str(s) && !Present(Get(p, c)) && !Present(Get(p, d))
    ensures EditField(p, [a, b, c, d]) == Str(s)
  {
    if s != "" {
      assert IsFirstPresent(p, [a, b, c, d], 1);
    }
  }

  lemma ReadsNoneOf3(p: Row, a: string, b: string, c: string)
    requires !Present(Get(p, a)) && !Present(Get(p, b)) && !Present(Get(p, c))
    ensures EditField(p, [a, b, c]) == Str("")
  {
    assert forall i :: 0 <= i < 3 ==> !Present(Get(p, [a, b, c][i]));
  }

  lemma ReadsKey3Of3(p: Row, a: string, b: string, c: string, s: string)
    requires !Present(Get(p, a)) && !Present(Get(p, b)) && Get(p, c) == Str(s)
    ensures EditField(p, [a, b, c]) == Str(s)
  {
    if s != "" {
      assert IsFirstPresent(p, [a, b, c], 2);
    }
  }

  // ---------------------------------------------------------------------
  // Page state and handlers

  class Page {
    var products: seq<Row>
    var loading: bool
    var searchTerm: string
    var showModal: bool
    var editingProduct: Option<Row>
    var formData: ProductForm

    constructor ()
      ensures products == [] && loading && searchTerm == ""
      ensures !showModal && editingProduct == None && formData == EmptyForm
    {
      products := [];
      loading := true;
      searchTerm := "";
      showModal := false;
      editingProduct := None;
      formData := EmptyForm;
    }

    /** The rows the table shows: `filteredProducts`. */
    function Filtered(): Option<seq<Row>>
      reads this
    {
      FilterProducts(products, searchTerm)
    }

    /** `fetchProducts`, given the settled result of its query: the rows
        replace the list (null rows as an empty list), an error leaves the
        list as it was, and loading ends either way. */
    method FetchProducts(result: RowsResult) returns (query: Select, failed: bool)
      modifies this`products, this`loading
      ensures query == Select("products", Order("id", true), None)
      ensures !loading
      ensures failed == result.error.Some?
      ensures products == if failed then old(products) else result.data.GetOr([])
    {
      query := Select("products", Order("id", true), None);
      failed := result.error.Some?;
      if !failed {
        products := result.data.GetOr([]);
      }
      loading := false;
    }

    method SetSearchTerm(term: string)
      modifies this`searchTerm
      ensures searchTerm == term
    {
      searchTerm := term;
    }

    /** `resetForm` */
    method ResetForm()
      modifies this`formData
      ensures formData == EmptyForm
    {
      formData := EmptyForm;
    }

    /** The add button: a blank form for a new product. */
    method OpenCreate()
      modifies this`formData, this`editingProduct, this`showModal
      ensures formData == EmptyForm && editingProduct == None && showModal
    {
      ResetForm();
      editingProduct := None;
      showModal := true;
    }

    /** The cancel button. */
    method Cancel()
      modifies this`formData, this`editingProduct, this`showModal
      ensures formData == EmptyForm && editingProduct == None && !showModal
    {
      showModal := false;
      editingProduct := None;
      ResetForm();
    }

    /** `handleEdit` */
    method HandleEdit(product: Row)
      modifies this`formData, this`editingProduct, this`showModal
      ensures editingProduct == Some(product) && formData == EditForm(product) && showModal
    {
      editingProduct := Some(product);
      formData := EditForm(product);
      showModal := true;
    }

    /** `dataToSave`, assembled column by column. */
    static method BuildDataToSave(f: ProductForm) returns (row: Row)
      ensures row == SavedRow(f)
    {
      row := map[];
      row := row["gtin" := f.gtin];
      row := row["product_brand_name" := f.productName];
      row := row["generic_name" := f.genericName];
      row := row["manufacturer_name" := f.manufacturer];
      row := row["manufacturer_country" := f.country];
      row := row["registration_no" := f.registrationNo];
      row := row["registration_date" := f.registrationDate];
      row := row["license_expiry_date" := f.licenseExpiryDate];
      row := row["dosage_form" := f.dosageForm];
      row := row["dosage_strength" := f.strength];
      row := row["pack_size" := f.packSize];
      row := row["shelf_life" := f.shelfLife];
      row := row["packaging_type" := f.packagingType];
      row := row["marketing_authorization_holder" := f.marketingAuthorizationHolder];
      row := row["local_technical_representative" := f.localTechnicalRepresentative];
    }

    /** `handleSubmit`, given the settled result of its write: an update of
        the product being edited, or an insert. Only a success closes the
        modal, clears the edited product, resets the form and asks for a
        refetch; a failure or an update that matched nothing changes no
        state. */
    method HandleSubmit(result: RowsResult) returns (request: Write, outcome: Outcome, refetch: bool)
      modifies this`showModal, this`editingProduct, this`formData
      ensures old(editingProduct).Some? ==>
        request == Update("products", SavedRow(old(formData)), Get(old(editingProduct).value, "id")) &&
        outcome == ClassifyUpdate(result)
      ensures old(editingProduct).None? ==>
        request == Insert("products", [SavedRow(old(formData))]) &&
        outcome == ClassifyInsert(result)
      ensures refetch == outcome.Succeeded?
      ensures outcome.Succeeded? ==> !showModal && editingProduct == None && formData == EmptyForm
      ensures !outcome.Succeeded? ==> unchanged(this)
    {
      var dataToSave := BuildDataToSave(formData);
      if editingProduct.Some? {
        request := Update("products", dataToSave, Get(editingProduct.value, "id"));
        outcome := ClassifyUpdate(result);
      } else {
        request := Insert("products", [dataToSave]);
        outcome := ClassifyInsert(result);
      }
      refetch := outcome.Succeeded?;
      if refetch {
        showModal := false;
        editingProduct := None;
        ResetForm();
      }
    }

    /** `handleDelete`, given the operator's answer to the confirmation and
        the settled result of the delete. Nothing is sent without
        confirmation; only a success asks for a refetch; no page state
        changes. */
    method HandleDelete(confirmed: bool, id: Value, result: RowsResult)
      returns (request: Option<Write>, outcome: Option<Outcome>, refetch: bool)
      ensures request.Some? <==> confirmed
      ensures confirmed ==> request == Some(Delete("products", id)) &&
                            outcome == Some(ClassifyDelete(result))
      ensures !confirmed ==> outcome == None
      ensures refetch <==> outcome == Some(Succeeded)
    {
      if !confirmed {
        return None, None, false;
      }
      request := Some(Delete("products", id));
      var o := ClassifyDelete(result);
      outcome := Some(o);
      refetch := o.Succeeded?;
    }
  }
}
