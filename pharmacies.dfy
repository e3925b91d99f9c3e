/** The pharmacy list and editor page: the client-side search, the row to
    form mapping on edit, the form sent as the row on save, and the page
    state its handlers update. */
module Pharmacies {
  import opened Js
  import opened Supabase
  import opened Outcomes

  // ---------------------------------------------------------------------
  // Search

  /** `v?.toLowerCase().includes(term.toLowerCase())`: `Some(false)` for a
      missing value, `None` when `v` is not a string and the call throws. */
  function FieldMatch(v: Value, term: string): (r: Option<bool>)
    ensures v == Null || v == Undefined ==> r == Some(false)
    ensures v.Str? ==> r == Some(Includes(Lower(v.s), Lower(term)))
    ensures r.None? <==> !(v == Null || v == Undefined || v.Str?)
  {
    if v == Null || v == Undefined then Some(false)
    else if v.Str? then Some(Includes(Lower(v.s), Lower(term)))
    else None
  }

  /** The filter callback of `filteredPharmacies`: name, then address, then
      district, each tested only when the previous one did not match. */
  function KeepPharmacy(term: string): Row -> Option<bool> {
    p =>
      match FieldMatch(Get(p, "name"), term)
      case None => None
      case Some(true) => Some(true)
      case Some(false) =>
        match FieldMatch(Get(p, "address"), term)
        case None => None
        case Some(true) => Some(true)
        case Some(false) => FieldMatch(Get(p, "district"), term)
  }

  /** A pharmacy matches when its name, address or district, lower-cased,
      contains the lower-cased term. */
  predicate Matches(p: Row, term: string) {
    (Get(p, "name").Str? && Includes(Lower(Get(p, "name").s), Lower(term))) ||
    (Get(p, "address").Str? && Includes(Lower(Get(p, "address").s), Lower(term))) ||
    (Get(p, "district").Str? && Includes(Lower(Get(p, "district").s), Lower(term)))
  }

  /** When the callback does not throw, it keeps exactly the matching
      pharmacies; it throws only on a non-string field that is reached, so a
      number in `name` throws even when the address would match. */
  lemma KeepPharmacyIsMatches(p: Row, term: string)
    ensures KeepPharmacy(term)(p).Some? ==> (KeepPharmacy(term)(p) == Some(true) <==> Matches(p, term))
    ensures KeepPharmacy(term)(p) == None ==>
      !(Get(p, "name") == Null || Get(p, "name") == Undefined || Get(p, "name").Str?) ||
      !(Get(p, "address") == Null || Get(p, "address") == Undefined || Get(p, "address").Str?) ||
      !(Get(p, "district") == Null || Get(p, "district") == Undefined || Get(p, "district").Str?)
  {
  }

  /** `filteredPharmacies`: the loaded pharmacies, in order and with their
      repetitions, whose name, address or district contains the term,
      ignoring case. */
  function FilterPharmacies(pharmacies: seq<Row>, term: string): (r: Option<seq<Row>>)
    ensures r.Some? <==> forall i :: 0 <= i < |pharmacies| ==> KeepPharmacy(term)(pharmacies[i]).Some?
    ensures r.Some? ==> Subsequence(r.value, pharmacies)
    ensures r.Some? ==> forall p :: p in r.value <==> p in pharmacies && Matches(p, term)
    ensures r.Some? ==> forall p :: multiset(r.value)[p] == if Matches(p, term) then multiset(pharmacies)[p] else 0
  {
    var r := FilterOrThrow(pharmacies, KeepPharmacy(term));
    KeptAreMatches(pharmacies, term, r);
    r
  }

  lemma KeptAreMatches(pharmacies: seq<Row>, term: string, r: Option<seq<Row>>)
    requires r == FilterOrThrow(pharmacies, KeepPharmacy(term))
    ensures r.Some? ==> forall p :: p in r.value <==> p in pharmacies && Matches(p, term)
    ensures r.Some? ==> forall p :: multiset(r.value)[p] == if Matches(p, term) then multiset(pharmacies)[p] else 0
  {
    if r.Some? {
      forall p
        ensures p in r.value <==> p in pharmacies && Matches(p, term)
        ensures multiset(r.value)[p] == if Matches(p, term) then multiset(pharmacies)[p] else 0
      {
        KeepPharmacyIsMatches(p, term);
      }
    }
  }

  /** A name that is neither a string nor absent makes the whole search
      throw, whatever the address and district hold. */
  lemma NonStringNameThrows(p: Row, term: string)
    requires Get(p, "name").Num? || Get(p, "name").Bool?
    ensures KeepPharmacy(term)(p) == None
  {
  }

  /** A pharmacy with no name, address or district is excluded, even for
      the empty term. */
  lemma NoTextNeverMatches(p: Row, term: string)
    requires Get(p, "name") in {Null, Undefined}
    requires Get(p, "address") in {Null, Undefined}
    requires Get(p, "district") in {Null, Undefined}
    ensures KeepPharmacy(term)(p) == Some(false)
  {
  }

  /** With the empty term, a pharmacy is kept exactly when one of the three
      fields is a string, the empty string included. */
  lemma EmptyTermKeepsNamed(p: Row)
    ensures Matches(p, "") <==> Get(p, "name").Str? || Get(p, "address").Str? || Get(p, "district").Str?
  {
  }

  // ---------------------------------------------------------------------
  // The editor form

  datatype PharmacyForm = PharmacyForm(
    name: Value,
    address: Value,
    phone: Value,
    email: Value,
    district: Value,
    sector: Value,
    cell: Value,
    latitude: Value,
    longitude: Value,
    googleMapsLink: Value,
    isVerified: Value)

  /** The form's initial and reset value: every text field `''`, verified. */
  const EmptyForm := PharmacyForm(
    Str(""), Str(""), Str(""), Str(""), Str(""), Str(""), Str(""), Str(""), Str(""), Str(""),
    Bool(true))

  /** The row `handleSubmit` sends: the form itself, under the column names. */
  function FormRow(f: PharmacyForm): (row: Row)
    ensures row.Keys == {"name", "address", "phone", "email", "district", "sector", "cell",
                         "latitude", "longitude", "google_maps_link", "is_verified"}
    ensures row["name"] == f.name && row["address"] == f.address && row["phone"] == f.phone
    ensures row["email"] == f.email && row["district"] == f.district && row["sector"] == f.sector
    ensures row["cell"] == f.cell && row["latitude"] == f.latitude && row["longitude"] == f.longitude
    ensures row["google_maps_link"] == f.googleMapsLink && row["is_verified"] == f.isVerified
  {
    map[
      "name" := f.name, "address" := f.address, "phone" := f.phone, "email" := f.email,
      "district" := f.district, "sector" := f.sector, "cell" := f.cell,
      "latitude" := f.latitude, "longitude" := f.longitude,
      "google_maps_link" := f.googleMapsLink, "is_verified" := f.isVerified]
  }

  /** `v || ''` */
  function TextOrEmpty(v: Value): (r: Value)
    ensures Truthy(v) ==> r == v
    ensures !Truthy(v) ==> r == Str("")
  {
    Or(v, Str(""))
  }

  /** `v?.toString() || ''`: the string form, or `''` when absent. */
  function NumberText(v: Value): (r: Value)
    ensures v == Null || v == Undefined ==> r == Str("")
    ensures v.Num? ==> r == Str(v.text)
    ensures v.Str? ==> r == v
    ensures r.Str?
  {
    if v == Null || v == Undefined then Str("") else Or(Str(ToText(v)), Str(""))
  }

  /** The form `handleEdit` fills from a row. */
  function EditForm(p: Row): (f: PharmacyForm)
    ensures Get(p, "is_verified") !in {Null, Undefined} ==> f.isVerified == Get(p, "is_verified")
    ensures Get(p, "is_verified") in {Null, Undefined} ==> f.isVerified == Bool(true)
    ensures f.name == TextOrEmpty(Get(p, "name")) && f.address == TextOrEmpty(Get(p, "address"))
    ensures f.phone == TextOrEmpty(Get(p, "phone")) && f.email == TextOrEmpty(Get(p, "email"))
    ensures f.district == TextOrEmpty(Get(p, "district")) && f.sector == TextOrEmpty(Get(p, "sector"))
    ensures f.cell == TextOrEmpty(Get(p, "cell"))
    ensures f.googleMapsLink == TextOrEmpty(Get(p, "google_maps_link"))
    ensures f.latitude == NumberText(Get(p, "latitude")) && f.longitude == NumberText(Get(p, "longitude"))
    ensures f.latitude.Str? && f.longitude.Str?
  {
    PharmacyForm(
      TextOrEmpty(Get(p, "name")),
      TextOrEmpty(Get(p, "address")),
      TextOrEmpty(Get(p, "phone")),
      TextOrEmpty(Get(p, "email")),
      TextOrEmpty(Get(p, "district")),
      TextOrEmpty(Get(p, "sector")),
      TextOrEmpty(Get(p, "cell")),
      NumberText(Get(p, "latitude")),
      NumberText(Get(p, "longitude")),
      TextOrEmpty(Get(p, "google_maps_link")),
      Coalesce(Get(p, "is_verified"), Bool(true)))
  }

  /** What the form's inputs produce: text, and a checkbox's boolean. */
  predicate InputForm(f: PharmacyForm) {
    f.name.Str? && f.address.Str? && f.phone.Str? && f.email.Str? && f.district.Str? &&
    f.sector.Str? && f.cell.Str? && f.latitude.Str? && f.longitude.Str? &&
    f.googleMapsLink.Str? && f.isVerified.Bool?
  }

  /** Saving a form and editing the row it became gives the form back. */
  lemma EditAfterSave(f: PharmacyForm)
    requires InputForm(f)
    ensures EditForm(FormRow(f)) == f
  {
  }

  // ---------------------------------------------------------------------
  // Page state and handlers

  class Page {
    var pharmacies: seq<Row>
    var loading: bool
    var searchTerm: string
    var showModal: bool
    var editingPharmacy: Option<Row>
    var formData: PharmacyForm

    constructor ()
      ensures pharmacies == [] && loading && searchTerm == ""
      ensures !showModal && editingPharmacy == None && formData == EmptyForm
    {
      pharmacies := [];
      loading := true;
      searchTerm := "";
      showModal := false;
      editingPharmacy := None;
      formData := EmptyForm;
    }

    /** The rows the table shows: `filteredPharmacies`. */
    function Filtered(): Option<seq<Row>>
      reads this
    {
      FilterPharmacies(pharmacies, searchTerm)
    }

    /** `fetchPharmacies`, given the settled result of its query ordered by
        name: the rows replace the list (null rows as an empty list), an
        error leaves the list as it was, and loading ends either way. */
    method FetchPharmacies(result: RowsResult) returns (query: Select, failed: bool)
      modifies this`pharmacies, this`loading
      ensures query == Select("pharmacies", Order("name", true), None)
      ensures !loading
      ensures failed == result.error.Some?
      ensures pharmacies == if failed then old(pharmacies) else result.data.GetOr([])
    {
      query := Select("pharmacies", Order("name", true), None);
      failed := result.error.Some?;
      if !failed {
        pharmacies := result.data.GetOr([]);
      }
      loading := false;
    }

    method SetSearchTerm(term: string)
      modifies this`searchTerm
      ensures searchTerm == term
    {
      searchTerm := term;
    }

    /** `resetForm` */
    method ResetForm()
      modifies this`formData
      ensures formData == EmptyForm
    {
      formData := EmptyForm;
    }

    /** The add button: a blank form for a new pharmacy. */
    method OpenCreate()
      modifies this`formData, this`editingPharmacy, this`showModal
      ensures formData == EmptyForm && editingPharmacy == None && showModal
    {
      ResetForm();
      editingPharmacy := None;
      showModal := true;
    }

    /** The cancel button. */
    method Cancel()
      modifies this`formData, this`editingPharmacy, this`showModal
      ensures formData == EmptyForm && editingPharmacy == None && !showModal
    {
      showModal := false;
      editingPharmacy := None;
      ResetForm();
    }

    /** `handleEdit` */
    method HandleEdit(pharmacy: Row)
      modifies this`formData, this`editingPharmacy, this`showModal
      ensures editingPharmacy == Some(pharmacy) && formData == EditForm(pharmacy) && showModal
    {
      editingPharmacy := Some(pharmacy);
      formData := EditForm(pharmacy);
      showModal := true;
    }

    /** `handleSubmit`, given the settled result of its write: the form is
        sent unchanged as the row of an update of the pharmacy being edited,
        or of an insert. Only a success closes the modal, clears the edited
        pharmacy, resets the form and asks for a refetch; a failure or an
        update that matched nothing changes no state. */
    method HandleSubmit(result: RowsResult) returns (request: Write, outcome: Outcome, refetch: bool)
      modifies this`showModal, this`editingPharmacy, this`formData
      ensures old(editingPharmacy).Some? ==>
        request == Update("pharmacies", FormRow(old(formData)), Get(old(editingPharmacy).value, "id")) &&
        outcome == ClassifyUpdate(result)
      ensures old(editingPharmacy).None? ==>
        request == Insert("pharmacies", [FormRow(old(formData))]) &&
        outcome == ClassifyInsert(result)
      ensures refetch == outcome.Succeeded?
      ensures outcome.Succeeded? ==> !showModal && editingPharmacy == None && formData == EmptyForm
      ensures !outcome.Succeeded? ==> unchanged(this)
    {
      if editingPharmacy.Some? {
        request := Update("pharmacies", FormRow(formData), Get(editingPharmacy.value, "id"));
        outcome := ClassifyUpdate(result);
      } else {
        request := Insert("pharmacies", [FormRow(formData)]);
        outcome := ClassifyInsert(result);
      }
      refetch := outcome.Succeeded?;
      if refetch {
        showModal := false;
        editingPharmacy := None;
        ResetForm();
      }
    }

    /** `handleDelete`, given the operator's answer to the confirmation and
        the settled result of the delete. Nothing is sent without
        confirmation; only a success asks for a refetch; no page state
        changes. */
    method HandleDelete(confirmed: bool, id: Value, result: RowsResult)
      returns (request: Option<Write>, outcome: Option<Outcome>, refetch: bool)
      ensures request.Some? <==> confirmed
      ensures confirmed ==> request == Some(Delete("pharmacies", id)) &&
                            outcome == Some(ClassifyDelete(result))
      ensures !confirmed ==> outcome == None
      ensures refetch <==> outcome == Some(Succeeded)
    {
      if !confirmed {
        return None, None, false;
      }
      request := Some(Delete("pharmacies", id));
      var o := ClassifyDelete(result);
      outcome := Some(o);
      refetch := o.Succeeded?;
    }
  }
}
