/**
 * Backend/models/Resource.js: the schema's validation rules, the pre-save
 * hook and the `findAvailable` query builder.
 *
 * Enumerated fields stay strings, as in the schema, so that validation can
 * reject a value outside the enumeration.  Numbers are reals.
 */
module ResourceModel {

  import opened Wrappers

  const ResourceTypes: set<string> := {"book", "notes", "research_paper", "thesis", "journal", "other"}
  const Formats: set<string> := {"physical", "digital", "both"}
  const Licenses: set<string> := {"author", "licensed"}
  const Statuses: set<string> := {"available", "rented", "sold", "unavailable"}
  const HolderKinds: set<string> := {"renter", "buyer"}

  /** `rentPeriod`, in days. */
  datatype RentPeriod = RentPeriod(min: real, max: real, value: real)

  const DefaultRentPeriod: RentPeriod := RentPeriod(7.0, 90.0, 30.0)

  /** `currentUser`: who holds the resource; `kind` is the schema's `type` path. */
  datatype Holder = Holder(
    email: string, contact: string, name: string,
    kind: Option<string>, since: Option<int>, dueDate: Option<int>)

  /** The fields of a resource document that carry a rule. */
  datatype Resource = Resource(
    uploader: string,
    resourceType: string,
    author: string,
    title: string,
    format: string,
    license: Option<string>,
    licenseFile: seq<string>,
    shortDescription: string,
    stock: Option<real>,
    rating: real,
    rentPrice: real,
    sellPrice: real,
    rentPeriod: RentPeriod,
    status: string,
    currentUser: Option<Holder>,
    isActive: bool)

  /** Mongoose's `required` on a string: present and not empty. */
  predicate Given(s: string)
  {
    s != ""
  }

  /** `license` is required for a digital copy. */
  predicate LicenseRequired(r: Resource)
  {
    r.format == "digital" || r.format == "both"
  }

  /** `licenseFile` is required for a licensed resource. */
  predicate LicenseFileRequired(r: Resource)
  {
    r.license == Some("licensed")
  }

  /** `stock` is required for a physical copy. */
  predicate StockRequired(r: Resource)
  {
    r.format == "physical" || r.format == "both"
  }

  /**
   * Schema validation, which `save()` runs before the pre-save hook.  A
   * valid resource always carries a license or a stock count, since every
   * format requires one of them.
   */
  predicate Validate(r: Resource)
    ensures Validate(r) ==> r.license.Some? || r.stock.Some?
    ensures Validate(r) ==> r.format != "physical" ==> r.license.Some?
  {
    && Given(r.uploader)
    && r.resourceType in ResourceTypes
    && Given(r.author)
    && Given(r.title)
    && r.format in Formats
    && (r.license.Some? ==> r.license.value in Licenses)
    && (LicenseRequired(r) ==> r.license.Some?)
    && (LicenseFileRequired(r) ==> r.licenseFile != [])
    && Given(r.shortDescription)
    && (StockRequired(r) ==> r.stock.Some?)
    && 0.0 <= r.rating <= 5.0
    && r.rentPrice >= 0.0
    && r.sellPrice >= 0.0
    && r.status in Statuses
    && (r.currentUser.Some? && r.currentUser.value.kind.Some? ==> r.currentUser.value.kind.value in HolderKinds)
  }

  datatype SaveError =
    | ValidationError
    /** "Either rent charge or sell charge must be greater than 0". */
    | PriceError

  /** The effect of the pre-save hook on a document that passed the price check. */
  function ClearHolderIfAvailable(r: Resource): Resource
  {
    if r.status == "available" then r.(currentUser := None) else r
  }

  /** `save()`: validation, then the pre-save hook; the saved document, or why it was refused. */
  function SaveOutcome(r: Resource): (out: Result<Resource, SaveError>)
    ensures out.Ok? ==> Validate(r) && out.value == ClearHolderIfAvailable(r)
  {
    if !Validate(r) then Err(ValidationError)
    else if r.rentPrice == 0.0 && r.sellPrice == 0.0 then Err(PriceError)
    else Ok(ClearHolderIfAvailable(r))
  }

  /** Saving succeeds exactly for a valid resource with some price above zero. */
  lemma SaveAccepts(r: Resource)
    ensures SaveOutcome(r).Ok? <==> Validate(r) && (r.rentPrice > 0.0 || r.sellPrice > 0.0)
    ensures r.rentPrice == 0.0 && r.sellPrice == 0.0 ==> SaveOutcome(r).Err?
  {
  }

  /**
   * What a save changes: a saved "available" resource has no holder, and
   * nothing else about the resource is touched.
   */
  lemma SavedAvailableHasNoHolder(r: Resource)
    requires SaveOutcome(r).Ok?
    ensures var s := SaveOutcome(r).value;
      && (s.status == "available" ==> s.currentUser.None?)
      && s.(currentUser := r.currentUser) == r
      && (s.status != "available" ==> s == r)
  {
  }

  /** Saving twice changes nothing the first save did not. */
  lemma SaveIdempotent(r: Resource)
    requires SaveOutcome(r).Ok?
    ensures SaveOutcome(SaveOutcome(r).value) == SaveOutcome(r)
  {
    var s := SaveOutcome(r).value;
    assert Validate(s);
  }

  /**
   * A new resource built from the required fields only, every other path
   * taking its schema default: no license, no stock, rating and both prices
   * 0, rent period 7/90/30 days, "available", active.
   */
  function WithDefaults(uploader: string, resourceType: string, author: string, title: string,
                        format: string, shortDescription: string): (r: Resource)
    ensures r.rentPrice == 0.0 && r.sellPrice == 0.0 && r.rating == 0.0
    ensures r.rentPeriod == RentPeriod(7.0, 90.0, 30.0)
    ensures r.status == "available" && r.isActive && r.currentUser.None?
  {
    Resource(uploader, resourceType, author, title, format, None, [], shortDescription, None,
             0.0, 0.0, 0.0, DefaultRentPeriod, "available", None, true)
  }

  /** Both prices default to 0, so a resource given no price can never be saved. */
  lemma DefaultsRejected(uploader: string, resourceType: string, author: string, title: string,
                         format: string, shortDescription: string,
                         license: Option<string>, licenseFile: seq<string>, stock: Option<real>)
    ensures var r := WithDefaults(uploader, resourceType, author, title, format, shortDescription)
                       .(license := license, licenseFile := licenseFile, stock := stock);
      SaveOutcome(r).Err?
  {
  }

  /**
   * The conditional requirements hold exactly where the schema puts them:
   * each is enforced under its condition, and outside it the field can be
   * dropped from a valid resource.  A resource in "both" formats needs a
   * license and a stock.
   */
  lemma ConditionalRequirements(r: Resource)
    requires Validate(r)
    ensures r.format == "digital" || r.format == "both" ==> r.license.Some?
    ensures r.format == "physical" ==> Validate(r.(license := None))
    ensures r.license == Some("licensed") ==> r.licenseFile != []
    ensures r.license != Some("licensed") ==> Validate(r.(licenseFile := []))
    ensures r.format == "physical" || r.format == "both" ==> r.stock.Some?
    ensures r.format == "digital" ==> Validate(r.(stock := None))
    ensures r.format == "both" ==> r.license.Some? && r.stock.Some?
  {
    if r.format == "physical" {
      assert !LicenseFileRequired(r.(license := None));
    }
  }

  /** Every saved resource draws its enumerated fields from their sets and keeps its bounds. */
  lemma ValidBounds(r: Resource)
    requires SaveOutcome(r).Ok?
    ensures var s := SaveOutcome(r).value;
      && s.resourceType in ResourceTypes && s.format in Formats && s.status in Statuses
      && 0.0 <= s.rating <= 5.0 && s.rentPrice >= 0.0 && s.sellPrice >= 0.0
      && (s.rentPrice > 0.0 || s.sellPrice > 0.0)
  {
  }

  /** The filter `findAvailable` builds. */
  datatype Query = Query(status: string, isActive: bool, resourceType: Option<string>)

  /** `findAvailable(resourceType)`; a missing or empty type is falsy and adds no filter. */
  function FindAvailable(resourceType: Option<string>): (q: Query)
    ensures q.status == "available" && q.isActive
  {
    if resourceType.Some? && resourceType.value != "" then Query("available", true, resourceType)
    else Query("available", true, None)
  }

  /** A document matches a filter when it equals every field the filter names. */
  predicate Matches(q: Query, r: Resource)
  {
    && r.status == q.status
    && r.isActive == q.isActive
    && (q.resourceType.Some? ==> r.resourceType == q.resourceType.value)
  }

  /** `findAvailable` finds exactly the active, available resources, of the given type when one is given. */
  lemma FindAvailableMatches(resourceType: Option<string>, r: Resource)
    ensures Matches(FindAvailable(resourceType), r) <==>
      && r.status == "available" && r.isActive
      && (resourceType.Some? && resourceType.value != "" ==> r.resourceType == resourceType.value)
  {
  }

  /** A resource document, changed in place by its pre-save hook. */
  class ResourceDocument {
    var resource: Resource

    constructor (r: Resource)
      ensures resource == r
    {
      resource := r;
    }

    /**
     * `save()`.  Validation and the price check refuse the document and leave
     * it as it was; otherwise the hook clears the holder of an available
     * resource.
     */
    method Save() returns (r: Result<(), SaveError>)
      modifies this
      ensures r.Ok? <==> SaveOutcome(old(resource)).Ok?
      ensures r.Err? ==> r.error == SaveOutcome(old(resource)).error && resource == old(resource)
      ensures r.Ok? ==> resource == SaveOutcome(old(resource)).value
    {
      if !Validate(resource) {
        return Err(ValidationError);
      }
      if resource.rentPrice == 0.0 && resource.sellPrice == 0.0 {
        return Err(PriceError);
      }
      if resource.status == "available" {
        resource := resource.(currentUser := None);
      }
      r := Ok(());
    }
  }
}
