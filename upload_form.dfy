/**
 * Frontend/src/components/UploadForm/ResourceUploadForm.jsx: the step
 * visibility flags the select handlers drive, the input handlers, and the
 * checks and multipart payload of `handleSubmit`.
 *
 * `formData` is a JavaScript object, so it is kept as its entries in key
 * insertion order: assigning an existing key keeps its place, a new key is
 * appended.  JSON-encoded parts carry the value they encode.
 */
module UploadForm {

  import opened Wrappers
  import Text

  /** A file picked in a file input. */
  datatype FileRef = FileRef(name: string)

  /** A value stored in `formData`. */
  datatype FormValue =
    | Str(s: string)
    | Num(n: int)
    | Files(files: seq<FileRef>)
    | Period(min: int, max: int, value: FormValue)

  type Entries = seq<(string, FormValue)>

  /** One `formDataToSend.append(key, value)`: a string, a file, or a JSON-encoded value. */
  datatype Part =
    | TextPart(text: string)
    | FilePart(file: FileRef)
    | JsonSpecifications(specs: seq<(string, string)>)
    | JsonShipping(freeShipping: bool, estimatedDays: string, returnPolicy: string)
    | JsonRentPeriod(period: Option<FormValue>)

  // ---------------------------------------------------------------------
  // Object entries
  // ---------------------------------------------------------------------

  function KeysOf<V>(entries: seq<(string, V)>): (ks: seq<string>)
    ensures |ks| == |entries|
    ensures forall i :: 0 <= i < |entries| ==> ks[i] == entries[i].0
  {
    if entries == [] then [] else [entries[0].0] + KeysOf(entries[1..])
  }

  /** `obj[key]`, `None` for undefined. */
  function Lookup<V>(entries: seq<(string, V)>, key: string): Option<V>
  {
    if entries == [] then None
    else if entries[0].0 == key then Some(entries[0].1)
    else Lookup(entries[1..], key)
  }

  /** `{ ...prev, [key]: v }`. */
  function Put<V>(entries: seq<(string, V)>, key: string, v: V): seq<(string, V)>
  {
    if entries == [] then [(key, v)]
    else if entries[0].0 == key then [(key, v)] + entries[1..]
    else [entries[0]] + Put(entries[1..], key, v)
  }

  /**
   * An update changes only its own key: the key then holds the new value,
   * every other key reads as before, and the key order is kept (a new key
   * goes last).
   */
  lemma {:induction false} PutProperties<V>(entries: seq<(string, V)>, key: string, v: V)
    ensures Lookup(Put(entries, key, v), key) == Some(v)
    ensures forall k :: k != key ==> Lookup(Put(entries, key, v), k) == Lookup(entries, k)
    ensures KeysOf(Put(entries, key, v)) == if key in KeysOf(entries) then KeysOf(entries) else KeysOf(entries) + [key]
  {
    if entries != [] && entries[0].0 != key {
      PutProperties(entries[1..], key, v);
      assert KeysOf(entries) == [entries[0].0] + KeysOf(entries[1..]);
    }
  }

  /** JavaScript truthiness of a form value; `undefined` is falsy. */
  predicate Truthy(v: Option<FormValue>)
  {
    v.Some? && match v.value
      case Str(s) => s != ""
      case Num(n) => n != 0
      case _ => true
  }

  /** The files under `key`, or none. */
  function FilesOf(entries: Entries, key: string): seq<FileRef>
  {
    var v := Lookup(entries, key);
    if v.Some? && v.value.Files? then v.value.files else []
  }

  // ---------------------------------------------------------------------
  // Submit
  // ---------------------------------------------------------------------

  /** Keys the plain-field loop skips. */
  const Excluded: set<string> := {"licenseFile", "coverImageURL", "resourceImageURLs", "rentPeriod"}

  function IntToString(n: int): string
  {
    if n >= 0 then Text.NatToString(n) else "-" + Text.NatToString(-n)
  }

  /** `String(value)`, as `FormData.append` converts a non-file value. */
  function AsFormString(v: FormValue): string
  {
    match v
    case Str(s) => s
    case Num(n) => IntToString(n)
    case Files(fs) => Text.Join(seq(|fs|, _ => "[object File]"), ",")
    case Period(_, _, _) => "[object Object]"
  }

  /** The parts the `for (const key in formData)` loop appends, in key order. */
  function PlainParts(entries: Entries): seq<(string, Part)>
  {
    if entries == [] then []
    else
      var last := entries[|entries| - 1];
      PlainParts(entries[..|entries| - 1])
        + (if last.0 in Excluded then [] else [(last.0, TextPart(AsFormString(last.1)))])
  }

  /** The first file under `key`, if there is one. */
  function FirstFilePart(entries: Entries, key: string): seq<(string, Part)>
  {
    var fs := FilesOf(entries, key);
    if |fs| > 0 then [(key, FilePart(fs[0]))] else []
  }

  /** One part per resource image, in order. */
  function ImageParts(files: seq<FileRef>): seq<(string, Part)>
  {
    seq(|files|, i requires 0 <= i < |files| => ("resourceImageURLs", FilePart(files[i])))
  }

  /** The multipart payload of a submit that passed its checks. */
  function Payload(entries: Entries, specs: seq<(string, string)>, freeShipping: bool,
                   estimatedDays: string, returnPolicy: string): (p: seq<(string, Part)>)
    ensures |p| >= 3
    ensures p[|p| - 3].0 == "specifications" && p[|p| - 2].0 == "shippingInfo" && p[|p| - 1].0 == "rentPeriod"
    ensures p[|p| - 3].1 == JsonSpecifications(specs)
    ensures p[|p| - 2].1 == JsonShipping(freeShipping, estimatedDays, returnPolicy)
  {
    PlainParts(entries)
      + FirstFilePart(entries, "licenseFile")
      + FirstFilePart(entries, "coverImageURL")
      + ImageParts(FilesOf(entries, "resourceImageURLs"))
      + [ ("specifications", JsonSpecifications(specs)),
          ("shippingInfo", JsonShipping(freeShipping, estimatedDays, returnPolicy)),
          ("rentPeriod", JsonRentPeriod(Lookup(entries, "rentPeriod"))) ]
  }

  const RequiredFieldsAlert: string := "Please fill in all required fields"
  const LicenseAlert: string := "Please select license status for digital resources"

  /** handleSubmit: the alert that stops it, or the payload it posts. */
  function Submit(entries: Entries, specs: seq<(string, string)>, freeShipping: bool,
                  estimatedDays: string, returnPolicy: string): (r: Result<seq<(string, Part)>, string>)
    ensures r.Ok? ==> Truthy(Lookup(entries, "resourceType")) && Truthy(Lookup(entries, "format"))
    ensures r.Ok? ==> r.value == Payload(entries, specs, freeShipping, estimatedDays, returnPolicy)
    ensures r.Err? ==> r.error in {RequiredFieldsAlert, LicenseAlert}
  {
    if !Truthy(Lookup(entries, "resourceType")) || !Truthy(Lookup(entries, "format")) then Err(RequiredFieldsAlert)
    else if Lookup(entries, "format") == Some(Str("digital")) && !Truthy(Lookup(entries, "license")) then Err(LicenseAlert)
    else Ok(Payload(entries, specs, freeShipping, estimatedDays, returnPolicy))
  }

  /**
   * Submit is refused exactly when the type or the format is empty, or the
   * format is "digital" with no license; "both" without a license passes.
   */
  lemma SubmitChecks(entries: Entries, specs: seq<(string, string)>, freeShipping: bool,
                     estimatedDays: string, returnPolicy: string)
    ensures var r := Submit(entries, specs, freeShipping, estimatedDays, returnPolicy);
      && (r.Err? <==>
            !Truthy(Lookup(entries, "resourceType")) || !Truthy(Lookup(entries, "format"))
            || (Lookup(entries, "format") == Some(Str("digital")) && !Truthy(Lookup(entries, "license"))))
      && (r.Err? ==> r.error in {RequiredFieldsAlert, LicenseAlert})
      && (Truthy(Lookup(entries, "resourceType")) && Lookup(entries, "format") == Some(Str("both")) ==> r.Ok?)
  {
  }

  /** The parts of `parts` under `key`, in order. */
  function PartsWithKey(parts: seq<(string, Part)>, key: string): seq<Part>
  {
    if parts == [] then []
    else PartsWithKey(parts[..|parts| - 1], key)
           + (if parts[|parts| - 1].0 == key then [parts[|parts| - 1].1] else [])
  }

  lemma {:induction false} PartsWithKeyAppend(a: seq<(string, Part)>, b: seq<(string, Part)>, key: string)
    ensures PartsWithKey(a + b, key) == PartsWithKey(a, key) + PartsWithKey(b, key)
    decreases |b|
  {
    if b != [] {
      var b' := b[..|b| - 1];
      assert (a + b)[..|a + b| - 1] == a + b';
      PartsWithKeyAppend(a, b', key);
    } else {
      assert a + b == a;
    }
  }

  /**
   * The plain-field loop appends no excluded key, and appends every other
   * entry as its string form.
   */
  lemma {:induction false} PlainPartsContents(entries: Entries)
    ensures forall p :: p in PlainParts(entries) ==>
      p.0 !in Excluded && exists v :: (p.0, v) in entries && p.1 == TextPart(AsFormString(v))
    ensures forall e :: e in entries && e.0 !in Excluded ==> (e.0, TextPart(AsFormString(e.1))) in PlainParts(entries)
  {
    if entries != [] {
      var init := entries[..|entries| - 1];
      PlainPartsContents(init);
      assert entries == init + [entries[|entries| - 1]];
    }
  }

  /** No excluded key comes out of the plain-field loop. */
  lemma {:induction false} PlainPartsSkipExcluded(entries: Entries, key: string)
    requires key in Excluded
    ensures PartsWithKey(PlainParts(entries), key) == []
  {
    if entries != [] {
      var init := entries[..|entries| - 1];
      PlainPartsSkipExcluded(init, key);
      var last := entries[|entries| - 1];
      var tail := if last.0 in Excluded then [] else [(last.0, TextPart(AsFormString(last.1)))];
      PartsWithKeyAppend(PlainParts(init), tail, key);
    }
  }

  lemma {:induction false} ImagePartsKeys(files: seq<FileRef>, key: string)
    ensures PartsWithKey(ImageParts(files), key) ==
      if key == "resourceImageURLs" then seq(|files|, i requires 0 <= i < |files| => FilePart(files[i])) else []
  {
    if files != [] {
      var init := files[..|files| - 1];
      ImagePartsKeys(init, key);
      assert ImageParts(files)[..|files| - 1] == ImageParts(init);
    }
  }

  /** A list with no part under `key` yields nothing for it. */
  lemma {:induction false} PartsWithKeyAbsent(parts: seq<(string, Part)>, key: string)
    requires forall i :: 0 <= i < |parts| ==> parts[i].0 != key
    ensures PartsWithKey(parts, key) == []
  {
    if parts != [] {
      PartsWithKeyAbsent(parts[..|parts| - 1], key);
    }
  }

  /** The first file under `fileKey`, seen from `key`. */
  lemma FirstFilePartKeys(entries: Entries, fileKey: string, key: string)
    ensures var fs := FilesOf(entries, fileKey);
      PartsWithKey(FirstFilePart(entries, fileKey), key) == if key == fileKey && |fs| > 0 then [FilePart(fs[0])] else []
  {
    var part := FirstFilePart(entries, fileKey);
    if part != [] {
      assert part[..0] == [];
    }
  }

  /** For each of the three file keys, the payload's parts come only from the file attachments. */
  lemma PayloadByKey(entries: Entries, specs: seq<(string, string)>, freeShipping: bool,
                     estimatedDays: string, returnPolicy: string, key: string)
    requires key in Excluded && key != "rentPeriod"
    ensures PartsWithKey(Payload(entries, specs, freeShipping, estimatedDays, returnPolicy), key)
      == PartsWithKey(FirstFilePart(entries, "licenseFile"), key)
         + PartsWithKey(FirstFilePart(entries, "coverImageURL"), key)
         + PartsWithKey(ImageParts(FilesOf(entries, "resourceImageURLs")), key)
  {
    var plain := PlainParts(entries);
    var l := FirstFilePart(entries, "licenseFile");
    var c := FirstFilePart(entries, "coverImageURL");
    var imgs := ImageParts(FilesOf(entries, "resourceImageURLs"));
    var tail: seq<(string, Part)> := [ ("specifications", JsonSpecifications(specs)),
          ("shippingInfo", JsonShipping(freeShipping, estimatedDays, returnPolicy)),
          ("rentPeriod", JsonRentPeriod(Lookup(entries, "rentPeriod"))) ];
    assert Payload(entries, specs, freeShipping, estimatedDays, returnPolicy) == plain + l + c + imgs + tail;
    assert PartsWithKey(tail, key) == [] by {
      assert tail[0].0 != key && tail[1].0 != key && tail[2].0 != key;
      PartsWithKeyAbsent(tail, key);
    }
    assert PartsWithKey(plain, key) == [] by {
      PlainPartsSkipExcluded(entries, key);
    }
    PartsWithKeyAppend(plain, l, key);
    PartsWithKeyAppend(plain + l, c, key);
    PartsWithKeyAppend(plain + l + c, imgs, key);
    PartsWithKeyAppend(plain + l + c + imgs, tail, key);
  }

  /** The license file part of the payload: the first picked license file, if any. */
  lemma PayloadLicenseFile(entries: Entries, specs: seq<(string, string)>, freeShipping: bool,
                           estimatedDays: string, returnPolicy: string)
    ensures var lic := FilesOf(entries, "licenseFile");
      PartsWithKey(Payload(entries, specs, freeShipping, estimatedDays, returnPolicy), "licenseFile")
        == (if |lic| > 0 then [FilePart(lic[0])] else [])
  {
    PayloadByKey(entries, specs, freeShipping, estimatedDays, returnPolicy, "licenseFile");
    FirstFilePartKeys(entries, "licenseFile", "licenseFile");
    FirstFilePartKeys(entries, "coverImageURL", "licenseFile");
    ImagePartsKeys(FilesOf(entries, "resourceImageURLs"), "licenseFile");
  }

  /** The cover image part of the payload: the first picked cover image, if any. */
  lemma PayloadCoverImage(entries: Entries, specs: seq<(string, string)>, freeShipping: bool,
                          estimatedDays: string, returnPolicy: string)
    ensures var cover := FilesOf(entries, "coverImageURL");
      PartsWithKey(Payload(entries, specs, freeShipping, estimatedDays, returnPolicy), "coverImageURL")
        == (if |cover| > 0 then [FilePart(cover[0])] else [])
  {
    PayloadByKey(entries, specs, freeShipping, estimatedDays, returnPolicy, "coverImageURL");
    FirstFilePartKeys(entries, "licenseFile", "coverImageURL");
    FirstFilePartKeys(entries, "coverImageURL", "coverImageURL");
    ImagePartsKeys(FilesOf(entries, "resourceImageURLs"), "coverImageURL");
  }

  /** The resource image parts of the payload: every picked image, in order. */
  lemma PayloadImages(entries: Entries, specs: seq<(string, string)>, freeShipping: bool,
                      estimatedDays: string, returnPolicy: string)
    ensures var imgs := FilesOf(entries, "resourceImageURLs");
      PartsWithKey(Payload(entries, specs, freeShipping, estimatedDays, returnPolicy), "resourceImageURLs")
        == seq(|imgs|, i requires 0 <= i < |imgs| => FilePart(imgs[i]))
  {
    PayloadByKey(entries, specs, freeShipping, estimatedDays, returnPolicy, "resourceImageURLs");
    FirstFilePartKeys(entries, "licenseFile", "resourceImageURLs");
    FirstFilePartKeys(entries, "coverImageURL", "resourceImageURLs");
    ImagePartsKeys(FilesOf(entries, "resourceImageURLs"), "resourceImageURLs");
  }

  /**
   * The payload carries at most one license file and one cover image (the
   * first of each), and all resource images in the order they were picked.
   */
  lemma PayloadFiles(entries: Entries, specs: seq<(string, string)>, freeShipping: bool,
                     estimatedDays: string, returnPolicy: string)
    ensures var p := Payload(entries, specs, freeShipping, estimatedDays, returnPolicy);
      var lic := FilesOf(entries, "licenseFile");
      var cover := FilesOf(entries, "coverImageURL");
      var imgs := FilesOf(entries, "resourceImageURLs");
      && PartsWithKey(p, "licenseFile") == (if |lic| > 0 then [FilePart(lic[0])] else [])
      && PartsWithKey(p, "coverImageURL") == (if |cover| > 0 then [FilePart(cover[0])] else [])
      && PartsWithKey(p, "resourceImageURLs") == seq(|imgs|, i requires 0 <= i < |imgs| => FilePart(imgs[i]))
  {
    PayloadLicenseFile(entries, specs, freeShipping, estimatedDays, returnPolicy);
    PayloadCoverImage(entries, specs, freeShipping, estimatedDays, returnPolicy);
    PayloadImages(entries, specs, freeShipping, estimatedDays, returnPolicy);
  }

  // ---------------------------------------------------------------------
  // Title lookup
  // ---------------------------------------------------------------------

  const Titles: map<string, string> := map[
    "book" := "Book Details",
    "notes" := "Notes Details",
    "research_paper" := "Research Paper Details",
    "thesis" := "Thesis Details",
    "journal" := "Journal Details",
    "other" := "Resource Details"]

  /** getResourceTitle. */
  function GetResourceTitle(resourceType: string): (title: string)
    ensures title in Titles.Values
    ensures title != ""
  {
    assert Titles["other"] == "Resource Details";
    if resourceType in Titles && Titles[resourceType] != "" then Titles[resourceType] else "Resource Details"
  }

  /** Each known type has its own title; anything else, "" included, gets "Resource Details". */
  lemma GetResourceTitleCases(resourceType: string)
    ensures resourceType == "book" ==> GetResourceTitle(resourceType) == "Book Details"
    ensures resourceType == "notes" ==> GetResourceTitle(resourceType) == "Notes Details"
    ensures resourceType == "research_paper" ==> GetResourceTitle(resourceType) == "Research Paper Details"
    ensures resourceType == "thesis" ==> GetResourceTitle(resourceType) == "Thesis Details"
    ensures resourceType == "journal" ==> GetResourceTitle(resourceType) == "Journal Details"
    ensures resourceType !in {"book", "notes", "research_paper", "thesis", "journal"} ==>
      GetResourceTitle(resourceType) == "Resource Details"
    ensures GetResourceTitle(resourceType) != ""
  {
  }

  // ---------------------------------------------------------------------
  // Component state
  // ---------------------------------------------------------------------

  /** The initial `formData`, for the signed-in uploader. */
  function InitialEntries(uploaderId: string): Entries
  {
    [ ("uploaderId", Str(uploaderId)), ("resourceType", Str("")), ("author", Str("")), ("title", Str("")),
      ("format", Str("")), ("license", Str("")), ("licenseFile", Files([])), ("rentPrice", Str("")),
      ("sellPrice", Str("")), ("rentPeriod", Period(7, 14, Num(10))), ("shortDescription", Str("")),
      ("description", Str("")), ("coverImageURL", Files([])), ("resourceImageURLs", Files([])),
      ("tags", Str("")), ("stock", Num(1)) ]
  }

  class UploadFormState {
    var formData: Entries
    var specifications: seq<(string, string)>
    var showDropdown: bool
    var showFormat: bool
    var showLicense: bool
    var showSpecifications: bool
    var showStock: bool
    var showPricing: bool
    var freeShipping: bool
    var estimatedDays: string
    var returnPolicy: string

    constructor (uploaderId: string)
      ensures formData == InitialEntries(uploaderId) && specifications == []
      ensures !showDropdown && !showFormat && !showLicense && !showSpecifications && !showStock && !showPricing
      ensures !freeShipping && estimatedDays == "3-7 days" && returnPolicy == "No return"
    {
      formData := InitialEntries(uploaderId);
      specifications := [];
      showDropdown := false;
      showFormat := false;
      showLicense := false;
      showSpecifications := false;
      showStock := false;
      showPricing := false;
      freeShipping := false;
      estimatedDays := "3-7 days";
      returnPolicy := "No return";
    }

    /**
     * handleFormatSelect: a digital copy opens the license step and closes
     * specifications and pricing, with stock shown only for "both"; any
     * other format closes the license step and shows the other three.
     */
    method HandleFormatSelect(value: string)
      modifies this
      ensures formData == Put(old(formData), "format", Str(value))
      ensures value == "digital" || value == "both" ==>
        showLicense && !showSpecifications && !showPricing && (showStock <==> value == "both")
      ensures value != "digital" && value != "both" ==>
        !showLicense && showSpecifications && showPricing && showStock
      ensures showDropdown == old(showDropdown) && showFormat == old(showFormat)
      ensures specifications == old(specifications) && freeShipping == old(freeShipping)
      ensures estimatedDays == old(estimatedDays) && returnPolicy == old(returnPolicy)
    {
      formData := Put(formData, "format", Str(value));
      if value == "digital" || value == "both" {
        showLicense := true;
        showSpecifications := false;
        showPricing := false;
        showStock := value == "both";
      } else {
        showLicense := false;
        showSpecifications := true;
        showPricing := true;
        showStock := true;
      }
    }

    /**
     * handleResourceTypeSelect: clears the format, records the type, shows
     * the format step, hides everything after it; stock is left shown by
     * the inner format reset.
     */
    method HandleResourceTypeSelect(value: string)
      modifies this
      ensures formData == Put(Put(old(formData), "format", Str("")), "resourceType", Str(value))
      ensures !showDropdown && showFormat && !showLicense && !showSpecifications && !showPricing && showStock
      ensures specifications == old(specifications) && freeShipping == old(freeShipping)
      ensures estimatedDays == old(estimatedDays) && returnPolicy == old(returnPolicy)
    {
      HandleFormatSelect("");
      formData := Put(formData, "resourceType", Str(value));
      showDropdown := false;
      showFormat := true;
      showLicense := false;
      showSpecifications := false;
      showPricing := false;
    }

    /** handleLicenseSelect: record the license and open specifications and pricing. */
    method HandleLicenseSelect(value: string)
      modifies this
      ensures formData == Put(old(formData), "license", Str(value))
      ensures showSpecifications && showPricing
      ensures showDropdown == old(showDropdown) && showFormat == old(showFormat)
      ensures showLicense == old(showLicense) && showStock == old(showStock)
      ensures specifications == old(specifications) && freeShipping == old(freeShipping)
      ensures estimatedDays == old(estimatedDays) && returnPolicy == old(returnPolicy)
    {
      formData := Put(formData, "license", Str(value));
      showSpecifications := true;
      showPricing := true;
    }

    /**
     * handleInputChange: the three shipping inputs have their own state
     * ("freeShipping" is true only for "yes"); "rentPeriod" stores a fixed
     * 7 to 14 day range around the entered value; any other input updates
     * its own key.
     */
    method HandleInputChange(name: string, value: string)
      modifies this
      ensures name == "estimatedDays" ==> estimatedDays == value && formData == old(formData)
      ensures name == "freeShipping" ==> (freeShipping <==> value == "yes") && formData == old(formData)
      ensures name == "returnPolicy" ==> returnPolicy == value && formData == old(formData)
      ensures name == "rentPeriod" ==> formData == Put(old(formData), "rentPeriod", Period(7, 14, Str(value)))
      ensures name !in {"estimatedDays", "freeShipping", "returnPolicy", "rentPeriod"} ==>
        formData == Put(old(formData), name, Str(value))
      ensures name != "estimatedDays" ==> estimatedDays == old(estimatedDays)
      ensures name != "freeShipping" ==> freeShipping == old(freeShipping)
      ensures name != "returnPolicy" ==> returnPolicy == old(returnPolicy)
      ensures specifications == old(specifications)
      ensures showDropdown == old(showDropdown) && showFormat == old(showFormat) && showLicense == old(showLicense)
      ensures showSpecifications == old(showSpecifications) && showStock == old(showStock)
      ensures showPricing == old(showPricing)
    {
      if name == "estimatedDays" {
        estimatedDays := value;
      } else if name == "freeShipping" {
        freeShipping := value == "yes";
      } else if name == "returnPolicy" {
        returnPolicy := value;
      } else if name == "rentPeriod" {
        formData := Put(formData, name, Period(7, 14, Str(value)));
      } else {
        formData := Put(formData, name, Str(value));
      }
    }

    /** handleFileChange: the input's key holds the picked files, in order. */
    method HandleFileChange(name: string, files: seq<FileRef>)
      modifies this
      ensures formData == Put(old(formData), name, Files(files))
      ensures specifications == old(specifications) && freeShipping == old(freeShipping)
      ensures estimatedDays == old(estimatedDays) && returnPolicy == old(returnPolicy)
      ensures showDropdown == old(showDropdown) && showFormat == old(showFormat) && showLicense == old(showLicense)
      ensures showSpecifications == old(showSpecifications) && showStock == old(showStock)
      ensures showPricing == old(showPricing)
    {
      formData := Put(formData, name, Files(files));
    }

    /** handleSpecificationChange: one specification entry. */
    method HandleSpecificationChange(name: string, value: string)
      modifies this
      ensures specifications == Put(old(specifications), name, value)
      ensures formData == old(formData) && freeShipping == old(freeShipping)
      ensures estimatedDays == old(estimatedDays) && returnPolicy == old(returnPolicy)
      ensures showDropdown == old(showDropdown) && showFormat == old(showFormat) && showLicense == old(showLicense)
      ensures showSpecifications == old(showSpecifications) && showStock == old(showStock)
      ensures showPricing == old(showPricing)
    {
      specifications := Put(specifications, name, value);
    }

    /** handleSubmit: run the checks, then build the payload part by part. */
    method HandleSubmit() returns (r: Result<seq<(string, Part)>, string>)
      ensures r == Submit(formData, specifications, freeShipping, estimatedDays, returnPolicy)
    {
      if !Truthy(Lookup(formData, "resourceType")) || !Truthy(Lookup(formData, "format")) {
        return Err(RequiredFieldsAlert);
      }
      if Lookup(formData, "format") == Some(Str("digital")) && !Truthy(Lookup(formData, "license")) {
        return Err(LicenseAlert);
      }
      var entries := formData;
      var parts: seq<(string, Part)> := [];
      var i := 0;
      while i < |entries|
        invariant 0 <= i <= |entries|
        invariant parts == PlainParts(entries[..i])
      {
        var (key, value) := entries[i];
        if key !in Excluded {
          parts := parts + [(key, TextPart(AsFormString(value)))];
        }
        assert entries[..i + 1][..i] == entries[..i];
        i := i + 1;
      }
      assert entries[..|entries|] == entries;
      var licenseFile := FilesOf(entries, "licenseFile");
      if |licenseFile| > 0 {
        parts := parts + [("licenseFile", FilePart(licenseFile[0]))];
      }
      assert parts == PlainParts(entries) + FirstFilePart(entries, "licenseFile");
      var cover := FilesOf(entries, "coverImageURL");
      if |cover| > 0 {
        parts := parts + [("coverImageURL", FilePart(cover[0]))];
      }
      assert parts == PlainParts(entries) + FirstFilePart(entries, "licenseFile") + FirstFilePart(entries, "coverImageURL");
      var images := FilesOf(entries, "resourceImageURLs");
      ghost var before := parts;
      var j := 0;
      while j < |images|
        invariant 0 <= j <= |images|
        invariant parts == before + ImageParts(images[..j])
      {
        assert ImageParts(images[..j + 1]) == ImageParts(images[..j]) + [("resourceImageURLs", FilePart(images[j]))];
        parts := parts + [("resourceImageURLs", FilePart(images[j]))];
        j := j + 1;
      }
      assert images[..|images|] == images;
      assert parts == PlainParts(entries) + FirstFilePart(entries, "licenseFile") + FirstFilePart(entries, "coverImageURL")
                      + ImageParts(images);
      parts := parts + [("specifications", JsonSpecifications(specifications))];
      parts := parts + [("shippingInfo", JsonShipping(freeShipping, estimatedDays, returnPolicy))];
      parts := parts + [("rentPeriod", JsonRentPeriod(Lookup(entries, "rentPeriod")))];
      assert parts == Payload(entries, specifications, freeShipping, estimatedDays, returnPolicy);
      r := Ok(parts);
    }
  }
}
