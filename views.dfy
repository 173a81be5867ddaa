/**
 * The plugin's views: the reconciliation of enabled projects on the index
 * page, the upload endpoint the mobile app posts records, thumbnails and
 * videos to, and the download endpoint. The database tables they read and
 * change are the fields of a `Store`; each view method is proved against a
 * pure function from the store's old contents to its response and new contents.
 */
module Views {
  import opened Strings
  import opened Exceptions
  import opened Xml
  import opened Schema
  import EcmlForm
  import DataExport

  // ---------------------------------------------------------------------------
  // Data model
  // ---------------------------------------------------------------------------

  /** A decoded property value: the submitted text (`None` when absent), or the ids of a multiple lookup. */
  datatype PropValue = TextValue(text: Option<string>) | IdList(ids: seq<int>)

  /**
   * The observation handed to the contribution serialiser: the coordinates
   * as submitted, the properties and the category named in the submission.
   */
  datatype Observation = Observation(
    lon: string,
    lat: string,
    properties: map<string, PropValue>,
    category: Option<string>)

  /** A pending media record: a file the app announced with a record and will upload later. */
  datatype Media = Media(contribution: nat, fileName: string)

  /** An image or video file attached to a contribution. */
  datatype StoredFile = StoredFile(name: string, contribution: nat)

  /** What a view answers: a plain body, an XML tree, or the 403 error page. */
  datatype Response = Body(text: string) | Tree(root: Element) | Forbidden(message: string)

  const NotEnabled := "<error>The project must enabled for EpiCollect.</error>"

  /**
   * The contents of the tables the views touch: the ids of the projects
   * with an EpiCollect record, the saved contributions (a contribution's id
   * is its position), the pending media and the attached images and videos.
   */
  datatype State = State(
    enabled: set<nat>,
    contributions: seq<Observation>,
    media: seq<Media>,
    images: seq<StoredFile>,
    videos: seq<StoredFile>)

  /** `QueryDict.get(key)` */
  function Get(m: map<string, string>, key: string): Option<string> {
    if key in m then Some(m[key]) else None
  }

  // ---------------------------------------------------------------------------
  // update_projects
  // ---------------------------------------------------------------------------

  /**
   * Where the loop of `update_projects` stops: the enabled projects it leaves
   * and, when it stopped early, the exception it raised.
   */
  datatype Reconciliation = Reconciliation(enabled: set<nat>, error: Option<Exception>)

  /**
   * The loop of `update_projects` over `projects`, deciding each by the enabled
   * set `before` it started with. A project listed twice and acted on twice
   * finds its record already deleted (`get` raises `DoesNotExist`) or already
   * created (the primary key is taken and `create` raises `IntegrityError`).
   */
  function Reconcile(before: set<nat>, projects: seq<nat>, form: seq<string>): Reconciliation
    decreases |projects|
  {
    if projects == [] then Reconciliation(before, None)
    else
      var cur := Reconcile(before, projects[..|projects| - 1], form);
      var p := projects[|projects| - 1];
      if cur.error.Some? then cur
      else if p in before && Str(p) !in form then
        if p in cur.enabled then Reconciliation(cur.enabled - {p}, None)
        else Reconciliation(cur.enabled, Some(DoesNotExist("EpiCollectProject")))
      else if p !in before && Str(p) in form then
        if p !in cur.enabled then Reconciliation(cur.enabled + {p}, None)
        else Reconciliation(cur.enabled, Some(IntegrityError("EpiCollectProject")))
      else cur
  }

  predicate Distinct(projects: seq<nat>) {
    forall i, j :: 0 <= i < j < |projects| ==> projects[i] != projects[j]
  }

  /**
   * On a list without repeats, as the queryset of the admin's projects is, the
   * loop completes; afterwards a listed project is enabled exactly when its id
   * is among the ticked boxes, and every other project keeps its status.
   */
  lemma {:induction false} ReconcileSpec(before: set<nat>, projects: seq<nat>, form: seq<string>, q: nat)
    ensures Distinct(projects) ==> Reconcile(before, projects, form).error.None?
    ensures Distinct(projects) ==>
              (q in Reconcile(before, projects, form).enabled <==> if q in projects then Str(q) in form else q in before)
    decreases |projects|
  {
    if projects != [] && Distinct(projects) {
      var pre, p := projects[..|projects| - 1], projects[|projects| - 1];
      assert Distinct(pre);
      ReconcileSpec(before, pre, form, q);
      ReconcileSpec(before, pre, form, p);
      assert p !in pre;
      assert projects == pre + [p];
      assert q in projects <==> q in pre || q == p;
    }
  }

  /** Listing an enabled, unticked project twice: the second `get` finds no record. */
  lemma ReconcileDeletesTwice()
    ensures Reconcile({7}, [7, 7], []) == Reconciliation({}, Some(DoesNotExist("EpiCollectProject")))
  {
    assert [7, 7][..1] == [7];
    assert [7][..0] == [];
  }

  /** Listing a disabled, ticked project twice: the second `create` hits the taken primary key. */
  lemma ReconcileCreatesTwice()
    ensures Reconcile({}, [7, 7], [Str(7)]) == Reconciliation({7}, Some(IntegrityError("EpiCollectProject")))
  {
    assert [7, 7][..1] == [7];
    assert [7][..0] == [];
  }

  /** Once the loop has raised, the later projects change nothing. */
  lemma {:induction false} ReconcileStops(before: set<nat>, projects: seq<nat>, form: seq<string>, n: nat)
    requires n <= |projects|
    requires Reconcile(before, projects[..n], form).error.Some?
    ensures Reconcile(before, projects, form) == Reconcile(before, projects[..n], form)
    decreases |projects| - n
  {
    if n < |projects| {
      assert projects[..n + 1][..n] == projects[..n];
      ReconcileStops(before, projects, form, n + 1);
    } else {
      assert projects[..n] == projects;
    }
  }

  // ---------------------------------------------------------------------------
  // type=data: decoding a submitted record
  // ---------------------------------------------------------------------------

  const FloatOfNone := "float() argument must be a string or a number"
  const ConcatNone := "cannot concatenate 'str' and 'NoneType' objects"
  const NoJson := "No JSON object could be decoded"

  /**
   * The assertion in the REST framework's `finalize_response` that fails when
   * the handler returns `None` instead of a response.
   */
  const NoResponse := "Expected a `Response`, `HttpResponse` or `HttpStreamingResponse` to be returned from the view, but received a `<type 'NoneType'>`"

  /** The keys stored whatever the category: five read from the body, `DeviceID` from the query. */
  const FixedKeys: seq<string> :=
    ["location_acc", "location_provider", "location_alt", "location_bearing", "unique_id", "DeviceID"]

  function FixedProperties(query: map<string, string>, body: map<string, string>): (m: map<string, PropValue>)
    ensures forall k :: 0 <= k < |FixedKeys| ==> FixedKeys[k] in m
    ensures forall k :: 0 <= k < 5 ==> m[FixedKeys[k]] == TextValue(Get(body, FixedKeys[k]))
    ensures m[FixedKeys[5]] == TextValue(Get(query, "phoneid"))
  {
    map["location_acc" := TextValue(Get(body, "location_acc")),
        "location_provider" := TextValue(Get(body, "location_provider")),
        "location_alt" := TextValue(Get(body, "location_alt")),
        "location_bearing" := TextValue(Get(body, "location_bearing")),
        "unique_id" := TextValue(Get(body, "unique_id")),
        "DeviceID" := TextValue(Get(query, "phoneid"))]
  }

  /** The `ValueError` `int()` raises for a text that is no integer literal. */
  function InvalidLiteral(text: string): Exception {
    ValueError("invalid literal for int() with base 10: '" + text + "'")
  }

  /**
   * `Category.objects.get(pk=...)` over all stored categories. No submitted
   * category is an `isnull` lookup that matches nothing; otherwise the pk
   * field converts the text with `int()` before the lookup.
   */
  function FindCategory(cats: seq<Category>, pk: Option<string>): (r: Result<Category>)
    ensures pk.None? ==> r == Raised(DoesNotExist("Category"))
    ensures pk.Some? && PyInt(pk.value).None? ==> r == Raised(InvalidLiteral(pk.value))
    ensures r.Ok? ==> pk.Some? && r.value in cats && PyInt(pk.value) == Some(r.value.id as int)
    ensures pk.Some? && PyInt(pk.value).Some? ==>
              && (r.Raised? <==> forall k :: 0 <= k < |cats| ==> cats[k].id as int != PyInt(pk.value).value)
              && (r.Raised? ==> r.error == DoesNotExist("Category"))
  {
    if pk.None? then Raised(DoesNotExist("Category"))
    else match PyInt(pk.value)
      case None => Raised(InvalidLiteral(pk.value))
      case Some(n) => CategoryWithId(cats, n)
  }

  /** The first stored category with the id `n`. */
  function CategoryWithId(cats: seq<Category>, n: int): (r: Result<Category>)
    ensures r.Ok? ==> r.value in cats && r.value.id as int == n
    ensures r.Raised? <==> forall k :: 0 <= k < |cats| ==> cats[k].id as int != n
    ensures r.Raised? ==> r.error == DoesNotExist("Category")
    decreases |cats|
  {
    if cats == [] then Raised(DoesNotExist("Category"))
    else if cats[0].id as int == n then Ok(cats[0])
    else CategoryWithId(cats[1..], n)
  }

  /**
   * The value the compiled selector gives a category, its id's decimal text,
   * finds a stored category with that id.
   */
  lemma FindCategoryOfItem(cats: seq<Category>, i: nat)
    requires i < |cats|
    ensures FindCategory(cats, Some(Str(cats[i].id))).Ok?
    ensures FindCategory(cats, Some(Str(cats[i].id))).value.id == cats[i].id
  {
    PyIntOfStr(cats[i].id);
  }

  /** A category text without a digit, such as `Null` or the empty text, raises `ValueError`. */
  lemma FindCategoryNotNumber(cats: seq<Category>, text: string)
    requires forall i :: 0 <= i < |text| ==> !IsDigit(text[i])
    ensures FindCategory(cats, Some(text)) == Raised(InvalidLiteral(text))
  {
  }

  /** The body key a field's value is read from: the dash-free key, then the category id. */
  function FieldKey(f: Field, c: Category): string {
    Replace(f.key, '-', '_') + "_" + Str(c.id)
  }

  /** The key the decoder reads is the `ref` the compiled form gave the field. */
  lemma FieldKeyIsRef(c: Category, j: nat)
    requires WellFormed(c) && j < |c.fields|
    ensures FieldKey(c.fields[j], c) == EcmlForm.Ref(c.fields[j].key, c.fields[j].categoryId)
  {
  }

  /** One field's value: its text, or, for a multiple lookup, the ids `json.loads` reads from `[value]`. */
  function FieldValue(f: Field, c: Category, body: map<string, string>): (r: Result<PropValue>)
    ensures r.Raised? <==> f.fieldtype.MultipleLookupField? &&
                           (FieldKey(f, c) !in body || ParseIdList(body[FieldKey(f, c)]).None?)
    ensures r.Raised? && FieldKey(f, c) !in body ==> r.error == TypeError(ConcatNone)
    ensures r.Raised? && FieldKey(f, c) in body ==> r.error == ValueError(NoJson)
    ensures r.Ok? && !f.fieldtype.MultipleLookupField? ==> r.value == TextValue(Get(body, FieldKey(f, c)))
    ensures r.Ok? && f.fieldtype.MultipleLookupField? ==> r.value == IdList(ParseIdList(body[FieldKey(f, c)]).value)
  {
    var v := Get(body, FieldKey(f, c));
    if f.fieldtype.MultipleLookupField? then
      if v.None? then Raised(TypeError(ConcatNone))
      else match ParseIdList(v.value)
        case None => Raised(ValueError(NoJson))
        case Some(ids) => Ok(IdList(ids))
    else Ok(TextValue(v))
  }

  /** The properties after the first `n` fields of `c`, every field whatever its status. */
  function DecodeFields(props: map<string, PropValue>, c: Category, n: nat, body: map<string, string>)
    : Result<map<string, PropValue>>
    requires n <= |c.fields|
    decreases n
  {
    if n == 0 then Ok(props)
    else match DecodeFields(props, c, n - 1, body)
      case Raised(e) => Raised(e)
      case Ok(m) =>
        match FieldValue(c.fields[n - 1], c, body)
        case Raised(e) => Raised(e)
        case Ok(v) => Ok(m[c.fields[n - 1].key := v])
  }

  /** What the `type=data` branch builds from the query, the body and the stored categories. */
  function Decoded(query: map<string, string>, body: map<string, string>, cats: seq<Category>): Result<Observation> {
    if "location_lon" !in body || "location_lat" !in body then Raised(TypeError(FloatOfNone))
    else match FindCategory(cats, Get(body, "category"))
      case Raised(e) => Raised(e)
      case Ok(c) =>
        match DecodeFields(FixedProperties(query, body), c, |c.fields|, body)
        case Raised(e) => Raised(e)
        case Ok(m) => Ok(Observation(body["location_lon"], body["location_lat"], m, Get(body, "category")))
  }

  /** Decoding fails exactly at a field whose value cannot be read, and then with that field's error. */
  lemma {:induction false} DecodeFieldsOk(props: map<string, PropValue>, c: Category, n: nat, body: map<string, string>)
    requires n <= |c.fields|
    ensures DecodeFields(props, c, n, body).Ok? <==> forall j :: 0 <= j < n ==> FieldValue(c.fields[j], c, body).Ok?
    decreases n
  {
    if n > 0 {
      DecodeFieldsOk(props, c, n - 1, body);
    }
  }

  /** Once a field fails, decoding the later fields keeps that error. */
  lemma {:induction false} DecodeFieldsStuck(props: map<string, PropValue>, c: Category, k: nat, n: nat,
                                             body: map<string, string>, e: Exception)
    requires k <= n <= |c.fields| && DecodeFields(props, c, k, body) == Raised(e)
    ensures DecodeFields(props, c, n, body) == Raised(e)
    decreases n
  {
    if n > k {
      DecodeFieldsStuck(props, c, k, n - 1, body, e);
    }
  }

  /** A successful round stores the field's value under its key in the previous properties. */
  lemma DecodeFieldsStep(props: map<string, PropValue>, c: Category, n: nat, body: map<string, string>)
    requires 0 < n <= |c.fields| && DecodeFields(props, c, n, body).Ok?
    ensures DecodeFields(props, c, n - 1, body).Ok? && FieldValue(c.fields[n - 1], c, body).Ok?
    ensures DecodeFields(props, c, n, body).value ==
              DecodeFields(props, c, n - 1, body).value[c.fields[n - 1].key := FieldValue(c.fields[n - 1], c, body).value]
  {
  }

  /**
   * The decoded properties hold the starting keys and every field's key, and a
   * key no field has keeps its starting value.
   */
  lemma {:induction false} DecodeFieldsKeys(props: map<string, PropValue>, c: Category, n: nat, body: map<string, string>)
    requires n <= |c.fields| && DecodeFields(props, c, n, body).Ok?
    ensures var m := DecodeFields(props, c, n, body).value;
            && (forall key :: key in props ==> key in m)
            && (forall j :: 0 <= j < n ==> c.fields[j].key in m)
            && (forall key :: key in props && (forall j :: 0 <= j < n ==> c.fields[j].key != key) ==> m[key] == props[key])
    decreases n
  {
    if n > 0 {
      DecodeFieldsStep(props, c, n, body);
      DecodeFieldsKeys(props, c, n - 1, body);
    }
  }

  /** A field whose key no later field repeats stores its own value. */
  lemma {:induction false} DecodeFieldsValues(props: map<string, PropValue>, c: Category, n: nat, body: map<string, string>)
    requires n <= |c.fields| && DecodeFields(props, c, n, body).Ok?
    ensures var m := DecodeFields(props, c, n, body).value;
            forall j :: 0 <= j < n && (forall l :: j < l < n ==> c.fields[l].key != c.fields[j].key) ==>
              FieldValue(c.fields[j], c, body).Ok? && c.fields[j].key in m && m[c.fields[j].key] == FieldValue(c.fields[j], c, body).value
    decreases n
  {
    if n > 0 {
      DecodeFieldsStep(props, c, n, body);
      DecodeFieldsValues(props, c, n - 1, body);
    }
  }

  /** `type=data`, the decoding part: the fixed properties, then one read per field in a loop. */
  method DecodeObservation(query: map<string, string>, body: map<string, string>, cats: seq<Category>)
    returns (r: Result<Observation>)
    ensures r == Decoded(query, body, cats)
  {
    if "location_lon" !in body || "location_lat" !in body {
      return Raised(TypeError(FloatOfNone));
    }
    var props := FixedProperties(query, body);
    ghost var fixed := props;
    var found := FindCategory(cats, Get(body, "category"));
    if found.Raised? {
      return Raised(found.error);
    }
    var category := found.value;
    var i := 0;
    while i < |category.fields|
      invariant 0 <= i <= |category.fields|
      invariant DecodeFields(fixed, category, i, body) == Ok(props)
    {
      var field := category.fields[i];
      var value := DecodeField(field, category, body);
      if value.Raised? {
        DecodeFieldsStuck(fixed, category, i + 1, |category.fields|, body, value.error);
        return Raised(value.error);
      }
      DecodeFieldsNext(fixed, category, i, body, props, value.value);
      props := props[field.key := value.value];
      i := i + 1;
    }
    r := Ok(Observation(body["location_lon"], body["location_lat"], props, Get(body, "category")));
  }

  /** One round of the field loop: read the field's value under its form key, parsing a multiple lookup's list. */
  method DecodeField(field: Field, category: Category, body: map<string, string>) returns (r: Result<PropValue>)
    ensures r == FieldValue(field, category, body)
  {
    var key := Replace(field.key, '-', '_');
    assert key + "_" + Str(category.id) == FieldKey(field, category);
    if key + "_" + Str(category.id) !in body {
      if field.fieldtype == MultipleLookupField {
        return Raised(TypeError(ConcatNone));
      }
      return Ok(TextValue(None));
    }
    var text := body[key + "_" + Str(category.id)];
    if field.fieldtype == MultipleLookupField {
      var ids := ParseIdList(text);
      if ids.None? {
        return Raised(ValueError(NoJson));
      }
      return Ok(IdList(ids.value));
    }
    r := Ok(TextValue(Some(text)));
  }

  /** A round that reads its field extends the decoded properties by that field's value. */
  lemma DecodeFieldsNext(props: map<string, PropValue>, c: Category, i: nat, body: map<string, string>,
                         m: map<string, PropValue>, v: PropValue)
    requires i < |c.fields| && DecodeFields(props, c, i, body) == Ok(m)
    requires FieldValue(c.fields[i], c, body) == Ok(v)
    ensures DecodeFields(props, c, i + 1, body) == Ok(m[c.fields[i].key := v])
  {
  }

  /** A decoded record is built from the found category and its decoded fields. */
  lemma DecodedParts(query: map<string, string>, body: map<string, string>, cats: seq<Category>)
    requires Decoded(query, body, cats).Ok?
    ensures "location_lon" in body && "location_lat" in body
    ensures FindCategory(cats, Get(body, "category")).Ok?
    ensures var c := FindCategory(cats, Get(body, "category")).value;
            var d := DecodeFields(FixedProperties(query, body), c, |c.fields|, body);
            && d.Ok?
            && Decoded(query, body, cats).value ==
                 Observation(body["location_lon"], body["location_lat"], d.value, Get(body, "category"))
  {
  }

  /** A decoded record keeps the submitted coordinates and category, and holds the six fixed properties. */
  lemma DecodedFixed(query: map<string, string>, body: map<string, string>, cats: seq<Category>)
    requires Decoded(query, body, cats).Ok?
    ensures var o := Decoded(query, body, cats).value;
            && "location_lon" in body && o.lon == body["location_lon"]
            && "location_lat" in body && o.lat == body["location_lat"]
            && o.category == Get(body, "category")
            && forall k :: 0 <= k < |FixedKeys| ==> FixedKeys[k] in o.properties
  {
    DecodedParts(query, body, cats);
    var c := FindCategory(cats, Get(body, "category")).value;
    DecodeFieldsKeys(FixedProperties(query, body), c, |c.fields|, body);
  }

  /**
   * A fixed property no field of the category overrides keeps the value read
   * from the body under its own key, or, for `DeviceID`, the query's `phoneid`.
   */
  lemma DecodedFixedVerbatim(query: map<string, string>, body: map<string, string>, cats: seq<Category>, k: nat)
    requires Decoded(query, body, cats).Ok? && k < |FixedKeys|
    requires var c := FindCategory(cats, Get(body, "category")).value;
             forall j :: 0 <= j < |c.fields| ==> c.fields[j].key != FixedKeys[k]
    ensures var o := Decoded(query, body, cats).value;
            && FixedKeys[k] in o.properties
            && o.properties[FixedKeys[k]] == TextValue(Get(if k == 5 then query else body, if k == 5 then "phoneid" else FixedKeys[k]))
  {
    DecodedParts(query, body, cats);
    var c := FindCategory(cats, Get(body, "category")).value;
    DecodeFieldsKeys(FixedProperties(query, body), c, |c.fields|, body);
  }

  /**
   * The compile/decode round trip: the value the app posts under a field's
   * form `ref` is what the record stores under the field's own key, when no
   * later field repeats that key.
   */
  lemma DecodedFieldValue(query: map<string, string>, body: map<string, string>, cats: seq<Category>, j: nat)
    requires Decoded(query, body, cats).Ok?
    requires var c := FindCategory(cats, Get(body, "category")).value;
             && WellFormed(c) && j < |c.fields|
             && forall l :: j < l < |c.fields| ==> c.fields[l].key != c.fields[j].key
    ensures var c := FindCategory(cats, Get(body, "category")).value;
            var f := c.fields[j];
            var ref := EcmlForm.Ref(f.key, f.categoryId);
            var o := Decoded(query, body, cats).value;
            && f.key in o.properties
            && (!f.fieldtype.MultipleLookupField? ==> o.properties[f.key] == TextValue(Get(body, ref)))
            && (f.fieldtype.MultipleLookupField? ==>
                  ref in body && ParseIdList(body[ref]).Some? && o.properties[f.key] == IdList(ParseIdList(body[ref]).value))
  {
    DecodedParts(query, body, cats);
    var c := FindCategory(cats, Get(body, "category")).value;
    var fixed := FixedProperties(query, body);
    DecodeFieldsValues(fixed, c, |c.fields|, body);
    FieldKeyIsRef(c, j);
  }

  /** The record fails to decode exactly when a coordinate is missing, the category is unknown or a field cannot be read. */
  lemma DecodedErrors(query: map<string, string>, body: map<string, string>, cats: seq<Category>)
    ensures Decoded(query, body, cats).Raised? <==>
              || "location_lon" !in body || "location_lat" !in body
              || FindCategory(cats, Get(body, "category")).Raised?
              || exists j :: 0 <= j < |FindCategory(cats, Get(body, "category")).value.fields| &&
                   FieldValue(FindCategory(cats, Get(body, "category")).value.fields[j],
                              FindCategory(cats, Get(body, "category")).value, body).Raised?
  {
    var found := FindCategory(cats, Get(body, "category"));
    if found.Ok? {
      DecodeFieldsOk(FixedProperties(query, body), found.value, |found.value.fields|, body);
    }
  }

  /** The media a stored record announces: its photo, then its video, each when the body names one. */
  function NewMedia(contribution: nat, body: map<string, string>): (ms: seq<Media>)
    ensures |ms| == (if "photo" in body then 1 else 0) + (if "video" in body then 1 else 0)
    ensures forall k :: 0 <= k < |ms| ==> ms[k].contribution == contribution
    ensures "photo" in body ==> ms[0].fileName == body["photo"]
    ensures "video" in body ==> ms[|ms| - 1].fileName == body["video"]
  {
    (if "photo" in body then [Media(contribution, body["photo"])] else [])
    + (if "video" in body then [Media(contribution, body["video"])] else [])
  }

  /** The `type=data` branch: save the decoded record as the next contribution and register its media. */
  function DataOutcome(s: State, query: map<string, string>, body: map<string, string>, cats: seq<Category>)
    : (Result<Response>, State)
  {
    match Decoded(query, body, cats)
    case Raised(e) => (Raised(e), s)
    case Ok(o) =>
      (Ok(Body("1")), s.(contributions := s.contributions + [o], media := s.media + NewMedia(|s.contributions|, body)))
  }

  /** A stored record adds exactly one contribution and one pending media per announced file; a failed one changes nothing. */
  lemma DataOutcomeEffect(s: State, query: map<string, string>, body: map<string, string>, cats: seq<Category>)
    ensures var (r, t) := DataOutcome(s, query, body, cats);
            && (r.Raised? <==> Decoded(query, body, cats).Raised?)
            && (r.Raised? ==> t == s)
            && (r.Ok? ==>
                  && r.value == Body("1") && |t.contributions| == |s.contributions| + 1
                  && t.contributions[..|s.contributions|] == s.contributions
                  && |t.media| == |s.media| + (if "photo" in body then 1 else 0) + (if "video" in body then 1 else 0)
                  && t.media[..|s.media|] == s.media
                  && (forall k :: |s.media| <= k < |t.media| ==> t.media[k].contribution == |s.contributions|)
                  && t.enabled == s.enabled && t.images == s.images && t.videos == s.videos)
  {
    var (r, t) := DataOutcome(s, query, body, cats);
    if r.Ok? {
      var ms := NewMedia(|s.contributions|, body);
      assert t.media == s.media + ms;
      assert forall k :: |s.media| <= k < |t.media| ==> t.media[k] == ms[k - |s.media|];
    }
  }

  // ---------------------------------------------------------------------------
  // type=thumbnail and type=video: matching uploaded files to pending media
  // ---------------------------------------------------------------------------

  /** The media name a thumbnail's file key is matched against: `key[:key.rfind('.')]`. */
  function ThumbnailName(key: string): (r: string)
    ensures |r| <= |key| && r == key[..|r|]
  {
    SliceTo(key, RFind(key, '.'))
  }

  /** A name with an extension is matched by the name without its last extension. */
  lemma ThumbnailOfName(name: string, ext: string)
    requires '.' !in ext
    ensures ThumbnailName(name + "." + ext) == name
  {
    var key := name + "." + ext;
    var i := RFind(key, '.');
    assert key[|name|] == '.';
    assert forall k :: |name| < k < |key| ==> key[k] == ext[k - |name| - 1];
    assert i == |name|;
    assert key[..|name|] == name;
  }

  /** Only the last extension goes: `x.jpg.jpg` is matched by `x.jpg`. */
  lemma ThumbnailDoubleExtension()
    ensures ThumbnailName("x.jpg.jpg") == "x.jpg"
  {
    ThumbnailOfName("x.jpg", "jpg");
    assert "x.jpg" + "." + "jpg" == "x.jpg.jpg";
  }

  /** Without a dot, `rfind` gives -1 and the slice drops the last character. */
  lemma ThumbnailWithoutDot(key: string)
    requires '.' !in key && key != ""
    ensures ThumbnailName(key) == key[..|key| - 1]
  {
    assert RFind(key, '.') == -1;
  }

  /** How many pending media carry the name. */
  function MediaCount(media: seq<Media>, name: string): nat
    decreases |media|
  {
    if media == [] then 0 else (if media[0].fileName == name then 1 else 0) + MediaCount(media[1..], name)
  }

  /** The first pending media with the name. */
  function MediaIndex(media: seq<Media>, name: string): (i: nat)
    requires MediaCount(media, name) > 0
    ensures i < |media| && media[i].fileName == name
    ensures forall k :: 0 <= k < i ==> media[k].fileName != name
    decreases |media|
  {
    if media[0].fileName == name then 0 else 1 + MediaIndex(media[1..], name)
  }

  /** `EpiCollectMedia.objects.get(file_name=name)`: the one match, or the error of none or several. */
  function GetMedia(media: seq<Media>, name: string): (r: Result<nat>)
    ensures r.Ok? ==> r.value < |media| && media[r.value].fileName == name
    ensures r.Ok? <==> MediaCount(media, name) == 1
    ensures MediaCount(media, name) == 0 ==> r == Raised(DoesNotExist("EpiCollectMedia"))
    ensures MediaCount(media, name) > 1 ==> r == Raised(MultipleObjectsReturned("EpiCollectMedia"))
  {
    var n := MediaCount(media, name);
    if n == 0 then Raised(DoesNotExist("EpiCollectMedia"))
    else if n > 1 then Raised(MultipleObjectsReturned("EpiCollectMedia"))
    else Ok(MediaIndex(media, name))
  }

  /** A name carried once is found at its one position. */
  lemma {:induction false} GetMediaUnique(media: seq<Media>, name: string, i: nat)
    requires i < |media| && media[i].fileName == name && MediaCount(media, name) == 1
    ensures GetMedia(media, name) == Ok(i)
    decreases |media|
  {
    if i > 0 {
      if media[0].fileName == name {
        MediaCountPositive(media[1..], name, i - 1);
      } else {
        GetMediaUnique(media[1..], name, i - 1);
      }
    } else {
      assert MediaIndex(media, name) == 0;
    }
  }

  lemma {:induction false} MediaCountPositive(media: seq<Media>, name: string, i: nat)
    requires i < |media| && media[i].fileName == name
    ensures MediaCount(media, name) > 0
    decreases |media|
  {
    if i > 0 {
      MediaCountPositive(media[1..], name, i - 1);
    }
  }

  /** `delete()` of the record at position `i`. */
  function Remove(media: seq<Media>, i: nat): (r: seq<Media>)
    requires i < |media|
    ensures |r| == |media| - 1
    ensures forall k :: 0 <= k < i ==> r[k] == media[k]
    ensures forall k :: i <= k < |r| ==> r[k] == media[k + 1]
  {
    media[..i] + media[i + 1..]
  }

  /** One key of the thumbnail loop: attach the image to the matched media's contribution, then delete the media. */
  function ThumbnailStep(s: State, key: string): Result<State> {
    match GetMedia(s.media, ThumbnailName(key))
    case Raised(e) => Raised(e)
    case Ok(i) => Ok(s.(images := s.images + [StoredFile(key, s.media[i].contribution)], media := Remove(s.media, i)))
  }

  /** The thumbnail loop over the uploaded file keys: it stops at the first error, keeping what it did before. */
  function ThumbnailsOutcome(s: State, keys: seq<string>): (Result<Response>, State)
    decreases |keys|
  {
    if keys == [] then (Ok(Body("1")), s)
    else match ThumbnailStep(s, keys[0])
      case Raised(e) => (Raised(e), s)
      case Ok(t) => ThumbnailsOutcome(t, keys[1..])
  }

  /** One handled key: one image more, named after the key, one pending media less, and nothing else changes. */
  lemma ThumbnailStepEffect(s: State, key: string)
    requires ThumbnailStep(s, key).Ok?
    ensures var u := ThumbnailStep(s, key).value;
            && |u.images| == |s.images| + 1 && u.images[..|s.images|] == s.images && u.images[|s.images|].name == key
            && |u.media| + 1 == |s.media|
            && u.enabled == s.enabled && u.contributions == s.contributions && u.videos == s.videos
  {
    var i := GetMedia(s.media, ThumbnailName(key)).value;
    var u := ThumbnailStep(s, key).value;
    assert u.images == s.images + [StoredFile(key, s.media[i].contribution)];
  }

  /** The thumbnail loop keeps the images it found and changes neither the projects, the contributions nor the videos. */
  lemma {:induction false} ThumbnailsKeep(s: State, keys: seq<string>)
    ensures var t := ThumbnailsOutcome(s, keys).1;
            && |t.images| >= |s.images| && t.images[..|s.images|] == s.images
            && t.enabled == s.enabled && t.contributions == s.contributions && t.videos == s.videos
    decreases |keys|
  {
    if keys != [] && ThumbnailStep(s, keys[0]).Ok? {
      var u := ThumbnailStep(s, keys[0]).value;
      ThumbnailStepEffect(s, keys[0]);
      ThumbnailsKeep(u, keys[1..]);
      var t := ThumbnailsOutcome(u, keys[1..]).1;
      assert t.images[..|s.images|] == t.images[..|u.images|][..|s.images|];
    }
  }

  /** When every key is handled, each consumes one pending media and attaches one image named after it, in order. */
  lemma {:induction false} ThumbnailsEffect(s: State, keys: seq<string>)
    requires ThumbnailsOutcome(s, keys).0.Ok?
    ensures var (r, t) := ThumbnailsOutcome(s, keys);
            && r.value == Body("1") && |t.media| + |keys| == |s.media| && |t.images| == |s.images| + |keys|
            && (forall k :: 0 <= k < |keys| ==> t.images[|s.images| + k].name == keys[k])
    decreases |keys|
  {
    if keys != [] {
      var u := ThumbnailStep(s, keys[0]).value;
      ThumbnailStepEffect(s, keys[0]);
      ThumbnailsEffect(u, keys[1..]);
      ThumbnailsKeep(u, keys[1..]);
      assert ThumbnailsOutcome(s, keys) == ThumbnailsOutcome(u, keys[1..]);
      var t := ThumbnailsOutcome(u, keys[1..]).1;
      forall k | 0 <= k < |keys|
        ensures t.images[|s.images| + k].name == keys[k]
      {
        if k == 0 {
          assert t.images[|s.images|] == t.images[..|u.images|][|s.images|] == u.images[|s.images|];
        } else {
          assert |s.images| + k == |u.images| + (k - 1);
          assert t.images[|u.images| + (k - 1)].name == keys[1..][k - 1] == keys[k];
        }
      }
    }
  }

  /**
   * The photo round trip: a thumbnail posted as `<photo id>.<ext>` when exactly
   * one pending media carries that id is attached to its contribution, and the
   * media is consumed.
   */
  lemma ThumbnailMatchesPhoto(s: State, i: nat, ext: string)
    requires i < |s.media| && MediaCount(s.media, s.media[i].fileName) == 1 && '.' !in ext
    ensures var key := s.media[i].fileName + "." + ext;
            ThumbnailsOutcome(s, [key]) ==
              (Ok(Body("1")), s.(images := s.images + [StoredFile(key, s.media[i].contribution)], media := Remove(s.media, i)))
  {
    var key := s.media[i].fileName + "." + ext;
    ThumbnailOfName(s.media[i].fileName, ext);
    GetMediaUnique(s.media, s.media[i].fileName, i);
    assert [key][1..] == [];
  }

  /** The `type=video` branch: the uploaded file's own name picks the pending media. */
  function VideoOutcome(s: State, fileName: Option<string>): (Result<Response>, State) {
    if fileName.None? then (Raised(AttributeError("'NoneType' object has no attribute '_name'")), s)
    else match GetMedia(s.media, fileName.value)
      case Raised(e) => (Raised(e), s)
      case Ok(i) =>
        (Ok(Body("1")), s.(videos := s.videos + [StoredFile(fileName.value, s.media[i].contribution)], media := Remove(s.media, i)))
  }

  /** The branches of the upload endpoint, picked by its `type` query parameter. */
  datatype UploadKind = DataUpload | ThumbnailUpload | VideoUpload | OtherUpload

  function Kind(query: map<string, string>): (k: UploadKind)
    ensures k == DataUpload <==> Get(query, "type") == Some("data")
    ensures k == ThumbnailUpload <==> Get(query, "type") == Some("thumbnail")
    ensures k == VideoUpload <==> Get(query, "type") == Some("video")
  {
    var t := Get(query, "type");
    if t == Some("data") then DataUpload
    else if t == Some("thumbnail") then ThumbnailUpload
    else if t == Some("video") then VideoUpload
    else OtherUpload
  }

  /**
   * The upload endpoint. A project without an EpiCollect record answers
   * `0` and changes nothing; otherwise the `type` query parameter picks the
   * branch. Any other type makes the handler return `None`, which the REST
   * framework's `finalize_response` rejects with an `AssertionError`.
   */
  function UploadOutcome(s: State, projectId: nat, query: map<string, string>, body: map<string, string>,
                         cats: seq<Category>, fileKeys: seq<string>, videoFile: Option<string>)
    : (Result<Response>, State)
  {
    if projectId !in s.enabled then (Ok(Body("0")), s)
    else match Kind(query)
      case DataUpload => DataOutcome(s, query, body, cats)
      case ThumbnailUpload => ThumbnailsOutcome(s, fileKeys)
      case VideoUpload => VideoOutcome(s, videoFile)
      case OtherUpload => (Raised(AssertionError(NoResponse)), s)
  }

  /** An upload for a project that is not enabled answers `0` and creates nothing. */
  lemma UnknownProjectUpload(s: State, projectId: nat, query: map<string, string>, body: map<string, string>,
                             cats: seq<Category>, fileKeys: seq<string>, videoFile: Option<string>)
    requires projectId !in s.enabled
    ensures UploadOutcome(s, projectId, query, body, cats, fileKeys, videoFile) == (Ok(Body("0")), s)
  {
  }

  /** No upload enables or disables a project or forgets a stored contribution. */
  lemma UploadKeeps(s: State, projectId: nat, query: map<string, string>, body: map<string, string>,
                    cats: seq<Category>, fileKeys: seq<string>, videoFile: Option<string>)
    ensures var t := UploadOutcome(s, projectId, query, body, cats, fileKeys, videoFile).1;
            t.enabled == s.enabled && |t.contributions| >= |s.contributions|
            && t.contributions[..|s.contributions|] == s.contributions
  {
    if projectId in s.enabled {
      match Kind(query)
      case DataUpload =>
        DataOutcomeEffect(s, query, body, cats);
      case ThumbnailUpload =>
        ThumbnailsKeep(s, fileKeys);
      case _ =>
    }
  }

  // ---------------------------------------------------------------------------
  // Download
  // ---------------------------------------------------------------------------

  /** The download endpoint: TSV exactly when `xml=false`, the `<entries>` tree otherwise, 403 when not enabled. */
  function DownloadResponse(s: State, projectId: nat, xml: Option<string>, projectName: string,
                            records: seq<DataExport.Record>): (r: Response)
    ensures r.Forbidden? <==> projectId !in s.enabled
    ensures r.Body? <==> projectId in s.enabled && xml == Some("false")
    ensures r.Body? ==> r.text == DataExport.TsvText(projectName, records)
    ensures r.Tree? ==> r.root == DataExport.EntriesTree(projectName, records)
  {
    if projectId !in s.enabled then Forbidden(NotEnabled)
    else if xml == Some("false") then Body(DataExport.TsvText(projectName, records))
    else Tree(DataExport.EntriesTree(projectName, records))
  }

  // ---------------------------------------------------------------------------
  // The store and the views over it
  // ---------------------------------------------------------------------------

  class Store {
    var enabled: set<nat>
    var contributions: seq<Observation>
    var media: seq<Media>
    var images: seq<StoredFile>
    var videos: seq<StoredFile>

    function Snapshot(): State
      reads this
    {
      State(enabled, contributions, media, images, videos)
    }

    constructor (enabled: set<nat>)
      ensures Snapshot() == State(enabled, [], [], [], [])
    {
      this.enabled := enabled;
      contributions := [];
      media := [];
      images := [];
      videos := [];
    }

    /**
     * `IndexPage.update_projects`: delete or create the records the ticked
     * boxes disagree with, stopping at the first exception; the changes made
     * before it are kept.
     */
    method UpdateProjects(projects: seq<nat>, form: seq<string>) returns (error: Option<Exception>)
      modifies this
      ensures error == Reconcile(old(enabled), projects, form).error
      ensures Snapshot() == old(Snapshot()).(enabled := Reconcile(old(enabled), projects, form).enabled)
    {
      var before := enabled;
      var i := 0;
      error := None;
      while i < |projects|
        invariant 0 <= i <= |projects|
        invariant Reconcile(before, projects[..i], form).error.None?
        invariant Snapshot() == old(Snapshot()).(enabled := Reconcile(before, projects[..i], form).enabled)
      {
        var p := projects[i];
        assert projects[..i + 1][..i] == projects[..i];
        if p in before && Str(p) !in form {
          if p !in enabled {
            error := Some(DoesNotExist("EpiCollectProject"));
            ReconcileStops(before, projects, form, i + 1);
            return;
          }
          enabled := enabled - {p};
        } else if p !in before && Str(p) in form {
          if p in enabled {
            error := Some(IntegrityError("EpiCollectProject"));
            ReconcileStops(before, projects, form, i + 1);
            return;
          }
          enabled := enabled + {p};
        }
        i := i + 1;
      }
      assert projects[..i] == projects;
    }

    /** `EpiCollectUploadView.post` */
    method Upload(projectId: nat, query: map<string, string>, body: map<string, string>,
                  cats: seq<Category>, fileKeys: seq<string>, videoFile: Option<string>)
      returns (r: Result<Response>)
      modifies this
      ensures (r, Snapshot()) == UploadOutcome(old(Snapshot()), projectId, query, body, cats, fileKeys, videoFile)
    {
      if projectId !in enabled {
        return Ok(Body("0"));
      }
      match Kind(query)
      case DataUpload =>
        r := PostData(query, body, cats);
      case ThumbnailUpload =>
        r := PostThumbnails(fileKeys);
      case VideoUpload =>
        r := PostVideo(videoFile);
      case OtherUpload =>
        r := Raised(AssertionError(NoResponse));
    }

    /** The `type=data` branch. */
    method PostData(query: map<string, string>, body: map<string, string>, cats: seq<Category>)
      returns (r: Result<Response>)
      modifies this
      ensures (r, Snapshot()) == DataOutcome(old(Snapshot()), query, body, cats)
    {
      var observation := DecodeObservation(query, body, cats);
      if observation.Raised? {
        return Raised(observation.error);
      }
      var contribution := |contributions|;
      contributions := contributions + [observation.value];
      RegisterMedia(contribution, body);
      r := Ok(Body("1"));
    }

    /** The end of the `type=data` branch: a pending media for the photo, then one for the video, when announced. */
    method RegisterMedia(contribution: nat, body: map<string, string>)
      modifies this
      ensures Snapshot() == old(Snapshot()).(media := old(media) + NewMedia(contribution, body))
    {
      ghost var photo := if "photo" in body then [Media(contribution, body["photo"])] else [];
      if "photo" in body {
        media := media + [Media(contribution, body["photo"])];
      }
      assert media == old(media) + photo;
      if "video" in body {
        media := media + [Media(contribution, body["video"])];
      }
    }

    /** The `type=thumbnail` branch: one round per uploaded file key. */
    method PostThumbnails(fileKeys: seq<string>) returns (r: Result<Response>)
      modifies this
      ensures (r, Snapshot()) == ThumbnailsOutcome(old(Snapshot()), fileKeys)
    {
      var i := 0;
      while i < |fileKeys|
        invariant 0 <= i <= |fileKeys|
        invariant ThumbnailsOutcome(Snapshot(), fileKeys[i..]) == ThumbnailsOutcome(old(Snapshot()), fileKeys)
      {
        var key := fileKeys[i];
        assert fileKeys[i..][1..] == fileKeys[i + 1..];
        var found := GetMedia(media, SliceTo(key, RFind(key, '.')));
        if found.Raised? {
          return Raised(found.error);
        }
        images := images + [StoredFile(key, media[found.value].contribution)];
        media := media[..found.value] + media[found.value + 1..];
        i := i + 1;
      }
      r := Ok(Body("1"));
    }

    /** The `type=video` branch. */
    method PostVideo(videoFile: Option<string>) returns (r: Result<Response>)
      modifies this
      ensures (r, Snapshot()) == VideoOutcome(old(Snapshot()), videoFile)
    {
      if videoFile.None? {
        return Raised(AttributeError("'NoneType' object has no attribute '_name'"));
      }
      var found := GetMedia(media, videoFile.value);
      if found.Raised? {
        return Raised(found.error);
      }
      videos := videos + [StoredFile(videoFile.value, media[found.value].contribution)];
      media := media[..found.value] + media[found.value + 1..];
      r := Ok(Body("1"));
    }

    /**
     * `EpiCollectProject.get`: the compiled form of an enabled project, the
     * 403 page otherwise; a field of unknown type escapes as `TypeError`.
     */
    method Form(projectId: nat, project: Project, baseUrl: string, uploadPath: string, downloadPath: string)
      returns (r: Result<Response>)
      requires project.id == projectId
      ensures projectId !in enabled ==> r == Ok(Forbidden(NotEnabled))
      ensures projectId in enabled ==>
                r == match EcmlForm.Document(project, baseUrl, uploadPath, downloadPath)
                     case Raised(e) => Raised(e)
                     case Ok(root) => Ok(Tree(root))
      ensures projectId in enabled ==>
                && (r.Raised? <==> !EcmlForm.AllKnown(ActiveCategories(project.categories)))
                && (r.Raised? ==> r.error == TypeError(EcmlForm.UnknownFieldType))
                && (r.Ok? ==> r.value.Tree? && r.value.root.tag == "ecml" && |r.value.root.children| == 2
                              && r.value.root.children[0] == EcmlForm.ModelHeader(project, baseUrl, uploadPath, downloadPath))
    {
      if projectId !in enabled {
        return Ok(Forbidden(NotEnabled));
      }
      var xml := EcmlForm.Serialize(project, baseUrl, uploadPath, downloadPath);
      if xml.Raised? {
        return Raised(xml.error);
      }
      r := Ok(Tree(xml.value));
    }

    /** `EpiCollectDownloadView.get`, for the project's name and its stored records. */
    method Download(projectId: nat, xml: Option<string>, projectName: string, records: seq<DataExport.Record>)
      returns (r: Response)
      ensures r == DownloadResponse(Snapshot(), projectId, xml, projectName, records)
    {
      if projectId !in enabled {
        return Forbidden(NotEnabled);
      }
      if xml == Some("false") {
        var tsv := DataExport.SerializeToTsv(projectName, records);
        r := Body(tsv);
      } else {
        var tree := DataExport.SerializeToXml(projectName, records);
        r := Tree(tree);
      }
    }
  }
}
