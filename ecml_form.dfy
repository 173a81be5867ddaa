/**
 * The EcML form compiler of geokey_epicollect/serializer.py
 * (ProjectFormSerializer): a project, its active categories and their typed
 * fields become the EcML element tree EpiCollect's mobile app reads.
 *
 * Every input and select is named by its composite reference
 * `<key with - made _>_<category id>`; a `select1` lets the user pick the
 * category and its `jump` attribute sends the app to that category's first
 * field.
 */
module EcmlForm {
  import opened Strings
  import opened Exceptions
  import opened Xml
  import opened Schema

  const UnknownFieldType := "Unknown field type."

  /** The field types `serialize_field` knows how to compile. */
  predicate Known(f: Field) {
    !f.fieldtype.TrueFalseField? && !f.fieldtype.OtherField?
  }

  // ---------------------------------------------------------------------------
  // Helpers
  // ---------------------------------------------------------------------------

  /** `create_label`: a `<label>` whose text is the given name. */
  function CreateLabel(text: string): Element {
    Leaf("label", text)
  }

  /** `create_item`: an `<item>` holding a label and the value's text. */
  function CreateItem(name: string, value: string): (item: Element)
    ensures item.tag == "item" && item.attrs == map[] && |item.children| == 2
    ensures Find(item, "label") == Some(CreateLabel(name))
    ensures Find(item, "value") == Some(Leaf("value", value))
    ensures item.children[0].text == Some(name) && item.children[1].text == Some(value)
  {
    var item := Append(Append(NewElement("item", map[]), CreateLabel(name)), Leaf("value", value));
    assert item.children == [CreateLabel(name), Leaf("value", value)];
    assert item.children[1..] == [Leaf("value", value)];
    assert FindIn(item.children[1..], "value") == Some(Leaf("value", value));
    item
  }

  /**
   * The composite reference of a field: its key with every `-` replaced by `_`,
   * then `_` and the id of its category.
   */
  function Ref(key: string, categoryId: nat): (r: string)
    ensures '-' !in r
    ensures |r| == |key| + 1 + |Str(categoryId)|
    ensures r[..|key|] == Replace(key, '-', '_')
    ensures r[|key|] == '_' && r[|key| + 1..] == Str(categoryId)
  {
    Replace(key, '-', '_') + "_" + Str(categoryId)
  }

  /** Applying the dash transform first changes nothing: the transform is idempotent. */
  lemma RefNormalisedKey(key: string, categoryId: nat)
    ensures Ref(Replace(key, '-', '_'), categoryId) == Ref(key, categoryId)
  {
    ReplaceIdempotent(key, '-', '_');
  }

  /**
   * Two fields share a reference only when they belong to the same category and
   * their keys agree up to dashes: identical keys in different categories never clash.
   */
  lemma RefDisambiguates(k1: string, c1: nat, k2: string, c2: nat)
    requires Ref(k1, c1) == Ref(k2, c2)
    ensures c1 == c2
    ensures Replace(k1, '-', '_') == Replace(k2, '-', '_')
  {
    var r := Ref(k1, c1);
    var s1, s2 := Str(c1), Str(c2);
    assert |k1| == |k2|;
    assert s1 == r[|k1| + 1..] == s2;
    StrInjective(c1, c2);
  }

  /** The attributes every compiled field starts from: its reference, and `required` when it is. */
  function BaseAttrs(f: Field): map<string, string> {
    if f.required then map["ref" := Ref(f.key, f.categoryId), "required" := "true"]
    else map["ref" := Ref(f.key, f.categoryId)]
  }

  /** An attribute that is set only when the field carries a value for it. */
  function OptionalAttr(name: string, value: Option<string>): map<string, string> {
    if value.Some? then map[name := value.value] else map[]
  }

  /** A numeric field is decimal, with its bounds when it has them. */
  function NumericAttrs(f: Field): map<string, string> {
    map["decimal" := "true"] + OptionalAttr("min", f.minval) + OptionalAttr("max", f.maxval)
  }

  /** The attributes a known field type adds to the base ones. */
  function TypeAttrs(f: Field): map<string, string> {
    match f.fieldtype
    case NumericField => NumericAttrs(f)
    case DateField | DateTimeField => map["date" := "dd/MM/yyyy"]
    case TimeField => map["time" := "HH:mm"]
    case _ => map[]
  }

  /** All attributes of a compiled field before the end jump. */
  function FieldAttrs(f: Field): map<string, string> {
    BaseAttrs(f) + TypeAttrs(f)
  }

  /** `create_base_input`: an `<input>` named by the composite reference. */
  function CreateBaseInput(f: Field): (e: Element)
    ensures e.tag == "input" && e.text == None && e.children == []
    ensures e.attrs == BaseAttrs(f)
    ensures "ref" in e.attrs && e.attrs["ref"] == Ref(f.key, f.categoryId)
    ensures "required" in e.attrs <==> f.required
  {
    CreateBaseSelect(f, "input")
  }

  /** `create_base_select`: the same as an input, under the given tag. */
  function CreateBaseSelect(f: Field, tag: string): (e: Element)
    ensures e.tag == tag && e.text == None && e.children == []
    ensures e.attrs == BaseAttrs(f)
    ensures "ref" in e.attrs && e.attrs["ref"] == Ref(f.key, f.categoryId)
    ensures "required" in e.attrs <==> f.required
  {
    var base := NewElement(tag, map["ref" := Ref(f.key, f.categoryId)]);
    if f.required then SetAttr(base, "required", "true") else base
  }

  function PhotoInput(): Element {
    Append(NewElement("photo", map["ref" := "photo"]), CreateLabel("Add photo"))
  }

  function VideoInput(): Element {
    Append(NewElement("video", map["ref" := "video"]), CreateLabel("Add video"))
  }

  // ---------------------------------------------------------------------------
  // Field serialisers
  // ---------------------------------------------------------------------------

  function SerializeTextField(f: Field): (e: Element)
    ensures e.tag == "input" && e.text == None
    ensures e.attrs == BaseAttrs(f)
    ensures e.children == [CreateLabel(f.name)]
  {
    Append(CreateBaseInput(f), CreateLabel(f.name))
  }

  function SerializeNumericField(f: Field): (e: Element)
    ensures e.tag == "input" && e.text == None
    ensures e.attrs == BaseAttrs(f) + NumericAttrs(f)
    ensures e.children == [CreateLabel(f.name)]
  {
    var decimal := SetAttr(CreateBaseInput(f), "decimal", "true");
    UpdateIsUnion(BaseAttrs(f), "decimal", "true");
    var low := SetOptionalAttr(decimal, "min", f.minval);
    var high := SetOptionalAttr(low, "max", f.maxval);
    UnionAssoc(BaseAttrs(f), map["decimal" := "true"], OptionalAttr("min", f.minval));
    UnionAssoc(BaseAttrs(f), map["decimal" := "true"] + OptionalAttr("min", f.minval), OptionalAttr("max", f.maxval));
    Append(high, CreateLabel(f.name))
  }

  /** A numeric field is always decimal, and carries a bound exactly when it has one, with that bound's text. */
  lemma NumericBounds(f: Field)
    ensures var a := SerializeNumericField(f).attrs;
            && "decimal" in a && a["decimal"] == "true"
            && ("min" in a <==> f.minval.Some?) && (f.minval.Some? ==> a["min"] == f.minval.value)
            && ("max" in a <==> f.maxval.Some?) && (f.maxval.Some? ==> a["max"] == f.maxval.value)
  {
    var base := BaseAttrs(f);
    assert SerializeNumericField(f).attrs == base + NumericAttrs(f);
    assert base.Keys <= {"ref", "required"};
    BoundsNotBase(base);
    NumericOverBase(base, f);
  }

  /** Neither bound is the name of a base attribute. */
  lemma BoundsNotBase(base: map<string, string>)
    requires base.Keys <= {"ref", "required"}
    ensures "min" !in base && "max" !in base
  {
    assert "min"[0] != "ref"[0] && "max"[0] != "ref"[0];
    assert "min"[0] != "required"[0] && "max"[0] != "required"[0];
  }

  /** The numeric attributes keep their values over base attributes that name no bound. */
  lemma NumericOverBase(base: map<string, string>, f: Field)
    requires "min" !in base && "max" !in base
    ensures var a := base + NumericAttrs(f);
            && "decimal" in a && a["decimal"] == "true"
            && ("min" in a <==> f.minval.Some?) && (f.minval.Some? ==> a["min"] == f.minval.value)
            && ("max" in a <==> f.maxval.Some?) && (f.maxval.Some? ==> a["max"] == f.maxval.value)
  {
    var lo, hi := OptionalAttr("min", f.minval), OptionalAttr("max", f.maxval);
    assert "min"[1] != "max"[1];
    assert "min" !in hi && "max" !in lo;
    assert "decimal" in NumericAttrs(f) && NumericAttrs(f)["decimal"] == "true" by {
      assert "decimal"[0] != "min"[0] && "decimal"[0] != "max"[0];
    }
  }

  /** Setting an attribute only when its value is present. */
  function SetOptionalAttr(e: Element, name: string, value: Option<string>): (r: Element)
    ensures r.attrs == e.attrs + OptionalAttr(name, value)
    ensures r.tag == e.tag && r.text == e.text && r.children == e.children
  {
    if value.Some? then SetAttr(e, name, value.value) else e
  }

  lemma UpdateIsUnion(m: map<string, string>, k: string, v: string)
    ensures m[k := v] == m + map[k := v]
  {
  }

  lemma UnionAssoc(a: map<string, string>, b: map<string, string>, c: map<string, string>)
    ensures (a + b) + c == a + (b + c)
  {
  }

  /** For DateField and DateTimeField alike. */
  function SerializeDateField(f: Field): (e: Element)
    ensures e.tag == "input" && e.text == None
    ensures e.attrs == BaseAttrs(f) + map["date" := "dd/MM/yyyy"]
    ensures e.children == [CreateLabel(f.name)]
  {
    Append(SetAttr(CreateBaseInput(f), "date", "dd/MM/yyyy"), CreateLabel(f.name))
  }

  function SerializeTimeField(f: Field): (e: Element)
    ensures e.tag == "input" && e.text == None
    ensures e.attrs == BaseAttrs(f) + map["time" := "HH:mm"]
    ensures e.children == [CreateLabel(f.name)]
  {
    Append(SetAttr(CreateBaseInput(f), "time", "HH:mm"), CreateLabel(f.name))
  }

  /** One `<item>` per lookup value, labelled by its name, valued by its id. */
  function LookupItems(values: seq<LookupValue>): seq<Element> {
    seq(|values|, k requires 0 <= k < |values| => CreateItem(values[k].name, Str(values[k].id)))
  }

  /** What the single and multiple lookup serialisers build, under `radio` or `select`. */
  function LookupFieldElement(f: Field, tag: string): (e: Element)
    ensures e.tag == tag && e.text == None
    ensures e.attrs == BaseAttrs(f)
    ensures e.children == [CreateLabel(f.name)] + LookupItems(ActiveValues(f.lookupvalues))
  {
    var e := Append(CreateBaseSelect(f, tag), CreateLabel(f.name));
    e.(children := e.children + LookupItems(ActiveValues(f.lookupvalues)))
  }

  /** The element tag `serialize_field` chooses for a known field type. */
  function TagFor(fieldtype: FieldType): string {
    match fieldtype
    case LookupField => "radio"
    case MultipleLookupField => "select"
    case _ => "input"
  }

  /**
   * The tag and content the type-specific serialiser gives a known field:
   * the label followed, for lookups, by one item per active lookup value.
   */
  predicate ShapedAs(e: Element, f: Field) {
    && e.tag == TagFor(f.fieldtype)
    && e.text == None
    && |e.children| >= 1
    && e.children[0] == CreateLabel(f.name)
    && (if f.fieldtype.LookupField? || f.fieldtype.MultipleLookupField?
        then e.children[1..] == LookupItems(ActiveValues(f.lookupvalues))
        else |e.children| == 1)
  }

  /** The dispatch of `serialize_field` on the field type. */
  function SerializeByType(f: Field): (r: Result<Element>)
    ensures r.Raised? <==> !Known(f)
    ensures r.Raised? ==> r.error == TypeError(UnknownFieldType)
  {
    match f.fieldtype
    case TextField => Ok(SerializeTextField(f))
    case NumericField => Ok(SerializeNumericField(f))
    case DateTimeField | DateField => Ok(SerializeDateField(f))
    case TimeField => Ok(SerializeTimeField(f))
    case LookupField => Ok(LookupFieldElement(f, "radio"))
    case MultipleLookupField => Ok(LookupFieldElement(f, "select"))
    case _ => Raised(TypeError(UnknownFieldType))
  }

  /**
   * The type-specific element of a known field: the tag, label and items of
   * its type, and exactly the base attributes plus those of its type.
   */
  lemma SerializeByTypeShape(f: Field)
    requires Known(f)
    ensures ShapedAs(SerializeByType(f).value, f) && SerializeByType(f).value.attrs == FieldAttrs(f)
  {
    if f.fieldtype.LookupField? || f.fieldtype.MultipleLookupField? {
      assert SerializeByType(f).value == LookupFieldElement(f, TagFor(f.fieldtype));
      LookupShape(f);
    } else {
      InputShape(f);
    }
  }

  /** A lookup field's element: the label, then its items; no attribute besides the base ones. */
  lemma LookupShape(f: Field)
    requires f.fieldtype.LookupField? || f.fieldtype.MultipleLookupField?
    ensures ShapedAs(LookupFieldElement(f, TagFor(f.fieldtype)), f)
    ensures LookupFieldElement(f, TagFor(f.fieldtype)).attrs == FieldAttrs(f)
  {
    var e, items := LookupFieldElement(f, TagFor(f.fieldtype)), LookupItems(ActiveValues(f.lookupvalues));
    assert e.children == [CreateLabel(f.name)] + items;
    assert e.children[1..] == items;
    assert TypeAttrs(f) == map[];
    assert FieldAttrs(f) == BaseAttrs(f) + map[];
  }

  /** Any other known field: an `input` holding only its label, with the attributes of its type. */
  lemma InputShape(f: Field)
    requires Known(f) && !f.fieldtype.LookupField? && !f.fieldtype.MultipleLookupField?
    ensures ShapedAs(SerializeByType(f).value, f) && SerializeByType(f).value.attrs == FieldAttrs(f)
  {
    match f.fieldtype
    case TextField =>
      assert FieldAttrs(f) == BaseAttrs(f) + map[];
    case NumericField =>
    case DateTimeField =>
    case DateField =>
    case TimeField =>
  }

  /**
   * `serialize_field`: the type-specific element, then `jump='photo,ALL'`
   * exactly when `jumpEnd` holds. An unknown type raises `TypeError`.
   */
  function FieldElement(f: Field, jumpEnd: bool): (r: Result<Element>)
    ensures r.Raised? <==> !Known(f)
    ensures r.Raised? ==> r.error == TypeError(UnknownFieldType)
  {
    var compiled := SerializeByType(f);
    if compiled.Ok? && jumpEnd then Ok(SetAttr(compiled.value, "jump", "photo,ALL"))
    else compiled
  }

  /**
   * The element `serialize_field` builds for a field of known type: shaped
   * as its type demands, with exactly the attributes of its type and
   * `jump='photo,ALL'` added exactly when `jumpEnd`.
   */
  lemma FieldElementShape(f: Field, jumpEnd: bool)
    requires Known(f)
    ensures var e := FieldElement(f, jumpEnd).value;
            && ShapedAs(e, f)
            && e.attrs == FieldAttrs(f) + (if jumpEnd then map["jump" := "photo,ALL"] else map[])
  {
    var compiled := SerializeByType(f).value;
    SerializeByTypeShape(f);
    var e := FieldElement(f, jumpEnd).value;
    if jumpEnd {
      UpdateIsUnion(compiled.attrs, "jump", "photo,ALL");
      assert e == compiled.(attrs := compiled.attrs["jump" := "photo,ALL"]);
      assert e.tag == compiled.tag && e.text == compiled.text && e.children == compiled.children;
    } else {
      assert e == compiled;
      assert FieldAttrs(f) + map[] == FieldAttrs(f);
    }
  }

  /**
   * Every option a lookup field offers is valued by the decimal id of one of
   * its active lookup values, so the id the app sends back names a real value.
   */
  lemma LookupItemValues(f: Field, k: nat)
    requires k < |LookupItems(ActiveValues(f.lookupvalues))|
    ensures var item := LookupItems(ActiveValues(f.lookupvalues))[k];
            var v := ActiveValues(f.lookupvalues)[k];
            && v in f.lookupvalues && v.active
            && Find(item, "label") == Some(CreateLabel(v.name))
            && Find(item, "value") == Some(Leaf("value", Str(v.id)))
            && ParseNat(Str(v.id)) == Some(v.id)
  {
    FilterMembers(f.lookupvalues, IsActiveValue);
    ParseNatOfStr(ActiveValues(f.lookupvalues)[k].id);
  }

  /**
   * `serialize_singlelookup_field`: a `radio` with the label and one item per
   * active lookup value, appended in a loop.
   */
  method SerializeSingleLookupField(f: Field) returns (e: Element)
    ensures e == LookupFieldElement(f, "radio")
  {
    e := SerializeLookupField(f, "radio");
  }

  /** `serialize_multiplelookup_field`: the same under the tag `select`. */
  method SerializeMultipleLookupField(f: Field) returns (e: Element)
    ensures e == LookupFieldElement(f, "select")
  {
    e := SerializeLookupField(f, "select");
  }

  method SerializeLookupField(f: Field, tag: string) returns (e: Element)
    ensures e == LookupFieldElement(f, tag)
  {
    e := CreateBaseSelect(f, tag);
    e := Append(e, CreateLabel(f.name));
    ghost var start := e;
    var values := ActiveValues(f.lookupvalues);
    var i := 0;
    while i < |values|
      invariant 0 <= i <= |values|
      invariant e == start.(children := start.children + LookupItems(values[..i]))
    {
      LookupItemsStep(values, i);
      e := Append(e, CreateItem(values[i].name, Str(values[i].id)));
      i := i + 1;
    }
    assert values[..i] == values;
  }

  lemma LookupItemsStep(values: seq<LookupValue>, i: nat)
    requires i < |values|
    ensures LookupItems(values[..i + 1]) == LookupItems(values[..i]) + [CreateItem(values[i].name, Str(values[i].id))]
  {
    var pre, all := values[..i], values[..i + 1];
    var a, b := LookupItems(all), LookupItems(pre) + [CreateItem(values[i].name, Str(values[i].id))];
    assert |a| == |b| == i + 1;
    forall k | 0 <= k < i + 1
      ensures a[k] == b[k]
    {
      if k < i {
        assert all[k] == pre[k];
      } else {
        assert all[k] == values[i];
      }
    }
  }

  /** `serialize_field`, building the element step by step. */
  method SerializeField(f: Field, jumpEnd: bool) returns (r: Result<Element>)
    ensures r == FieldElement(f, jumpEnd)
  {
    var e: Element;
    if f.fieldtype == TextField {
      e := SerializeTextField(f);
    } else if f.fieldtype == NumericField {
      e := SerializeNumericField(f);
    } else if f.fieldtype == DateTimeField || f.fieldtype == DateField {
      e := SerializeDateField(f);
    } else if f.fieldtype == TimeField {
      e := SerializeTimeField(f);
    } else if f.fieldtype == LookupField {
      e := SerializeSingleLookupField(f);
    } else if f.fieldtype == MultipleLookupField {
      e := SerializeMultipleLookupField(f);
    } else {
      return Raised(TypeError(UnknownFieldType));
    }
    assert e == SerializeByType(f).value;
    if jumpEnd {
      e := SetAttr(e, "jump", "photo,ALL");
    }
    r := Ok(e);
  }

  // ---------------------------------------------------------------------------
  // Categories: the selector, its jump chain and the compiled fields
  // ---------------------------------------------------------------------------

  /** Field `j` of the active fields gets the end jump when `j` is the last index of ALL fields. */
  predicate JumpEnd(c: Category, j: nat) {
    j == |c.fields| - 1
  }

  /** The jump pair of category number `idx`: its first active field's reference, then `idx + 1`. */
  function JumpPair(c: Category, idx: nat): (p: string)
    requires ActiveFields(c.fields) != []
    ensures p != "" && ',' in p
  {
    var first := ActiveFields(c.fields)[0];
    var p := Ref(first.key, first.categoryId) + "," + Str(idx + 1);
    assert p[|Ref(first.key, first.categoryId)|] == ',';
    p
  }

  /** The pairs the selector's jump collects: from every category but the first that has an active field. */
  function JumpEntries(cats: seq<Category>): (es: seq<string>)
    ensures forall k :: 0 <= k < |es| ==> es[k] != ""
    decreases |cats|
  {
    if cats == [] then []
    else
      var n := |cats| - 1;
      JumpEntries(cats[..n]) + (if Contributes(cats, n) then [JumpPair(cats[n], n)] else [])
  }

  /** Category `i` contributes a pair when it is not the first and has an active field. */
  predicate Contributes(cats: seq<Category>, i: nat)
    requires i < |cats|
  {
    i > 0 && ActiveFields(cats[i].fields) != []
  }

  /** The indices of the categories that contribute to the jump chain, in order. */
  function JumpIndices(cats: seq<Category>): (idx: seq<nat>)
    ensures forall k :: 0 <= k < |idx| ==> idx[k] < |cats| && Contributes(cats, idx[k])
    decreases |cats|
  {
    if cats == [] then []
    else
      var n := |cats| - 1;
      var pre := cats[..n];
      var idx := JumpIndices(pre);
      assert forall k :: 0 <= k < |idx| ==> pre[idx[k]] == cats[idx[k]];
      idx + (if Contributes(cats, n) then [n] else [])
  }

  /** The contributing indices come in strictly increasing order, so none repeats. */
  lemma {:induction false} JumpIndicesIncreasing(cats: seq<Category>)
    ensures forall k, l :: 0 <= k < l < |JumpIndices(cats)| ==> JumpIndices(cats)[k] < JumpIndices(cats)[l]
    decreases |cats|
  {
    if cats != [] {
      var n := |cats| - 1;
      JumpIndicesIncreasing(cats[..n]);
      var idx := JumpIndices(cats[..n]);
      var idx' := JumpIndices(cats);
      assert idx' == idx + (if Contributes(cats, n) then [n] else []);
      forall k, l | 0 <= k < l < |idx'|
        ensures idx'[k] < idx'[l]
      {
        if l < |idx| {
          assert idx'[k] == idx[k] && idx'[l] == idx[l];
        } else {
          assert idx'[l] == n && idx'[k] == idx[k] && idx[k] < |cats[..n]|;
        }
      }
    }
  }

  /** Every category that is not the first and has an active field contributes. */
  lemma {:induction false} JumpIndicesComplete(cats: seq<Category>)
    ensures forall i: nat :: i < |cats| && Contributes(cats, i) ==> i in JumpIndices(cats)
    decreases |cats|
  {
    if cats != [] {
      var n := |cats| - 1;
      var pre := cats[..n];
      JumpIndicesComplete(pre);
      var idx := JumpIndices(pre);
      var idx' := JumpIndices(cats);
      assert idx' == idx + (if Contributes(cats, n) then [n] else []);
      forall i: nat | i < |cats| && Contributes(cats, i)
        ensures i in idx'
      {
        if i < n {
          assert pre[i] == cats[i];
          assert Contributes(pre, i);
          assert i in idx;
        } else {
          assert i == n && idx' == idx + [n];
          assert idx'[|idx|] == n;
        }
      }
    }
  }

  /**
   * The jump chain, declaratively: entry `k` is the pair of the `k`-th
   * contributing category, so there is one pair per category with index > 0
   * that has an active field, in category order, and no other pair.
   */
  lemma {:induction false} JumpChainShape(cats: seq<Category>)
    ensures |JumpEntries(cats)| == |JumpIndices(cats)|
    ensures forall k :: 0 <= k < |JumpIndices(cats)| ==>
              JumpEntries(cats)[k] == JumpPair(cats[JumpIndices(cats)[k]], JumpIndices(cats)[k])
    decreases |cats|
  {
    if cats != [] {
      var n := |cats| - 1;
      var pre := cats[..n];
      JumpChainShape(pre);
      var idx, es := JumpIndices(pre), JumpEntries(pre);
      var idx', es' := JumpIndices(cats), JumpEntries(cats);
      assert idx' == idx + (if Contributes(cats, n) then [n] else []);
      assert es' == es + (if Contributes(cats, n) then [JumpPair(cats[n], n)] else []);
      forall k | 0 <= k < |idx'|
        ensures es'[k] == JumpPair(cats[idx'[k]], idx'[k])
      {
        if k < |idx| {
          assert idx'[k] == idx[k] && es'[k] == es[k];
          assert pre[idx[k]] == cats[idx[k]];
        }
      }
    }
  }

  /**
   * A field gets `jump='photo,ALL'` in some category exactly when none of its
   * fields is inactive: the index runs over active fields but is compared with
   * the count of all of them.
   */
  lemma JumpEndOnlyWhenAllActive(c: Category)
    ensures (exists j: nat :: j < |ActiveFields(c.fields)| && JumpEnd(c, j)) <==>
            (c.fields != [] && ActiveFields(c.fields) == c.fields)
  {
    if exists j: nat :: j < |ActiveFields(c.fields)| && JumpEnd(c, j) {
      FilterFull(c.fields, IsActiveField);
    }
    if c.fields != [] && ActiveFields(c.fields) == c.fields {
      assert JumpEnd(c, |c.fields| - 1);
    }
  }

  /** The category selector after the items of `cats` and the jump pairs `entries`. */
  function Selector(cats: seq<Category>, entries: seq<string>): Element {
    Element(
      "select1",
      map["ref" := "category", "required" := "true", "jump" := Join(",", entries)],
      None,
      [CreateLabel("Select type")] + CategoryItems(cats))
  }

  /** One item per category: label = its name, value = its id. */
  function CategoryItems(cats: seq<Category>): seq<Element> {
    seq(|cats|, i requires 0 <= i < |cats| => CreateItem(cats[i].name, Str(cats[i].id)))
  }

  /** Appending a category appends its item. */
  lemma CategoryItemsStep(before: seq<Category>, c: Category)
    ensures CategoryItems(before + [c]) == CategoryItems(before) + [CreateItem(c.name, Str(c.id))]
  {
    var all := before + [c];
    assert forall i :: 0 <= i < |before| ==> all[i] == before[i];
    assert all[|before|] == c;
  }

  predicate CategoryKnown(c: Category) {
    KnownUpTo(c, |ActiveFields(c.fields)|)
  }

  predicate AllKnown(cats: seq<Category>)
    decreases |cats|
  {
    cats == [] || (AllKnown(cats[..|cats| - 1]) && CategoryKnown(cats[|cats| - 1]))
  }

  /** One category with an active field of unknown type spoils the whole form. */
  lemma {:induction false} NotAllKnown(cats: seq<Category>, i: nat)
    requires i < |cats| && !CategoryKnown(cats[i])
    ensures !AllKnown(cats)
    decreases |cats|
  {
    var pre := cats[..|cats| - 1];
    if i < |cats| - 1 {
      assert pre[i] == cats[i];
      NotAllKnown(pre, i);
    }
  }

  /** The first `n` active fields of `c` are of a known type. */
  predicate KnownUpTo(c: Category, n: nat)
    requires n <= |ActiveFields(c.fields)|
    decreases n
  {
    n == 0 || (KnownUpTo(c, n - 1) && Known(ActiveFields(c.fields)[n - 1]))
  }

  /** One active field of unknown type spoils every longer prefix. */
  lemma {:induction false} NotKnownUpTo(c: Category, n: nat, j: nat)
    requires j < n <= |ActiveFields(c.fields)| && !Known(ActiveFields(c.fields)[j])
    ensures !KnownUpTo(c, n)
    decreases n
  {
    if j < n - 1 {
      NotKnownUpTo(c, n - 1, j);
    }
  }

  /** The compiled first `n` active fields of `c`, each with its end jump decided by `JumpEnd`. */
  function CategoryFieldsUpTo(c: Category, n: nat): (es: seq<Element>)
    requires n <= |ActiveFields(c.fields)| && KnownUpTo(c, n)
    ensures |es| == n
    decreases n
  {
    if n == 0 then []
    else CategoryFieldsUpTo(c, n - 1) + [FieldElement(ActiveFields(c.fields)[n - 1], JumpEnd(c, n - 1)).value]
  }

  /** The compiled active fields of one category. */
  function CategoryFields(c: Category): (es: seq<Element>)
    requires CategoryKnown(c)
    ensures |es| == |ActiveFields(c.fields)|
  {
    CategoryFieldsUpTo(c, |ActiveFields(c.fields)|)
  }

  /**
   * Element `j` of a category's compiled fields is its `j`-th active field,
   * compiled with the end jump exactly when `j` is the last index of ALL its fields.
   */
  lemma {:induction false} CategoryFieldsAt(c: Category, n: nat, j: nat)
    requires n <= |ActiveFields(c.fields)| && KnownUpTo(c, n) && j < n
    ensures Known(ActiveFields(c.fields)[j])
    ensures CategoryFieldsUpTo(c, n)[j] == FieldElement(ActiveFields(c.fields)[j], JumpEnd(c, j)).value
    decreases n
  {
    if j < n - 1 {
      CategoryFieldsAt(c, n - 1, j);
    }
  }

  /** All compiled fields, category after category. */
  function CompiledFields(cats: seq<Category>): seq<Element>
    requires AllKnown(cats)
    decreases |cats|
  {
    if cats == [] then []
    else CompiledFields(cats[..|cats| - 1]) + CategoryFields(cats[|cats| - 1])
  }

  /** What `serialize_categories` returns for the given (active) categories. */
  function CategoriesForm(cats: seq<Category>): Result<Element> {
    if AllKnown(cats) then
      Ok(Element("form", map["num" := "1", "main" := "true"], None,
                 [Selector(cats, JumpEntries(cats))] + CompiledFields(cats)))
    else Raised(TypeError(UnknownFieldType))
  }

  /**
   * `serialize_categories`. The source appends the selector to the form first
   * and keeps changing it afterwards through the shared reference; here the
   * selector is built in a local variable and put in front of the fields at the end.
   */
  method SerializeCategories(categories: seq<Category>) returns (r: Result<Element>)
    ensures r == CategoriesForm(categories)
  {
    var form := NewElement("form", map["num" := "1", "main" := "true"]);
    var parts := SerializeCategoryLoop(categories);
    if parts.Raised? {
      return Raised(parts.error);
    }
    var select, fields := parts.value.0, parts.value.1;
    CategoriesFormOk(categories, select, fields);
    form := form.(children := form.children + [select] + fields);
    assert form == Element("form", map["num" := "1", "main" := "true"], None, [select] + fields);
    r := Ok(form);
  }

  /** The form of categories whose fields are all known, from their selector and compiled fields. */
  lemma CategoriesFormOk(cats: seq<Category>, select: Element, fields: seq<Element>)
    requires AllKnown(cats)
    requires select == Selector(cats, JumpEntries(cats)) && fields == CompiledFields(cats)
    ensures CategoriesForm(cats) == Ok(Element("form", map["num" := "1", "main" := "true"], None, [select] + fields))
  {
  }

  /**
   * The outer loop of `serialize_categories`: the selector with one item per
   * category and the jump chain, and all compiled fields, or the error of the
   * first field of an unknown type.
   */
  method SerializeCategoryLoop(categories: seq<Category>) returns (r: Result<(Element, seq<Element>)>)
    ensures r.Raised? <==> !AllKnown(categories)
    ensures r.Raised? ==> r.error == TypeError(UnknownFieldType)
    ensures r.Ok? ==> r.value == (Selector(categories, JumpEntries(categories)), CompiledFields(categories))
  {
    var select := NewElement("select1", map["ref" := "category", "required" := "true", "jump" := ""]);
    select := Append(select, CreateLabel("Select type"));
    assert select == Selector([], []);
    var fields: seq<Element> := [];
    var typeIdx := 0;
    while typeIdx < |categories|
      invariant 0 <= typeIdx <= |categories|
      invariant AllKnown(categories[..typeIdx])
      invariant fields == CompiledFields(categories[..typeIdx])
      invariant select == Selector(categories[..typeIdx], JumpEntries(categories[..typeIdx]))
    {
      PrefixStep(categories, typeIdx);
      var step := SerializeCategory(categories[..typeIdx], categories[typeIdx], select, fields);
      if step.Raised? {
        NotAllKnown(categories, typeIdx);
        return Raised(step.error);
      }
      select, fields := step.value.0, step.value.1;
      typeIdx := typeIdx + 1;
    }
    assert categories[..typeIdx] == categories;
    r := Ok((select, fields));
  }

  /**
   * One round of the outer loop of `serialize_categories`, for `category`
   * after the categories `before`: its item in the selector, then its fields.
   */
  method SerializeCategory(before: seq<Category>, category: Category, select: Element, fields: seq<Element>)
    returns (r: Result<(Element, seq<Element>)>)
    requires AllKnown(before) && fields == CompiledFields(before)
    requires select == Selector(before, JumpEntries(before))
    ensures r.Raised? <==> !CategoryKnown(category)
    ensures r.Raised? ==> r.error == TypeError(UnknownFieldType)
    ensures r.Ok? ==>
              && AllKnown(before + [category])
              && r.value.0 == Selector(before + [category], JumpEntries(before + [category]))
              && r.value.1 == CompiledFields(before + [category])
  {
    SelectorItemStep(before, JumpEntries(before), category);
    var sel := Append(select, CreateItem(category.name, Str(category.id)));
    var step := SerializeCategoryFields(before, category, sel);
    if step.Raised? {
      return Raised(step.error);
    }
    CompiledFieldsStep(before, category);
    JumpAccumulates(before, category);
    SelectorJumpStep(before + [category], JumpEntries(before), JumpEntries(before + [category]));
    r := Ok((step.value.0, fields + step.value.1));
  }

  /**
   * The inner loop of `serialize_categories` over the active fields of
   * `category`, the one after `before`: compiles each field and, for a
   * category other than the first, adds its jump pair on the first field.
   */
  method SerializeCategoryFields(before: seq<Category>, category: Category, select: Element)
    returns (r: Result<(Element, seq<Element>)>)
    requires "jump" in select.attrs
    ensures r == if CategoryKnown(category)
                 then Ok((SetAttr(select, "jump", CategoryJump(select.attrs["jump"], category, |before|)),
                          CategoryFields(category)))
                 else Raised(TypeError(UnknownFieldType))
  {
    var typeIdx := |before|;
    var active := ActiveFields(category.fields);
    ghost var target := SetAttr(select, "jump", CategoryJump(select.attrs["jump"], category, typeIdx));
    var sel := select;
    var fields: seq<Element> := [];
    var fieldIdx := 0;
    while fieldIdx < |active|
      invariant 0 <= fieldIdx <= |active|
      invariant KnownUpTo(category, fieldIdx)
      invariant fields == CategoryFieldsUpTo(category, fieldIdx)
      invariant sel == if fieldIdx == 0 then select else target
      invariant "jump" in sel.attrs
    {
      var field := active[fieldIdx];
      if typeIdx > 0 && fieldIdx == 0 {
        sel := AddJumpPair(sel, category, typeIdx);
      } else if fieldIdx == 0 {
        SetAttrSame(sel, "jump");
      }
      var el := SerializeField(field, fieldIdx == |category.fields| - 1);
      if el.Raised? {
        NotKnownUpTo(category, |active|, fieldIdx);
        return Raised(el.error);
      }
      fields := fields + [el.value];
      fieldIdx := fieldIdx + 1;
    }
    if active == [] {
      SetAttrSame(sel, "jump");
    }
    assert fields == CategoryFields(category);
    r := Ok((sel, fields));
  }

  /**
   * The update of the selector's `jump` on the first active field of
   * category number `typeIdx > 0`: the field's reference and `typeIdx + 1`,
   * after a comma unless the jump is still empty.
   */
  method AddJumpPair(select: Element, category: Category, typeIdx: nat) returns (sel: Element)
    requires "jump" in select.attrs && typeIdx > 0 && ActiveFields(category.fields) != []
    ensures sel == SetAttr(select, "jump", CategoryJump(select.attrs["jump"], category, typeIdx))
  {
    var field := ActiveFields(category.fields)[0];
    var fieldKey := Replace(field.key, '-', '_');
    var jump := select.attrs["jump"];
    if |jump| == 0 {
      jump := fieldKey + "_" + Str(field.categoryId) + "," + Str(typeIdx + 1);
    } else {
      jump := jump + "," + (fieldKey + "_" + Str(field.categoryId) + "," + Str(typeIdx + 1));
    }
    sel := SetAttr(select, "jump", jump);
  }

  lemma SelectorItemStep(before: seq<Category>, entries: seq<string>, c: Category)
    ensures Append(Selector(before, entries), CreateItem(c.name, Str(c.id))) == Selector(before + [c], entries)
  {
    CategoryItemsStep(before, c);
  }

  lemma SelectorJumpStep(cats: seq<Category>, entries: seq<string>, entries': seq<string>)
    ensures SetAttr(Selector(cats, entries), "jump", Join(",", entries')) == Selector(cats, entries')
  {
    var m := Selector(cats, entries).attrs["jump" := Join(",", entries')];
    assert m == Selector(cats, entries').attrs;
  }

  /**
   * The selector's jump text after category number `idx`: its pair is added,
   * after a comma unless the text is still empty, when the category is not
   * the first and has an active field.
   */
  function CategoryJump(jump: string, c: Category, idx: nat): string {
    if idx > 0 && ActiveFields(c.fields) != [] then
      var pair := JumpPair(c, idx);
      if |jump| == 0 then pair else jump + "," + pair
    else jump
  }

  /** The loop's accumulated jump text is the comma-joined jump chain. */
  lemma JumpAccumulates(before: seq<Category>, c: Category)
    ensures Join(",", JumpEntries(before + [c])) == CategoryJump(Join(",", JumpEntries(before)), c, |before|)
  {
    var all, n := before + [c], |before|;
    var es := JumpEntries(before);
    assert all[..|all| - 1] == before && all[n] == c;
    assert Contributes(all, n) <==> n > 0 && ActiveFields(c.fields) != [];
    if Contributes(all, n) {
      var p := JumpPair(c, n);
      assert JumpEntries(all) == es + [p];
      JoinAppend(",", es, p);
      JoinEmptyIff(",", es);
      if es == [] {
        assert CategoryJump(Join(",", es), c, n) == p;
      } else {
        assert |Join(",", es)| != 0;
        assert CategoryJump(Join(",", es), c, n) == Join(",", es) + "," + p;
      }
    } else {
      assert JumpEntries(all) == es;
    }
  }

  /** Setting an attribute to the value it already has changes nothing. */
  lemma SetAttrSame(e: Element, name: string)
    requires name in e.attrs
    ensures SetAttr(e, name, e.attrs[name]) == e
  {
    assert e.attrs[name := e.attrs[name]] == e.attrs;
  }

  lemma CompiledFieldsStep(before: seq<Category>, c: Category)
    requires AllKnown(before) && CategoryKnown(c)
    ensures AllKnown(before + [c])
    ensures CompiledFields(before + [c]) == CompiledFields(before) + CategoryFields(c)
  {
    var all := before + [c];
    assert all[..|all| - 1] == before;
  }

  // ---------------------------------------------------------------------------
  // The whole document
  // ---------------------------------------------------------------------------

  /**
   * The `<model>` header: the submission descriptor and the two callback URLs,
   * where `uploadPath` and `downloadPath` stand for what `reverse()` returns for
   * this project.
   */
  function ModelHeader(project: Project, baseUrl: string, uploadPath: string, downloadPath: string): (m: Element)
    ensures m.tag == "model" && |m.children| == 3
    ensures var s := m.children[0];
            && s.tag == "submission"
            && Attr(s, "id") == Some(Str(project.id))
            && Attr(s, "projectName") == Some(Lower(Replace(project.name, ' ', '_')))
            && Attr(s, "versionNumber") == Some("2.1")
            && Attr(s, "allowDownloadEdits") == Some("false")
    ensures m.children[1] == Leaf("uploadToServer", "http://" + baseUrl + uploadPath)
    ensures m.children[2] == Leaf("downloadFromServer", "http://" + baseUrl + downloadPath)
  {
    var model := NewElement("model", map["version" := "1"]);
    var model := Append(model, NewElement("submission", map[
      "id" := Str(project.id),
      "projectName" := Lower(Replace(project.name, ' ', '_')),
      "allowDownloadEdits" := "false",
      "versionNumber" := "2.1"]));
    var model := Append(model, Leaf("uploadToServer", "http://" + baseUrl + uploadPath));
    Append(model, Leaf("downloadFromServer", "http://" + baseUrl + downloadPath))
  }

  function UniqueIdInput(): Element {
    Append(NewElement("input", map["required" := "true", "title" := "true", "genkey" := "true", "ref" := "unique_id"]),
           CreateLabel("Unique ID"))
  }

  function LocationInput(): Element {
    Append(NewElement("location", map["ref" := "location"]), CreateLabel("Location"))
  }

  /**
   * The document `serialize` returns for a project: the `ecml` root holding
   * the header and the completed form of its active categories, or the
   * compile error.
   */
  function Document(project: Project, baseUrl: string, uploadPath: string, downloadPath: string): Result<Element> {
    match CategoriesForm(ActiveCategories(project.categories))
    case Raised(e) => Raised(e)
    case Ok(form) =>
      Ok(Element("ecml", map["version" := "1"], None,
                 [ModelHeader(project, baseUrl, uploadPath, downloadPath),
                  form.(attrs := form.attrs["name" := Replace(project.name, ' ', '_')]["key" := "unique_id"],
                        children := [UniqueIdInput(), LocationInput()] + form.children + [PhotoInput(), VideoInput()])]))
  }

  /**
   * The compiled document: the `TypeError` exactly when an active field is of
   * unknown type; otherwise `ecml` holding the header and the form, whose
   * children are the unique-id input, the location input, the category
   * selector, every compiled field, then the photo and video inputs.
   */
  lemma DocumentShape(project: Project, baseUrl: string, uploadPath: string, downloadPath: string)
    ensures var d := Document(project, baseUrl, uploadPath, downloadPath);
            var cats := ActiveCategories(project.categories);
            && (d.Raised? <==> !AllKnown(cats))
            && (d.Raised? ==> d.error == TypeError(UnknownFieldType))
            && (d.Ok? ==>
                  && d.value.tag == "ecml" && d.value.attrs == map["version" := "1"]
                  && |d.value.children| == 2
                  && d.value.children[0] == ModelHeader(project, baseUrl, uploadPath, downloadPath)
                  && d.value.children[1].tag == "form"
                  && d.value.children[1].attrs ==
                       map["num" := "1", "main" := "true", "name" := Replace(project.name, ' ', '_'), "key" := "unique_id"]
                  && d.value.children[1].children ==
                       [UniqueIdInput(), LocationInput(), Selector(cats, JumpEntries(cats))]
                       + CompiledFields(cats) + [PhotoInput(), VideoInput()])
  {
    var cats := ActiveCategories(project.categories);
    if AllKnown(cats) {
      var form := CategoriesForm(cats).value;
      var sel, fields := Selector(cats, JumpEntries(cats)), CompiledFields(cats);
      assert form.children == [sel] + fields;
      assert [UniqueIdInput(), LocationInput()] + ([sel] + fields) + [PhotoInput(), VideoInput()]
          == [UniqueIdInput(), LocationInput(), sel] + fields + [PhotoInput(), VideoInput()];
    }
  }

  /**
   * `serialize`: the header, then the form of the project's active categories
   * with the unique-id and location inputs inserted in front and the photo
   * and video inputs appended. A field of unknown type aborts the whole form.
   */
  method Serialize(project: Project, baseUrl: string, uploadPath: string, downloadPath: string)
    returns (r: Result<Element>)
    ensures r == Document(project, baseUrl, uploadPath, downloadPath)
  {
    var root := NewElement("ecml", map["version" := "1"]);
    var model := ModelHeader(project, baseUrl, uploadPath, downloadPath);
    root := Append(root, model);

    ghost var cats := ActiveCategories(project.categories);
    var compiled := SerializeCategories(ActiveCategories(project.categories));
    if compiled.Raised? {
      return Raised(compiled.error);
    }
    var form := CompleteForm(compiled.value, Replace(project.name, ' ', '_'));
    var c := compiled.value;
    assert form == c.(attrs := c.attrs["name" := Replace(project.name, ' ', '_')]["key" := "unique_id"],
                      children := [UniqueIdInput(), LocationInput()] + c.children + [PhotoInput(), VideoInput()]);
    root := Append(root, form);
    assert root == Element("ecml", map["version" := "1"], None, [model, form]);
    r := Ok(root);
  }

  /**
   * The rest of `serialize` on the compiled form: its name and key, the
   * photo and video inputs appended, then the unique-id input inserted at
   * position 0 and the location input at position 1.
   */
  method CompleteForm(compiled: Element, name: string) returns (form: Element)
    ensures form.tag == compiled.tag && form.text == compiled.text
    ensures form.attrs == compiled.attrs["name" := name]["key" := "unique_id"]
    ensures form.children == [UniqueIdInput(), LocationInput()] + compiled.children + [PhotoInput(), VideoInput()]
  {
    ghost var cs := compiled.children;
    form := SetAttr(compiled, "name", name);
    form := SetAttr(form, "key", "unique_id");
    form := Append(form, PhotoInput());
    form := Append(form, VideoInput());
    assert form.children == cs + [PhotoInput(), VideoInput()];
    form := Insert(form, 0, UniqueIdInput());
    assert form.children == [UniqueIdInput()] + cs + [PhotoInput(), VideoInput()];
    form := Insert(form, 1, LocationInput());
  }
}
