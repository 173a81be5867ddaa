/**
 * The earlier EcML compiler (the root `serializer.py`). It differs from the
 * current one in its rules: a field's `ref` is its raw key, `required` is
 * always present as "true" or "false", there is a true/false field, only
 * five field types are known, no field ever gets a `jump`, every category
 * with a field contributes to the selector's jump chain (the first one
 * included), every category and every field is compiled whatever its status,
 * and the form carries only a location input besides the selector and the
 * fields. Categories play the part of the source's observation types.
 */
module LegacyForm {
  import opened Strings
  import opened Exceptions
  import opened Xml
  import opened Schema
  import EcmlForm

  // ---------------------------------------------------------------------------
  // Helpers
  // ---------------------------------------------------------------------------

  /** `str(field.required).lower()` */
  function RequiredText(required: bool): string {
    if required then "true" else "false"
  }

  /** The attributes every compiled field starts from: its raw key and `required`. */
  function BaseAttrs(f: Field): map<string, string> {
    map["ref" := f.key, "required" := RequiredText(f.required)]
  }

  /** `create_base_input` */
  function CreateBaseInput(f: Field): (e: Element)
    ensures e.tag == "input" && e.text == None && e.children == []
    ensures e.attrs == BaseAttrs(f)
    ensures "ref" in e.attrs && e.attrs["ref"] == f.key
    ensures "required" in e.attrs && e.attrs["required"] in {"true", "false"}
    ensures e.attrs["required"] == "true" <==> f.required
  {
    NewElement("input", map["ref" := f.key, "required" := RequiredText(f.required)])
  }

  /** `create_base_select1` */
  function CreateBaseSelect1(f: Field): (e: Element)
    ensures e.tag == "select1" && e.text == None && e.children == []
    ensures e.attrs == BaseAttrs(f)
  {
    NewElement("select1", map["ref" := f.key, "required" := RequiredText(f.required)])
  }

  // ---------------------------------------------------------------------------
  // Field serialisers
  // ---------------------------------------------------------------------------

  function SerializeTextField(f: Field): (e: Element)
    ensures e.tag == "input" && e.text == None
    ensures e.attrs == BaseAttrs(f)
    ensures e.children == [EcmlForm.CreateLabel(f.name)]
  {
    Append(CreateBaseInput(f), EcmlForm.CreateLabel(f.name))
  }

  function SerializeNumericField(f: Field): (e: Element)
    ensures e.tag == "input" && e.text == None
    ensures e.attrs == BaseAttrs(f) + EcmlForm.NumericAttrs(f)
    ensures e.children == [EcmlForm.CreateLabel(f.name)]
  {
    var decimal := SetAttr(CreateBaseInput(f), "decimal", "true");
    EcmlForm.UpdateIsUnion(BaseAttrs(f), "decimal", "true");
    var low := EcmlForm.SetOptionalAttr(decimal, "min", f.minval);
    var high := EcmlForm.SetOptionalAttr(low, "max", f.maxval);
    EcmlForm.UnionAssoc(BaseAttrs(f), map["decimal" := "true"], EcmlForm.OptionalAttr("min", f.minval));
    EcmlForm.UnionAssoc(BaseAttrs(f), map["decimal" := "true"] + EcmlForm.OptionalAttr("min", f.minval),
                        EcmlForm.OptionalAttr("max", f.maxval));
    Append(high, EcmlForm.CreateLabel(f.name))
  }

  /** As in the current compiler: always decimal, and a bound exactly when the field has one, with its text. */
  lemma NumericBounds(f: Field)
    ensures var a := SerializeNumericField(f).attrs;
            && "decimal" in a && a["decimal"] == "true"
            && ("min" in a <==> f.minval.Some?) && (f.minval.Some? ==> a["min"] == f.minval.value)
            && ("max" in a <==> f.maxval.Some?) && (f.maxval.Some? ==> a["max"] == f.maxval.value)
  {
    var base := BaseAttrs(f);
    assert SerializeNumericField(f).attrs == base + EcmlForm.NumericAttrs(f);
    assert base.Keys <= {"ref", "required"};
    EcmlForm.BoundsNotBase(base);
    EcmlForm.NumericOverBase(base, f);
  }

  /** The two options of a true/false field, in this order. */
  function TrueFalseItems(): seq<Element> {
    [EcmlForm.CreateItem("True", "true"), EcmlForm.CreateItem("False", "false")]
  }

  function SerializeTrueFalseField(f: Field): (e: Element)
    ensures e.tag == "select1" && e.text == None
    ensures e.attrs == BaseAttrs(f)
    ensures e.children == [EcmlForm.CreateLabel(f.name)] + TrueFalseItems()
  {
    var e := Append(CreateBaseSelect1(f), EcmlForm.CreateLabel(f.name));
    var e := Append(e, EcmlForm.CreateItem("True", "true"));
    Append(e, EcmlForm.CreateItem("False", "false"))
  }

  /** What `serialize_singlelookup_field` builds: a `select1` with the label and the active values. */
  function LookupFieldElement(f: Field): (e: Element)
    ensures e.tag == "select1" && e.text == None
    ensures e.attrs == BaseAttrs(f)
    ensures e.children == [EcmlForm.CreateLabel(f.name)] + EcmlForm.LookupItems(ActiveValues(f.lookupvalues))
  {
    var e := Append(CreateBaseSelect1(f), EcmlForm.CreateLabel(f.name));
    e.(children := e.children + EcmlForm.LookupItems(ActiveValues(f.lookupvalues)))
  }

  /** `serialize_singlelookup_field`, appending one item per active value in a loop. */
  method SerializeSingleLookupField(f: Field) returns (e: Element)
    ensures e == LookupFieldElement(f)
  {
    e := CreateBaseSelect1(f);
    e := Append(e, EcmlForm.CreateLabel(f.name));
    ghost var start := e;
    var values := ActiveValues(f.lookupvalues);
    var i := 0;
    while i < |values|
      invariant 0 <= i <= |values|
      invariant e == start.(children := start.children + EcmlForm.LookupItems(values[..i]))
    {
      EcmlForm.LookupItemsStep(values, i);
      e := Append(e, EcmlForm.CreateItem(values[i].name, Str(values[i].id)));
      i := i + 1;
    }
    assert values[..i] == values;
  }

  function SerializeDateTimeField(f: Field): (e: Element)
    ensures e.tag == "input" && e.text == None
    ensures e.attrs == BaseAttrs(f) + map["date" := "dd/MM/yyyy"]
    ensures e.children == [EcmlForm.CreateLabel(f.name)]
  {
    Append(SetAttr(CreateBaseInput(f), "date", "dd/MM/yyyy"), EcmlForm.CreateLabel(f.name))
  }

  /** The five field types this compiler knows. */
  predicate Known(f: Field) {
    f.fieldtype.TextField? || f.fieldtype.NumericField? || f.fieldtype.TrueFalseField?
    || f.fieldtype.DateTimeField? || f.fieldtype.LookupField?
  }

  /** `serialize_field`: the dispatch on the field type; any other type raises `TypeError`. */
  function FieldElement(f: Field): (r: Result<Element>)
    ensures r.Raised? <==> !Known(f)
    ensures r.Raised? ==> r.error == TypeError(EcmlForm.UnknownFieldType)
  {
    match f.fieldtype
    case TextField => Ok(SerializeTextField(f))
    case NumericField => Ok(SerializeNumericField(f))
    case TrueFalseField => Ok(SerializeTrueFalseField(f))
    case DateTimeField => Ok(SerializeDateTimeField(f))
    case LookupField => Ok(LookupFieldElement(f))
    case _ => Raised(TypeError(EcmlForm.UnknownFieldType))
  }

  /** The attributes a known field type adds to the base ones. */
  function TypeAttrs(f: Field): map<string, string> {
    match f.fieldtype
    case NumericField => EcmlForm.NumericAttrs(f)
    case DateTimeField => map["date" := "dd/MM/yyyy"]
    case _ => map[]
  }

  /**
   * The element of a known field: `select1` for true/false and lookup
   * fields, `input` otherwise; exactly the base attributes and those of its
   * type, so never a `jump`; the label, then the options of a choice field.
   */
  lemma FieldElementShape(f: Field)
    requires Known(f)
    ensures var e := FieldElement(f).value;
            && e.tag == (if f.fieldtype.TrueFalseField? || f.fieldtype.LookupField? then "select1" else "input")
            && e.text == None
            && e.attrs == BaseAttrs(f) + TypeAttrs(f)
            && "jump" !in e.attrs
            && e.children == [EcmlForm.CreateLabel(f.name)] + ShapeOptions(f)
  {
    NoJump(f);
    if f.fieldtype.TrueFalseField? || f.fieldtype.LookupField? {
      SelectShape(f);
    } else {
      InputShape(f);
    }
  }

  /** The options after a field's label: those of a true/false field, or its active lookup values. */
  function ShapeOptions(f: Field): seq<Element> {
    if f.fieldtype.TrueFalseField? then TrueFalseItems()
    else if f.fieldtype.LookupField? then EcmlForm.LookupItems(ActiveValues(f.lookupvalues))
    else []
  }

  lemma SelectShape(f: Field)
    requires f.fieldtype.TrueFalseField? || f.fieldtype.LookupField?
    ensures var e := FieldElement(f).value;
            && e.tag == "select1" && e.text == None && e.attrs == BaseAttrs(f) + TypeAttrs(f)
            && e.children == [EcmlForm.CreateLabel(f.name)] + ShapeOptions(f)
  {
    DispatchesTo(f);
    assert TypeAttrs(f) == map[];
    assert BaseAttrs(f) + map[] == BaseAttrs(f);
  }

  lemma InputShape(f: Field)
    requires f.fieldtype.TextField? || f.fieldtype.NumericField? || f.fieldtype.DateTimeField?
    ensures var e := FieldElement(f).value;
            && e.tag == "input" && e.text == None && e.attrs == BaseAttrs(f) + TypeAttrs(f)
            && e.children == [EcmlForm.CreateLabel(f.name)] + ShapeOptions(f)
  {
    DispatchesTo(f);
    assert ShapeOptions(f) == [];
    assert [EcmlForm.CreateLabel(f.name)] + [] == [EcmlForm.CreateLabel(f.name)];
    if f.fieldtype.TextField? {
      assert TypeAttrs(f) == map[];
      assert BaseAttrs(f) + map[] == BaseAttrs(f);
    }
  }

  /** The serialiser `serialize_field` hands each known type to. */
  lemma DispatchesTo(f: Field)
    ensures f.fieldtype.TextField? ==> FieldElement(f) == Ok(SerializeTextField(f))
    ensures f.fieldtype.NumericField? ==> FieldElement(f) == Ok(SerializeNumericField(f))
    ensures f.fieldtype.TrueFalseField? ==> FieldElement(f) == Ok(SerializeTrueFalseField(f))
    ensures f.fieldtype.DateTimeField? ==> FieldElement(f) == Ok(SerializeDateTimeField(f))
    ensures f.fieldtype.LookupField? ==> FieldElement(f) == Ok(LookupFieldElement(f))
  {
  }

  /** No attribute a field starts from or its type adds is a `jump`. */
  lemma NoJump(f: Field)
    ensures "jump" !in BaseAttrs(f) + TypeAttrs(f)
  {
    var a := BaseAttrs(f) + TypeAttrs(f);
    assert a.Keys <= {"ref", "required", "decimal", "min", "max", "date"};
    assert "jump"[0] != "ref"[0] && "jump"[0] != "required"[0] && "jump"[0] != "decimal"[0];
    assert "jump"[0] != "min"[0] && "jump"[0] != "max"[0] && "jump"[0] != "date"[0];
  }

  /** `serialize_field`, building the element step by step. */
  method SerializeField(f: Field) returns (r: Result<Element>)
    ensures r == FieldElement(f)
  {
    var e: Element;
    if f.fieldtype == TextField {
      e := SerializeTextField(f);
    } else if f.fieldtype == NumericField {
      e := SerializeNumericField(f);
    } else if f.fieldtype == TrueFalseField {
      e := SerializeTrueFalseField(f);
    } else if f.fieldtype == DateTimeField {
      e := SerializeDateTimeField(f);
    } else if f.fieldtype == LookupField {
      e := SerializeSingleLookupField(f);
    } else {
      return Raised(TypeError(EcmlForm.UnknownFieldType));
    }
    r := Ok(e);
  }

  // ---------------------------------------------------------------------------
  // Observation types: the selector, its jump chain and the compiled fields
  // ---------------------------------------------------------------------------

  /** The first `n` fields of `c`, active or not, are of a known type. */
  predicate KnownUpTo(c: Category, n: nat)
    requires n <= |c.fields|
    decreases n
  {
    n == 0 || (KnownUpTo(c, n - 1) && Known(c.fields[n - 1]))
  }

  lemma {:induction false} NotKnownUpTo(c: Category, n: nat, j: nat)
    requires j < n <= |c.fields| && !Known(c.fields[j])
    ensures !KnownUpTo(c, n)
    decreases n
  {
    if j < n - 1 {
      NotKnownUpTo(c, n - 1, j);
    }
  }

  predicate CategoryKnown(c: Category) {
    KnownUpTo(c, |c.fields|)
  }

  predicate AllKnown(cats: seq<Category>)
    decreases |cats|
  {
    cats == [] || (AllKnown(cats[..|cats| - 1]) && CategoryKnown(cats[|cats| - 1]))
  }

  lemma {:induction false} NotAllKnown(cats: seq<Category>, i: nat)
    requires i < |cats| && !CategoryKnown(cats[i])
    ensures !AllKnown(cats)
    decreases |cats|
  {
    var pre := cats[..|cats| - 1];
    if i < |cats| - 1 {
      assert pre[i] == cats[i];
      NotAllKnown(pre, i);
    }
  }

  /** The compiled first `n` fields of `c`. */
  function CategoryFieldsUpTo(c: Category, n: nat): (es: seq<Element>)
    requires n <= |c.fields| && KnownUpTo(c, n)
    ensures |es| == n
    decreases n
  {
    if n == 0 then []
    else CategoryFieldsUpTo(c, n - 1) + [FieldElement(c.fields[n - 1]).value]
  }

  /** Element `j` of a category's compiled fields is its field `j`, compiled. */
  lemma {:induction false} CategoryFieldsAt(c: Category, n: nat, j: nat)
    requires n <= |c.fields| && KnownUpTo(c, n) && j < n
    ensures Known(c.fields[j])
    ensures CategoryFieldsUpTo(c, n)[j] == FieldElement(c.fields[j]).value
    decreases n
  {
    if j < n - 1 {
      CategoryFieldsAt(c, n - 1, j);
    }
  }

  function CompiledFields(cats: seq<Category>): seq<Element>
    requires AllKnown(cats)
    decreases |cats|
  {
    if cats == [] then []
    else
      var c := cats[|cats| - 1];
      CompiledFields(cats[..|cats| - 1]) + CategoryFieldsUpTo(c, |c.fields|)
  }

  /** The jump pair of category number `idx`: its first field's raw key, then `idx + 1`. */
  function JumpPair(c: Category, idx: nat): (p: string)
    requires c.fields != []
    ensures p != "" && ',' in p
  {
    var p := c.fields[0].key + "," + Str(idx + 1);
    assert p[|c.fields[0].key|] == ',';
    p
  }

  /** Category number `i` has a field, so it contributes a pair to the jump chain. */
  predicate Contributes(cats: seq<Category>, i: nat)
    requires i < |cats|
  {
    cats[i].fields != []
  }

  /** The pairs of the jump chain: one from every category that has a field, the first one included. */
  function JumpEntries(cats: seq<Category>): (es: seq<string>)
    ensures forall k :: 0 <= k < |es| ==> es[k] != ""
    decreases |cats|
  {
    if cats == [] then []
    else
      var n := |cats| - 1;
      JumpEntries(cats[..n]) + (if Contributes(cats, n) then [JumpPair(cats[n], n)] else [])
  }

  /** The indices of the categories that have a field, in order. */
  function JumpIndices(cats: seq<Category>): (idx: seq<nat>)
    ensures forall k :: 0 <= k < |idx| ==> idx[k] < |cats| && Contributes(cats, idx[k])
    decreases |cats|
  {
    if cats == [] then []
    else
      var n := |cats| - 1;
      var pre := cats[..n];
      var idx := JumpIndices(pre);
      assert forall k :: 0 <= k < |idx| ==> pre[idx[k]] == cats[idx[k]];
      idx + (if Contributes(cats, n) then [n] else [])
  }

  /** Every category that has a field, the first one included, is among the contributing indices. */
  lemma {:induction false} JumpIndicesComplete(cats: seq<Category>)
    ensures forall i: nat :: i < |cats| && Contributes(cats, i) ==> i in JumpIndices(cats)
    decreases |cats|
  {
    if cats != [] {
      var n := |cats| - 1;
      var pre := cats[..n];
      JumpIndicesComplete(pre);
      var idx := JumpIndices(pre);
      var idx' := JumpIndices(cats);
      assert idx' == idx + (if Contributes(cats, n) then [n] else []);
      forall i: nat | i < |cats| && Contributes(cats, i)
        ensures i in idx'
      {
        if i < n {
          assert pre[i] == cats[i];
          assert Contributes(pre, i);
          assert i in idx;
        } else {
          assert i == n && idx' == idx + [n];
          assert idx'[|idx|] == n;
        }
      }
    }
  }

  /** The contributing indices come in strictly increasing order. */
  lemma {:induction false} JumpIndicesIncreasing(cats: seq<Category>)
    ensures forall k, l :: 0 <= k < l < |JumpIndices(cats)| ==> JumpIndices(cats)[k] < JumpIndices(cats)[l]
    decreases |cats|
  {
    if cats != [] {
      var n := |cats| - 1;
      JumpIndicesIncreasing(cats[..n]);
      var idx := JumpIndices(cats[..n]);
      var idx' := JumpIndices(cats);
      assert idx' == idx + (if Contributes(cats, n) then [n] else []);
      forall k, l | 0 <= k < l < |idx'|
        ensures idx'[k] < idx'[l]
      {
        if l < |idx| {
          assert idx'[k] == idx[k] && idx'[l] == idx[l];
        } else {
          assert idx'[l] == n && idx'[k] == idx[k] && idx[k] < |cats[..n]|;
        }
      }
    }
  }

  /**
   * The jump chain, declaratively: entry `k` is the pair of the `k`-th
   * category that has a field, so N such categories give exactly N pairs.
   */
  lemma {:induction false} JumpChainShape(cats: seq<Category>)
    ensures |JumpEntries(cats)| == |JumpIndices(cats)|
    ensures forall k :: 0 <= k < |JumpIndices(cats)| ==>
              JumpEntries(cats)[k] == JumpPair(cats[JumpIndices(cats)[k]], JumpIndices(cats)[k])
    decreases |cats|
  {
    if cats != [] {
      var n := |cats| - 1;
      var pre := cats[..n];
      JumpChainShape(pre);
      var idx, es := JumpIndices(pre), JumpEntries(pre);
      var idx', es' := JumpIndices(cats), JumpEntries(cats);
      assert idx' == idx + (if Contributes(cats, n) then [n] else []);
      assert es' == es + (if Contributes(cats, n) then [JumpPair(cats[n], n)] else []);
      forall k | 0 <= k < |idx'|
        ensures es'[k] == JumpPair(cats[idx'[k]], idx'[k])
      {
        if k < |idx| {
          assert idx'[k] == idx[k] && es'[k] == es[k];
          assert pre[idx[k]] == cats[idx[k]];
        }
      }
    }
  }

  /** Unlike the current compiler, a first category with a field starts the chain, pointing at 1. */
  lemma FirstCategoryJumps(cats: seq<Category>)
    requires cats != [] && cats[0].fields != []
    ensures JumpEntries(cats) != [] && JumpEntries(cats)[0] == cats[0].fields[0].key + ",1"
  {
    JumpChainShape(cats);
    JumpIndicesComplete(cats);
    JumpIndicesIncreasing(cats);
    var idx := JumpIndices(cats);
    assert Contributes(cats, 0);
    assert 0 in idx;
    assert idx[0] == 0;
    assert Str(1) == "1";
  }

  /** The selector's jump text after category number `idx`, as the loop accumulates it. */
  function CategoryJump(jump: string, c: Category, idx: nat): string {
    if c.fields != [] then
      var pair := JumpPair(c, idx);
      if |jump| == 0 then pair else jump + "," + pair
    else jump
  }

  lemma JumpAccumulates(before: seq<Category>, c: Category)
    ensures Join(",", JumpEntries(before + [c])) == CategoryJump(Join(",", JumpEntries(before)), c, |before|)
  {
    var all, n := before + [c], |before|;
    var es := JumpEntries(before);
    assert all[..|all| - 1] == before && all[n] == c;
    if c.fields != [] {
      var p := JumpPair(c, n);
      assert JumpEntries(all) == es + [p];
      JoinAppend(",", es, p);
      JoinEmptyIff(",", es);
      if es == [] {
        assert CategoryJump(Join(",", es), c, n) == p;
      } else {
        assert |Join(",", es)| != 0;
        assert CategoryJump(Join(",", es), c, n) == Join(",", es) + "," + p;
      }
    } else {
      assert JumpEntries(all) == es;
    }
  }

  /** The observation-type selector after the items of `cats` and the pairs `entries`; it has no label. */
  function Selector(cats: seq<Category>, entries: seq<string>): Element {
    Element(
      "select1",
      map["ref" := "observationtype", "required" := "true", "jump" := Join(",", entries)],
      None,
      EcmlForm.CategoryItems(cats))
  }

  lemma SelectorItemStep(before: seq<Category>, entries: seq<string>, c: Category)
    ensures Append(Selector(before, entries), EcmlForm.CreateItem(c.name, Str(c.id))) == Selector(before + [c], entries)
  {
    EcmlForm.CategoryItemsStep(before, c);
  }

  lemma SelectorJumpStep(cats: seq<Category>, entries: seq<string>, entries': seq<string>)
    ensures SetAttr(Selector(cats, entries), "jump", Join(",", entries')) == Selector(cats, entries')
  {
    var m := Selector(cats, entries).attrs["jump" := Join(",", entries')];
    assert m == Selector(cats, entries').attrs;
  }

  lemma CompiledFieldsStep(before: seq<Category>, c: Category)
    requires AllKnown(before) && CategoryKnown(c)
    ensures AllKnown(before + [c])
    ensures CompiledFields(before + [c]) == CompiledFields(before) + CategoryFieldsUpTo(c, |c.fields|)
  {
    var all := before + [c];
    assert all[..|all| - 1] == before;
  }

  /** What `serialize_observationtypes` returns for the given categories. */
  function TypesForm(cats: seq<Category>): (r: Result<Element>)
    ensures r.Raised? <==> !AllKnown(cats)
    ensures r.Raised? ==> r.error == TypeError(EcmlForm.UnknownFieldType)
  {
    if AllKnown(cats) then
      Ok(Element("form", map["num" := "1", "main" := "true"], None,
                 [Selector(cats, JumpEntries(cats))] + CompiledFields(cats)))
    else Raised(TypeError(EcmlForm.UnknownFieldType))
  }

  /** `serialize_observationtypes`: the selector is assembled locally and put in front of the fields. */
  method SerializeObservationTypes(categories: seq<Category>) returns (r: Result<Element>)
    ensures r == TypesForm(categories)
  {
    var form := NewElement("form", map["num" := "1", "main" := "true"]);
    var select := NewElement("select1", map["ref" := "observationtype", "required" := "true", "jump" := ""]);
    assert select == Selector([], []);
    var fields: seq<Element> := [];
    var typeIdx := 0;
    while typeIdx < |categories|
      invariant 0 <= typeIdx <= |categories|
      invariant AllKnown(categories[..typeIdx])
      invariant fields == CompiledFields(categories[..typeIdx])
      invariant select == Selector(categories[..typeIdx], JumpEntries(categories[..typeIdx]))
    {
      PrefixStep(categories, typeIdx);
      var step := SerializeObservationType(categories[..typeIdx], categories[typeIdx], select, fields);
      if step.Raised? {
        NotAllKnown(categories, typeIdx);
        assert TypesForm(categories) == Raised(step.error);
        return Raised(step.error);
      }
      select, fields := step.value.0, step.value.1;
      typeIdx := typeIdx + 1;
    }
    assert categories[..typeIdx] == categories;
    TypesFormOk(categories, select, fields);
    form := form.(children := form.children + [select] + fields);
    assert form == Element("form", map["num" := "1", "main" := "true"], None, [select] + fields);
    r := Ok(form);
  }

  /** The form of categories whose fields are all known, from their selector and compiled fields. */
  lemma TypesFormOk(cats: seq<Category>, select: Element, fields: seq<Element>)
    requires AllKnown(cats)
    requires select == Selector(cats, JumpEntries(cats)) && fields == CompiledFields(cats)
    ensures TypesForm(cats) == Ok(Element("form", map["num" := "1", "main" := "true"], None, [select] + fields))
  {
  }

  /** One round of the outer loop, for `category` after `before`: its item, then its fields. */
  method SerializeObservationType(before: seq<Category>, category: Category, select: Element, fields: seq<Element>)
    returns (r: Result<(Element, seq<Element>)>)
    requires AllKnown(before) && fields == CompiledFields(before)
    requires select == Selector(before, JumpEntries(before))
    ensures r.Raised? <==> !CategoryKnown(category)
    ensures r.Raised? ==> r.error == TypeError(EcmlForm.UnknownFieldType)
    ensures r.Ok? ==>
              && AllKnown(before + [category])
              && r.value.0 == Selector(before + [category], JumpEntries(before + [category]))
              && r.value.1 == CompiledFields(before + [category])
  {
    SelectorItemStep(before, JumpEntries(before), category);
    var sel := Append(select, EcmlForm.CreateItem(category.name, Str(category.id)));
    var step := SerializeTypeFields(before, category, sel);
    if step.Raised? {
      return Raised(step.error);
    }
    CompiledFieldsStep(before, category);
    JumpAccumulates(before, category);
    SelectorJumpStep(before + [category], JumpEntries(before), JumpEntries(before + [category]));
    r := Ok((step.value.0, fields + step.value.1));
  }

  /** The inner loop over all fields of `category`, adding its jump pair on the first field. */
  method SerializeTypeFields(before: seq<Category>, category: Category, select: Element)
    returns (r: Result<(Element, seq<Element>)>)
    requires "jump" in select.attrs
    ensures r == if CategoryKnown(category)
                 then Ok((SetAttr(select, "jump", CategoryJump(select.attrs["jump"], category, |before|)),
                          CategoryFieldsUpTo(category, |category.fields|)))
                 else Raised(TypeError(EcmlForm.UnknownFieldType))
  {
    var typeIdx := |before|;
    ghost var target := SetAttr(select, "jump", CategoryJump(select.attrs["jump"], category, typeIdx));
    var sel := select;
    var fields: seq<Element> := [];
    var fieldIdx := 0;
    while fieldIdx < |category.fields|
      invariant 0 <= fieldIdx <= |category.fields|
      invariant KnownUpTo(category, fieldIdx)
      invariant fields == CategoryFieldsUpTo(category, fieldIdx)
      invariant fieldIdx == 0 ==> sel == select
      invariant fieldIdx > 0 ==> sel == target
    {
      var field := category.fields[fieldIdx];
      if fieldIdx == 0 {
        sel := AddJumpPair(sel, category, typeIdx);
        assert sel == target;
      }
      var el := SerializeField(field);
      if el.Raised? {
        NotKnownUpTo(category, |category.fields|, fieldIdx);
        assert !CategoryKnown(category) && el.error == TypeError(EcmlForm.UnknownFieldType);
        return Raised(el.error);
      }
      FieldsStep(category, fieldIdx, el.value);
      fields := fields + [el.value];
      fieldIdx := fieldIdx + 1;
    }
    assert CategoryKnown(category);
    if category.fields == [] {
      assert sel == select && CategoryJump(select.attrs["jump"], category, typeIdx) == select.attrs["jump"];
      EcmlForm.SetAttrSame(sel, "jump");
    }
    assert sel == target;
    r := Ok((sel, fields));
  }

  /** One more field of `c` compiled: it is known and its element comes next. */
  lemma FieldsStep(c: Category, n: nat, el: Element)
    requires n < |c.fields| && KnownUpTo(c, n) && FieldElement(c.fields[n]) == Ok(el)
    ensures KnownUpTo(c, n + 1)
    ensures CategoryFieldsUpTo(c, n + 1) == CategoryFieldsUpTo(c, n) + [el]
  {
  }

  /** The update of the selector's `jump` on the first field of category number `typeIdx`. */
  method AddJumpPair(select: Element, category: Category, typeIdx: nat) returns (sel: Element)
    requires "jump" in select.attrs && category.fields != []
    ensures sel == SetAttr(select, "jump", CategoryJump(select.attrs["jump"], category, typeIdx))
  {
    var field := category.fields[0];
    var jump := select.attrs["jump"];
    if |jump| == 0 {
      jump := field.key + "," + Str(typeIdx + 1);
    } else {
      jump := jump + "," + (field.key + "," + Str(typeIdx + 1));
    }
    sel := SetAttr(select, "jump", jump);
  }

  // ---------------------------------------------------------------------------
  // The whole document
  // ---------------------------------------------------------------------------

  /**
   * The `<model>` header: the raw project name, and the callback URLs as the
   * base URL followed directly by the paths `reverse()` gives.
   */
  function ModelHeader(project: Project, baseUrl: string, uploadPath: string, downloadPath: string): (m: Element)
    ensures m.tag == "model" && m.attrs == map["version" := "1"] && |m.children| == 3
    ensures m.children[0] == NewElement("submission", map[
              "id" := Str(project.id), "projectName" := project.name,
              "allowDownloadEdits" := "false", "versionNumber" := "2.1"])
    ensures m.children[1] == Leaf("uploadToServer", baseUrl + uploadPath)
    ensures m.children[2] == Leaf("downloadFromServer", baseUrl + downloadPath)
  {
    var model := NewElement("model", map["version" := "1"]);
    var model := Append(model, NewElement("submission", map[
      "id" := Str(project.id),
      "projectName" := project.name,
      "allowDownloadEdits" := "false",
      "versionNumber" := "2.1"]));
    var model := Append(model, Leaf("uploadToServer", baseUrl + uploadPath));
    Append(model, Leaf("downloadFromServer", baseUrl + downloadPath))
  }

  /**
   * `serialize`: the header, then the form of all the project's categories
   * named and identified by the project id, with the location input in front.
   */
  method Serialize(project: Project, baseUrl: string, uploadPath: string, downloadPath: string)
    returns (r: Result<Element>)
    ensures (r.Raised? <==> !AllKnown(project.categories))
    ensures r.Raised? ==> r.error == TypeError(EcmlForm.UnknownFieldType)
    ensures r.Ok? ==>
              var form := TypesForm(project.categories).value;
              && r.value.tag == "ecml" && r.value.attrs == map["version" := "1"]
              && r.value.children ==
                   [ModelHeader(project, baseUrl, uploadPath, downloadPath),
                    form.(attrs := form.attrs["name" := Str(project.id)]["id" := Str(project.id)],
                          children := [EcmlForm.LocationInput()] + form.children)]
  {
    var root := NewElement("ecml", map["version" := "1"]);
    var model := ModelHeader(project, baseUrl, uploadPath, downloadPath);
    root := Append(root, model);
    var compiled := SerializeObservationTypes(project.categories);
    if compiled.Raised? {
      return Raised(compiled.error);
    }
    var form := NameForm(compiled.value, Str(project.id));
    root := Append(root, form);
    assert root.children == [model, form];
    r := Ok(root);
  }

  /** The steps of `serialize` on the compiled form: named and identified by `id`, the location input first. */
  method NameForm(c: Element, id: string) returns (form: Element)
    ensures form == c.(attrs := c.attrs["name" := id]["id" := id], children := [EcmlForm.LocationInput()] + c.children)
  {
    form := SetAttr(c, "name", id);
    assert form == c.(attrs := c.attrs["name" := id]);
    form := SetAttr(form, "id", id);
    assert form == c.(attrs := c.attrs["name" := id]["id" := id]);
    form := Insert(form, 0, EcmlForm.LocationInput());
    assert form.children == [EcmlForm.LocationInput()] + c.children;
  }

  /** The form's own attributes once `serialize` is done: the project id names and identifies it. */
  lemma FormAttributes(project: Project)
    requires AllKnown(project.categories)
    ensures TypesForm(project.categories).value.attrs["name" := Str(project.id)]["id" := Str(project.id)]
            == map["num" := "1", "main" := "true", "name" := Str(project.id), "id" := Str(project.id)]
  {
  }
}
