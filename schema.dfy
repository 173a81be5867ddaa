/**
 * The host's project schema as the serialisers read it: projects, their
 * categories, the categories' typed fields and the lookup values of lookup
 * fields. Each carries its `status == 'active'` as a flag; the ORM filters
 * `filter(status='active')` become the `Active...` functions below.
 */
module Schema {
  import opened Strings

  datatype LookupValue = LookupValue(id: nat, name: string, active: bool)

  /**
   * The field class names the serialisers compare `field.fieldtype` against;
   * any other class name is `OtherField`.
   */
  datatype FieldType =
    | TextField | NumericField | TrueFalseField | DateTimeField | DateField
    | TimeField | LookupField | MultipleLookupField
    | OtherField(className: string)

  /**
   * A field of a category. `fieldtype` is the field's class name; `minval` and `maxval`
   * are the texts `str(field.minval)` and `str(field.maxval)` when those are
   * set; `categoryId` is `field.category.id`.
   */
  datatype Field = Field(
    key: string,
    name: string,
    fieldtype: FieldType,
    required: bool,
    minval: Option<string>,
    maxval: Option<string>,
    lookupvalues: seq<LookupValue>,
    categoryId: nat,
    active: bool)

  /** A category and all its fields, active or not, in their stored order. */
  datatype Category = Category(id: nat, name: string, active: bool, fields: seq<Field>)

  datatype Project = Project(id: nat, name: string, categories: seq<Category>)

  /** The fields of a category really belong to it. */
  predicate WellFormed(c: Category) {
    forall j :: 0 <= j < |c.fields| ==> c.fields[j].categoryId == c.id
  }

  // ---------------------------------------------------------------------------
  // filter(status='active'), keeping the stored order
  // ---------------------------------------------------------------------------

  function Filter<T>(s: seq<T>, keep: T -> bool): (r: seq<T>)
    ensures |r| <= |s|
    ensures forall k :: 0 <= k < |r| ==> keep(r[k])
    decreases |s|
  {
    if s == [] then []
    else Filter(s[..|s| - 1], keep) + (if keep(s[|s| - 1]) then [s[|s| - 1]] else [])
  }

  /** Extending a prefix by one element. */
  lemma PrefixStep<T>(s: seq<T>, i: nat)
    requires i < |s|
    ensures s[..i + 1] == s[..i] + [s[i]]
  {
  }

  /** The filter keeps exactly the members of `s` that satisfy `keep`. */
  lemma {:induction false} FilterMembers<T>(s: seq<T>, keep: T -> bool)
    ensures forall k :: 0 <= k < |Filter(s, keep)| ==> Filter(s, keep)[k] in s
    ensures forall x :: x in s && keep(x) ==> x in Filter(s, keep)
    decreases |s|
  {
    if s != [] {
      var init := s[..|s| - 1];
      FilterMembers(init, keep);
      assert forall x :: x in s ==> x in init || x == s[|s| - 1];
      assert forall x :: x in init ==> x in s;
    }
  }

  /**
   * The filter keeps the stored order: filtering a concatenation is
   * concatenating the filtered parts, so what is kept from an earlier part
   * comes before what is kept from a later one.
   */
  lemma {:induction false} FilterConcat<T>(a: seq<T>, b: seq<T>, keep: T -> bool)
    ensures Filter(a + b, keep) == Filter(a, keep) + Filter(b, keep)
    decreases |b|
  {
    var ab := a + b;
    if b == [] {
      assert ab == a;
    } else {
      var init := b[..|b| - 1];
      assert ab[..|ab| - 1] == a + init;
      assert ab[|ab| - 1] == b[|b| - 1];
      FilterConcat(a, init, keep);
    }
  }

  /** A filter that drops nothing gives back the whole sequence. */
  lemma {:induction false} FilterFull<T>(s: seq<T>, keep: T -> bool)
    requires |Filter(s, keep)| == |s|
    ensures Filter(s, keep) == s
    decreases |s|
  {
    if s != [] {
      var init := s[..|s| - 1];
      assert |Filter(init, keep)| <= |init|;
      FilterFull(init, keep);
      assert s == init + [s[|s| - 1]];
    }
  }

  predicate IsActiveField(f: Field) { f.active }
  predicate IsActiveValue(v: LookupValue) { v.active }
  predicate IsActiveCategory(c: Category) { c.active }

  function ActiveFields(fs: seq<Field>): seq<Field> {
    Filter(fs, IsActiveField)
  }

  function ActiveValues(vs: seq<LookupValue>): seq<LookupValue> {
    Filter(vs, IsActiveValue)
  }

  function ActiveCategories(cs: seq<Category>): seq<Category> {
    Filter(cs, IsActiveCategory)
  }
}
