# geokey-epicollect in Dafny

A model of the GeoKey extension that connects GeoKey projects to EpiCollect's
mobile data collection app.

The model has three parts.

- **The EcML form compiler** (`geokey_epicollect/serializer.py`,
  `ProjectFormSerializer`).
  - It maps a project, its active categories and their typed fields to the
    EcML element tree that the app reads.
  - Every input is named by a composite reference: the key with `-` made `_`,
    then `_`, then the category id.
  - A category selector carries a comma-joined `jump` chain that sends the app
    to each category's first field.
- **The record exporter** (`DataSerializer`). It flattens stored records into
  an `<entries>` tree or into tab-separated lines, using the same column
  naming and a literal `Null` for missing values.
- **The earlier compiler** (root `serializer.py`). It has different rules and
  is modelled as a separate module.
- **The views** (`geokey_epicollect/views.py`):
  - the reconciliation of enabled projects;
  - the upload endpoint for records, thumbnails and videos;
  - the form and download endpoints.

### Modelling approach

- **XML elements** are values of `Xml.Element`: a tag, an attribute map,
  optional text and ordered children. lxml's in-place changes
  (`attrib[...] =`, `append`, `insert`) become reassignments of local element
  values inside methods.
- **Loops** in the source are `method`s with `while` loops. Each method is
  proved equal to a declarative function, for example:
  - `SerializeCategories` equals `CategoriesForm`;
  - `SerializeToTsv` equals `TsvText`;
  - `DecodeObservation` equals `Decoded`.

  The properties the source promises are then proved about those functions.
- **Database tables** that the views read and change are the fields of the
  class `Views.Store`. Each view method is proved against a pure function
  from the old table contents to its response and the new contents, for
  example `UploadOutcome` and `ThumbnailsOutcome`.
- **Shared helpers.** The earlier compiler's `create_label` and `create_item`
  (`serializer.py:14-33`) are the same code as the current compiler's. So
  `LegacyForm` uses `EcmlForm.CreateLabel` and `EcmlForm.CreateItem` rather
  than defining them a second time.
- **Python exceptions** that escape a view are `Exceptions.Result` values
  that carry the exception.

Modules:

| Module | Contents |
|---|---|
| `Strings` | Python's `str(int)`, `int(str)`, `strip`, `replace`, `lower`, `rfind`, slicing, `split`, and the integer subset of `json.loads` |
| `Xml` | the element datatype and operations |
| `Schema` | projects, categories, fields and lookup values, with `filter(status='active')` as `Active...` |
| `Exceptions` | exceptions and results |
| `EcmlForm` | the current compiler |
| `LegacyForm` | the earlier compiler |
| `DataExport` | the exporter |
| `Views` | the views |

## Model

| member | source | states |
|---|---|---|
| Strings.Str | geokey_epicollect/serializer.py:45 | `str(id)` is a non-empty run of decimal digits; it has one digit exactly when the id is below 10, and no leading zero |
| Strings.DigitsValueOfStr | geokey_epicollect/serializer.py:31 | the rendered digits denote the number again |
| Strings.StrInjective | geokey_epicollect/serializer.py:45 | distinct ids render as distinct texts |
| Strings.Replace | geokey_epicollect/serializer.py:42 | `replace('-', '_')` keeps the length, turns each dash into an underscore, keeps every other character, and leaves no dash |
| Strings.ReplaceIdempotent | geokey_epicollect/serializer.py:42 | replacing twice gives the same text as replacing once |
| Strings.Lower | geokey_epicollect/serializer.py:229 | `lower()` keeps the length, leaves no upper-case ASCII letter, and keeps every other character |
| Strings.RFind | geokey_epicollect/views.py:144 | `rfind('.')` is the index of the last dot, or -1 when the text has none |
| Strings.SliceTo | geokey_epicollect/views.py:144 | `s[:end]` is the prefix up to `end`; a negative `end` counts from the back |
| Strings.SplitJoin | geokey_epicollect/serializer.py:352 | splitting a tab-join gives back the parts when no part holds a tab |
| Strings.ParseNatOfStr | geokey_epicollect/views.py:114 | a rendered id parses back to the id |
| Strings.PyStrip | geokey_epicollect/views.py:108 | `strip()` leaves no white space at either end and never lengthens the text |
| Strings.PyInt | geokey_epicollect/views.py:108 | `int()` of a text accepts only white space, an optional sign, white space again and decimal digits, so a text without a digit raises |
| Strings.PyIntSpaceAfterSign | geokey_epicollect/views.py:108 | white space between a minus sign and the digits is skipped |
| Strings.PyIntMinusSpaceFive | geokey_epicollect/views.py:108 | `int('- 5')` is `-5` |
| Strings.PyIntOfStr | geokey_epicollect/views.py:108 | a rendered id converts back to the id |
| Strings.PyIntOfPadded | geokey_epicollect/views.py:108 | white space around the literal and a `+` sign are accepted |
| Strings.ParseIdListOfJoined | geokey_epicollect/views.py:113-114 | `json.loads('[' + v + ']')` of comma-separated rendered ids, padded with JSON white space, is the list of those ids in order |
| Xml.SetAttr | geokey_epicollect/serializer.py:49 | `attrib[name] = v` gives the attribute that value and changes no other attribute, tag, text or child |
| Xml.Append | geokey_epicollect/serializer.py:89 | `append` adds the child at the end and changes nothing else |
| Xml.Insert | geokey_epicollect/serializer.py:263 | `insert(i, c)` puts the child at position `i`, or at the end when `i` is past it |
| Schema.FilterMembers | geokey_epicollect/serializer.py:116 | `filter(status='active')` keeps exactly the active members |
| Schema.FilterConcat | geokey_epicollect/serializer.py:116 | filtering keeps stored order: the filter of a concatenation is the concatenation of the filters |
| Schema.FilterFull | geokey_epicollect/serializer.py:197-198 | a filter that drops nothing gives back the whole sequence |
| EcmlForm.CreateItem | geokey_epicollect/serializer.py:23-34 | an `item` whose two children are a `label` with the name, then a `value` with the value text |
| EcmlForm.Ref | geokey_epicollect/serializer.py:42-46 | the composite ref holds no dash: the key with dashes made underscores, then `_`, then the category id |
| EcmlForm.RefNormalisedKey | geokey_epicollect/serializer.py:42 | normalising the key first gives the same ref |
| EcmlForm.RefDisambiguates | geokey_epicollect/serializer.py:45 | two fields share a ref only if they are in the same category and their keys agree up to dashes |
| EcmlForm.CreateBaseInput | geokey_epicollect/serializer.py:36-51 | an `input` with the field's composite ref; `required` is present, as `true`, exactly when the field is required |
| EcmlForm.CreateBaseSelect | geokey_epicollect/serializer.py:53-68 | the same attributes, under the tag asked for |
| EcmlForm.SerializeTextField | geokey_epicollect/serializer.py:84-91 | the base input with one `label` child holding the field name |
| EcmlForm.SerializeNumericField | geokey_epicollect/serializer.py:93-107 | the base attributes plus `decimal` and the bounds the field has; one `label` child |
| EcmlForm.NumericBounds | geokey_epicollect/serializer.py:97-103 | `decimal='true'` always; `min` present exactly when `minval` is set, with its text; the same for `max` |
| EcmlForm.SetOptionalAttr | geokey_epicollect/serializer.py:100-103 | an attribute is added only when its value is present |
| EcmlForm.SerializeDateField | geokey_epicollect/serializer.py:133-142 | the base attributes plus `date='dd/MM/yyyy'`, then the label |
| EcmlForm.SerializeTimeField | geokey_epicollect/serializer.py:144-153 | the base attributes plus `time='HH:mm'`, then the label |
| EcmlForm.LookupFieldElement | geokey_epicollect/serializer.py:109-131 | the base select, then its label, then one item per active lookup value, in order |
| EcmlForm.LookupItemValues | geokey_epicollect/serializer.py:116-117 | option `k` is labelled by the name of the `k`-th active value and valued by the decimal text of its id, which parses back to that id |
| EcmlForm.SerializeSingleLookupField | geokey_epicollect/serializer.py:109-119 | the loop builds the lookup element under `radio` |
| EcmlForm.SerializeMultipleLookupField | geokey_epicollect/serializer.py:121-131 | the loop builds the lookup element under `select` |
| EcmlForm.SerializeLookupField | geokey_epicollect/serializer.py:113-117 | the shared loop appends one item per active value after the label |
| EcmlForm.LookupItemsStep | geokey_epicollect/serializer.py:116-117 | one more value appends exactly its item |
| EcmlForm.SerializeByType | geokey_epicollect/serializer.py:156-170 | the dispatch raises `TypeError('Unknown field type.')` exactly for a type outside Text, Numeric, DateTime, Date, Time, Lookup and MultipleLookup |
| EcmlForm.SerializeByTypeShape | geokey_epicollect/serializer.py:156-168 | a known type gives `radio` for a lookup, `select` for a multiple lookup and `input` otherwise; the attributes are exactly the base ones plus those of the type; the children are the label, then (for lookups) the active items |
| EcmlForm.FieldElement | geokey_epicollect/serializer.py:155-175 | `serialize_field` fails exactly on an unknown type, with that error |
| EcmlForm.FieldElementShape | geokey_epicollect/serializer.py:172-175 | the attributes are those of the type, plus `jump='photo,ALL'` exactly when `jump_end` holds |
| EcmlForm.SerializeField | geokey_epicollect/serializer.py:155-175 | the step-by-step version builds that element or raises that error |
| EcmlForm.JumpPair | geokey_epicollect/serializer.py:200-213 | a category's pair is non-empty and holds a comma (its first active field's ref, then `idx + 1`) |
| EcmlForm.JumpEntries | geokey_epicollect/serializer.py:193-214 | every pair in the chain is non-empty |
| EcmlForm.JumpIndices | geokey_epicollect/serializer.py:199 | every index in the chain is a category that is not the first and has an active field |
| EcmlForm.JumpIndicesComplete | geokey_epicollect/serializer.py:199 | every such category is in the chain |
| EcmlForm.JumpIndicesIncreasing | geokey_epicollect/serializer.py:193 | the chain follows category order, so no category appears twice |
| EcmlForm.JumpChainShape | geokey_epicollect/serializer.py:193-214 | entry `k` of the chain is the pair of the `k`-th contributing category, so there are as many pairs as contributing categories |
| EcmlForm.JumpAccumulates | geokey_epicollect/serializer.py:201-214 | the loop's accumulating `jump` text (pair alone when the text was empty, otherwise a comma and the pair) is the comma-join of the chain |
| EcmlForm.JumpEndOnlyWhenAllActive | geokey_epicollect/serializer.py:216-217 | some field gets the end jump exactly when the category has fields and none is inactive, because the index over active fields is compared with the count of all fields |
| EcmlForm.CategoryItemsStep | geokey_epicollect/serializer.py:194-195 | each category appends its item (name, id) to the selector |
| EcmlForm.CategoryFieldsAt | geokey_epicollect/serializer.py:197-218 | compiled element `j` of a category is its `j`-th active field, compiled with the end jump decided by the index |
| EcmlForm.NotAllKnown | geokey_epicollect/serializer.py:170 | one active field of unknown type in any category spoils the whole form |
| EcmlForm.SerializeCategories | geokey_epicollect/serializer.py:177-220 | `form num=1 main=true`; the selector (`ref=category`, `required`, the `Select type` label, one item per category, the jump chain), then all compiled fields in category and field order; or the `TypeError` exactly when some active field is of unknown type |
| EcmlForm.SerializeCategoryLoop | geokey_epicollect/serializer.py:193-218 | the outer loop yields the complete selector and the fields, or the error exactly when some field is unknown |
| EcmlForm.SerializeCategory | geokey_epicollect/serializer.py:194-218 | one round extends the selector and the fields by one category |
| EcmlForm.SerializeCategoryFields | geokey_epicollect/serializer.py:197-218 | the inner loop adds the category's jump pair on its first field and compiles its active fields |
| EcmlForm.AddJumpPair | geokey_epicollect/serializer.py:199-214 | the `jump` update for a later category's first field |
| EcmlForm.SelectorJumpStep | geokey_epicollect/serializer.py:214 | writing the new chain into `jump` gives the selector with that chain |
| EcmlForm.SetAttrSame | geokey_epicollect/serializer.py:214 | rewriting an attribute with its own value changes nothing |
| EcmlForm.ModelHeader | geokey_epicollect/serializer.py:225-243 | `submission` with the id, the name with spaces made `_` and lower-cased, `versionNumber='2.1'` and `allowDownloadEdits='false'`; then the upload and download URLs, `http://` + host + path |
| EcmlForm.CompleteForm | geokey_epicollect/serializer.py:248-267 | the form is named by the name with spaces made `_` (not lower-cased), has `key='unique_id'`, and its children are unique_id, location, the compiled children, then photo and video |
| EcmlForm.DocumentShape | geokey_epicollect/serializer.py:222-271 | the document is `ecml version=1` holding the header and the form (`num`, `main`, the name with spaces made `_`, `key='unique_id'`), whose children are unique_id, location, the selector, every compiled field, then photo and video; or the `TypeError` exactly when an active field is of unknown type |
| EcmlForm.Serialize | geokey_epicollect/serializer.py:222-271 | the step-by-step build returns exactly that document |
| LegacyForm.CreateBaseInput | serializer.py:35-45 | `ref` is the raw key; `required` is always present and is `true` or `false`, `true` exactly when the field is required |
| LegacyForm.CreateBaseSelect1 | serializer.py:47-57 | the same attributes on a `select1` |
| LegacyForm.SerializeTextField | serializer.py:63-70 | the base input and its label |
| LegacyForm.SerializeNumericField | serializer.py:72-86 | the base attributes plus `decimal` and the bounds present; the label |
| LegacyForm.NumericBounds | serializer.py:76-82 | `decimal='true'` always; `min` and `max` present exactly when the field has them, with their texts |
| LegacyForm.SerializeTrueFalseField | serializer.py:88-97 | a `select1` with the label, then exactly the items `True`/`true` and `False`/`false`, in that order |
| LegacyForm.LookupFieldElement | serializer.py:99-109 | a `select1` with the label and one item per active lookup value |
| LegacyForm.SerializeSingleLookupField | serializer.py:99-109 | the loop builds that element |
| LegacyForm.SerializeDateTimeField | serializer.py:111-120 | the base attributes plus `date='dd/MM/yyyy'`, then the label |
| LegacyForm.FieldElement | serializer.py:122-134 | `TypeError` exactly for a type outside Text, Numeric, TrueFalse, DateTime and Lookup (so Date, Time and MultipleLookup fail) |
| LegacyForm.FieldElementShape | serializer.py:122-132 | the tag of the type; exactly the base and type attributes, so never a `jump`; the label, then the options of a choice field |
| LegacyForm.SerializeField | serializer.py:122-134 | the dispatch builds that element or raises that error |
| LegacyForm.JumpPair | serializer.py:159-161 | a pair is the raw key, a comma and `idx + 1` |
| LegacyForm.JumpEntries | serializer.py:151-162 | every pair in the chain is non-empty |
| LegacyForm.JumpIndices | serializer.py:155-156 | every index in the chain is a category with a field |
| LegacyForm.JumpIndicesComplete | serializer.py:155-156 | every category with a field, the first one included, is in the chain |
| LegacyForm.JumpIndicesIncreasing | serializer.py:151 | the chain follows category order |
| LegacyForm.JumpChainShape | serializer.py:151-162 | entry `k` is the pair of the `k`-th category with a field, so N such categories give N pairs |
| LegacyForm.FirstCategoryJumps | serializer.py:156-159 | a first category with a field starts the chain with `<key>,1` |
| LegacyForm.JumpAccumulates | serializer.py:157-162 | the accumulated `jump` text is the comma-join of the chain |
| LegacyForm.SelectorItemStep | serializer.py:152-153 | each observation type appends its item to the selector |
| LegacyForm.SelectorJumpStep | serializer.py:162 | writing the new chain gives the selector with that chain |
| LegacyForm.NotAllKnown | serializer.py:134 | one unknown field in any observation type spoils the whole form |
| LegacyForm.SerializeObservationTypes | serializer.py:136-166 | the form holds the label-less selector (`ref=observationtype`, one item per type, the chain), then every field of every type in order; or the `TypeError` exactly when a field is unknown |
| LegacyForm.SerializeObservationType | serializer.py:151-164 | one round extends the selector and the fields by one type |
| LegacyForm.SerializeTypeFields | serializer.py:155-164 | the inner loop adds the pair on the first field and compiles all fields |
| LegacyForm.AddJumpPair | serializer.py:156-162 | the `jump` update on a type's first field |
| LegacyForm.ModelHeader | serializer.py:171-189 | `submission` with the id and the raw project name; the URLs are the base URL followed by the path |
| LegacyForm.Serialize | serializer.py:168-201 | `ecml` holding the header and the form, named and identified by the project id, with the location input first; or the `TypeError` |
| LegacyForm.FormAttributes | serializer.py:192-193 | the form's attributes are `num`, `main`, and `name` and `id` both equal to the project id |
| DataExport.TagNameHasNoDash | geokey_epicollect/serializer.py:305-307 | a column name never holds a dash |
| DataExport.TagNameIsFormRef | geokey_epicollect/serializer.py:305-307 | the column of a non-fixed key is the ref the form compiler gave that field |
| DataExport.StaticTagVerbatim | geokey_epicollect/serializer.py:275-278 | a fixed input's column is its key, unchanged and without a suffix |
| DataExport.ValueText | geokey_epicollect/serializer.py:310-313 | a cell is its value, or `Null` when the value is `None` or empty, so it is never empty |
| DataExport.ColumnName | geokey_epicollect/serializer.py:305-307 | the column the loop computes is the column name |
| DataExport.PropertyElements | geokey_epicollect/serializer.py:304-315 | one element per property |
| DataExport.PropertyElementsAt | geokey_epicollect/serializer.py:304-315 | element `k` is property `k`'s column and cell |
| DataExport.EntryShape | geokey_epicollect/serializer.py:280-317 | an `entry` holds exactly the leaves `id`, `location_lon`, `location_lat`, `created` and `uploaded` with the record's texts, then one leaf per property, named by its column and holding its cell |
| DataExport.SerializeEntryToXml | geokey_epicollect/serializer.py:280-317 | the method builds that entry |
| DataExport.EntryHeader | geokey_epicollect/serializer.py:281-302 | the entry's five fixed leaves, in order |
| DataExport.AppendProperties | geokey_epicollect/serializer.py:304-315 | the loop appends each property's element, in order |
| DataExport.SerializeProperty | geokey_epicollect/serializer.py:305-315 | one property's leaf |
| DataExport.EntryElements | geokey_epicollect/serializer.py:329-330 | one entry per record, in order |
| DataExport.EntriesTreeShape | geokey_epicollect/serializer.py:319-332 | `entries` holds the `table` (with `table_name` made of the name with spaces made `_`) then exactly one `entry` per record |
| DataExport.SerializeToXml | geokey_epicollect/serializer.py:319-332 | the method builds that tree |
| DataExport.TerminatedJoin | geokey_epicollect/serializer.py:335-352 | cells each followed by a tab are their tab-join plus one tab |
| DataExport.PropertyCells | geokey_epicollect/serializer.py:343-352 | two cells, name and value, per property |
| DataExport.SerializeEntryToTsv | geokey_epicollect/serializer.py:334-354 | the line: project name, the fixed columns as name/value pairs, the properties, each cell followed by a tab, then `\n` |
| DataExport.TsvHeader | geokey_epicollect/serializer.py:335-341 | the first eleven cells |
| DataExport.EntryLineIsJoin | geokey_epicollect/serializer.py:334-354 | a line is its cells joined by tabs, then a tab and a newline |
| DataExport.ColumnsRoundTrip | geokey_epicollect/serializer.py:334-354 | cutting the tab and newline and splitting at tabs gives back the cells, when none holds a tab |
| DataExport.EntryLineCount | geokey_epicollect/serializer.py:334-354 | a record with no newline in its texts gives a line with exactly one newline, at its end |
| DataExport.TsvLineCount | geokey_epicollect/serializer.py:356-362 | the export has exactly as many newlines as records |
| DataExport.SerializeToTsv | geokey_epicollect/serializer.py:356-362 | the loop concatenates the records' lines in order |
| Views.ReconcileSpec | geokey_epicollect/views.py:39-44 | on a list without repeats, which is what `Project.objects.filter(admins=...)` gives, the loop completes, and afterwards a listed project is enabled exactly when its id text is ticked; any other project keeps its status |
| Views.ReconcileDeletesTwice | geokey_epicollect/views.py:41-42 | an enabled, unticked project listed twice makes the second `get` raise `DoesNotExist`, and the first deletion stays |
| Views.ReconcileCreatesTwice | geokey_epicollect/views.py:43-44 | a disabled, ticked project listed twice makes the second `create` raise `IntegrityError` on the taken primary key, and the first creation stays |
| Views.ReconcileStops | geokey_epicollect/views.py:39-44 | once the loop has raised, the projects after that one change nothing |
| Views.Store.UpdateProjects | geokey_epicollect/views.py:39-44 | the loop's deletes and creates leave the store with the reconciled enabled set, and change nothing else; it returns the exception that stopped the loop, and the changes made before it stay |
| Views.UnknownProjectUpload | geokey_epicollect/views.py:76-79 | an upload for a project that is not enabled answers `0` and changes nothing |
| Views.Kind | geokey_epicollect/views.py:82-84 | the branch is data, thumbnail or video exactly when the `type` parameter says so |
| Views.FixedProperties | geokey_epicollect/views.py:96-103 | the six fixed keys are present: five read from the body under their own names, `DeviceID` from the query's `phoneid` |
| Views.FindCategory | geokey_epicollect/views.py:108 | no submitted category raises `DoesNotExist`; a text `int()` rejects raises its `ValueError`; otherwise the category with that id, or `DoesNotExist` exactly when none has it |
| Views.CategoryWithId | geokey_epicollect/views.py:108 | the lookup by id finds a stored category with that id, and fails with `DoesNotExist` exactly when none has it |
| Views.FindCategoryOfItem | geokey_epicollect/views.py:108 | the value the compiled selector gives a category finds a category with that id |
| Views.FindCategoryNotNumber | geokey_epicollect/views.py:108 | a category text without a digit, such as `Null`, raises `ValueError` |
| Views.FieldKeyIsRef | geokey_epicollect/views.py:111-112 | the key a field's value is read from is the ref the compiler gave that field |
| Views.FieldValue | geokey_epicollect/views.py:112-114 | a plain field's value is the submitted text or `None`; a multiple lookup's is the parsed id list; an absent one raises `TypeError` and an unparsable one `ValueError` |
| Views.DecodeFieldsOk | geokey_epicollect/views.py:110-116 | the field loop succeeds exactly when every field's value can be read |
| Views.DecodeFieldsStuck | geokey_epicollect/views.py:110-116 | after one field fails, the later fields keep that error |
| Views.DecodeFieldsStep | geokey_epicollect/views.py:116 | a successful round stores the field's value under its key |
| Views.DecodeFieldsKeys | geokey_epicollect/views.py:110-116 | the properties keep the fixed keys and gain every field's key; a key no field has keeps its value |
| Views.DecodeFieldsValues | geokey_epicollect/views.py:110-116 | a field whose key no later field repeats stores its own value |
| Views.DecodeObservation | geokey_epicollect/views.py:87-116 | the method builds the decoded observation or raises the decoding error |
| Views.DecodedParts | geokey_epicollect/views.py:87-116 | a decoded record is made of the submitted coordinates, the decoded fields of the found category and the submitted category |
| Views.DecodedFixed | geokey_epicollect/views.py:87-107 | a decoded record keeps the submitted coordinates and category, and holds the six fixed keys |
| Views.DecodedFixedVerbatim | geokey_epicollect/views.py:97-102 | a fixed key that no field overrides holds the body's value, or for `DeviceID` the `phoneid` value |
| Views.DecodedFieldValue | geokey_epicollect/views.py:110-116 | round trip with the compiler: what the app posts under a field's form ref is what the record stores under the field's key |
| Views.DecodedErrors | geokey_epicollect/views.py:92-114 | decoding fails exactly when a coordinate is missing, the category is unknown, or a field's value cannot be read |
| Views.NewMedia | geokey_epicollect/views.py:125-137 | one pending media per announced photo or video, linked to the new contribution |
| Views.DataOutcomeEffect | geokey_epicollect/views.py:118-139 | a stored record answers `1`, adds one contribution and one media per announced file, and keeps the rest; a failed one changes nothing |
| Views.Store.PostData | geokey_epicollect/views.py:84-139 | the branch decodes, saves and registers the media, as `DataOutcome` says |
| Views.Store.RegisterMedia | geokey_epicollect/views.py:125-137 | the photo media, then the video media, are appended |
| Views.ThumbnailName | geokey_epicollect/views.py:144 | the matched name is a prefix of the file key |
| Views.ThumbnailOfName | geokey_epicollect/views.py:144 | `name.ext` with a dot-free extension is matched by `name` |
| Views.ThumbnailDoubleExtension | geokey_epicollect/views.py:144 | `x.jpg.jpg` is matched by `x.jpg` |
| Views.ThumbnailWithoutDot | geokey_epicollect/views.py:144 | without a dot, the last character is dropped |
| Views.MediaIndex | geokey_epicollect/views.py:143-145 | a pending media with the name, and no media before it carries the name |
| Views.GetMedia | geokey_epicollect/views.py:143-145 | `objects.get(file_name=...)` gives the one match; `DoesNotExist` for none and `MultipleObjectsReturned` for several |
| Views.GetMediaUnique | geokey_epicollect/views.py:143-145 | a name carried once is found at its position |
| Views.Remove | geokey_epicollect/views.py:156 | `delete()` removes exactly that media and keeps the others in order |
| Views.ThumbnailStepEffect | geokey_epicollect/views.py:142-156 | one handled key adds one image named after the key, consumes one media, and changes nothing else |
| Views.ThumbnailsKeep | geokey_epicollect/views.py:141-158 | the thumbnail loop keeps earlier images and the projects, contributions and videos, even when it stops on an error |
| Views.ThumbnailsEffect | geokey_epicollect/views.py:141-158 | when every key is handled: answer `1`, one media consumed and one image added per key, named after the keys in order |
| Views.ThumbnailMatchesPhoto | geokey_epicollect/views.py:125-158 | a thumbnail posted as `<photo id>.<ext>` is attached to the contribution that announced the photo, and the media is consumed |
| Views.Store.PostThumbnails | geokey_epicollect/views.py:141-158 | the loop does exactly what `ThumbnailsOutcome` says |
| Views.Store.PostVideo | geokey_epicollect/views.py:160-168 | the uploaded file's own name picks the media; the video is attached and the media consumed, or the lookup error is raised |
| Views.UploadKeeps | geokey_epicollect/views.py:74-168 | no upload changes which projects are enabled or forgets a contribution |
| Views.Store.Upload | geokey_epicollect/views.py:74-168 | the upload endpoint does what `UploadOutcome` says, for each branch and the unknown project; any other `type` ends in the REST framework's `AssertionError` for a handler that returned `None` |
| Views.Store.Form | geokey_epicollect/views.py:56-71 | an enabled project, the one whose id is `project_id`, gets exactly its compiled document, or the `TypeError` exactly when a field is unknown; any other project gets the 403 page |
| Views.DownloadResponse | geokey_epicollect/views.py:171-194 | 403 exactly when the project is not enabled; TSV exactly when `xml=false`; the entries tree otherwise |
| Views.Store.Download | geokey_epicollect/views.py:171-194 | the view computes that response with the exporter's methods |

## Left out

- ORM queries are not modelled as queries. `objects.get`, `filter`, `.all()`, `create` and `delete` become:
  - `active` flags with the `Active...` filters;
  - the `Store` fields;
  - searches over sequences, such as `FindCategory` and `GetMedia`.
- `reverse()` and `request.get_host()` are plain string parameters: `baseUrl`, `uploadPath` and `downloadPath`.
- `etree.tostring`, `HttpResponse` and content types are left out. A response is a body, a tree or the 403 page.
- Floats and dates are left out. The coordinates and the `created`/`uploaded` timestamps are taken as given texts.
- Views.Decoded: models `float()` only for a missing coordinate (`TypeError`). A submitted coordinate that is not a number is not rejected.
- Python 2 dict order is left out:
  - the exporter reads a record's properties as a sequence in iteration order;
  - the decoder builds a map.
- Attribute order is not modelled. Attributes are a map.
- `Strings.Lower` folds ASCII letters only, not the rest of Unicode.
- `Strings.ParseIdList` accepts only comma-separated JSON integers, which is what the app sends. Any other JSON value counts as not decodable.
- Non-text property values in the export are left out. A property value is a text or `None`.
- Views.Store.UpdateProjects: keeps the deletes and creates made before an exception, as Django's default autocommit does. A deployment with `ATOMIC_REQUESTS` would roll them back; that setting is not modelled.
- Views.FieldValue: an unparsable multiple-lookup value always raises `ValueError('No JSON object could be decoded')`. Python 2.7's `json.loads` gives that message only when an element is no JSON value at all, such as `abc`. Malformed lists give other messages, such as `Expecting , delimiter: …` for `3 7` and `Extra data: …` for `1],[2`. Only the exception class is modelled for those, not the message.
- Views.InvalidLiteral: the `ValueError` message quotes the text as given. Python's `repr` escaping of unusual characters in that text is not modelled.
- Strings.PyInt: takes ASCII decimal digits and the six ASCII white-space characters only. Python 2's `int()` of a unicode text also accepts other Unicode decimal digits and Unicode white space such as U+00A0 and U+2003; those are not modelled. The same holds for `Views.FindCategory` and `Views.FindCategoryNotNumber`, whose digit is an ASCII digit.
- DataExport.SerializeProperty: always builds the leaf. lxml's `ValueError` is not modelled. lxml raises it for a column that is not an XML name, such as the key `2nd-visit`, which becomes `2nd_visit_5`. It also raises it for a value holding control characters. Checking names against the XML name rules is the library's business, so it is left out.
- The compilers likewise do not model lxml's `ValueError` for a field name, key or lookup name that holds control characters.
- `EcmlForm.SerializeCategories` and `LegacyForm.SerializeObservationTypes` build the selector in a local variable and put it in front of the fields at the end. The source appends it first and keeps mutating it through the shared reference. The final tree is the same; the aliasing is not modelled.
- The user is left out: the `AnonymousUser` lookup, login and templates.
- `ContributionSerializer` validation is left out. Every decoded observation is saved, and a contribution's id is its position in the store.
- Uploaded file contents and `ImageFile`/`MediaFile` creation are left out. Only the file name and the contribution are recorded.
- The root `views.py` is not part of this model. It is a thin access check.
- Configuration, urls, models, migrations and setup files are not part of this model.
- `LegacyForm` compiles every observation type and every field, whatever its status, as the source's `.all()` does.
- The project name in the TSV lines is a parameter, the same for every record, as in the source, where each record's project is the exported one.
- Where the code and its tests disagree, the model follows the code:
  - `projectName` is lower-cased, as `geokey_epicollect/serializer.py` writes it; `geokey_epicollect/tests/test_serializer.py:309` expects the name with only spaces replaced;
  - a missing coordinate or an unknown category raises, where `geokey_epicollect/tests/test_views.py:70-121` expects the answer `0`;
  - an image whose name matches no media record raises, where `geokey_epicollect/tests/test_views.py:230-249` expects the answer `0`.
- Two facts of `geokey_epicollect/serializer.py:199-217` that the model keeps as written:
  - every category, including the last, gives the end jump to the field at index `len(category.fields.all()) - 1`;
  - the jump target of a category's first field is `type_idx + 1`.
- The `"3, 7"` example of the multiple-lookup decoding is not stated as a concrete lemma. The general round trip `Strings.ParseIdListOfJoined` covers it: tokens `3` and ` 7`.
