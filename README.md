# OpenRPC content-descriptor builders, modelled in Dafny

This project models the part of the `open-rpc` PHP library that computes something. That part is the set of static builders that produce OpenRPC content descriptors and schema components as nested PHP arrays. The model proves what those arrays contain.

- **Resource-map builders.** `FieldsContentDescriptor`, `FiltersContentDescriptor`, `RelationshipsContentDescriptor` and `SortsContentDescriptor` each take an ordered map from resource name to a list of strings. A `foreach` loop fills a `properties` dictionary, one entry per resource. The builder returns `null` when that dictionary stays empty. Otherwise it returns `{name, description, schema: {type: "object", properties}}`.
  - Fields and filters repeat the resource name under a `name` sub-key in each property. Relationships and sorts do not.
  - For sorts, the enum is the list followed by the same list with each entry prefixed by `-`. The `-` prefix is the descending-order marker from the "Sorting" section of the JSON:API 1.0 format.
- **Pass-through and constant builders.**
  - `MethodDataContentDescriptor` wraps a caller's JSON Schema unchanged. Its `createFromData` asks a data class for that schema.
  - `CursorPaginatorContentDescriptor` returns a constant `page` descriptor whose `$ref` points at the `CursorPaginator` schema.
  - `CursorPaginatorSchema` returns that schema as a constant.
- **`SchemaValue`** is the one value object with behaviour. `toArray()` renders it as `{name: data}`.

Encoding choices:

- A PHP array used as a dictionary keeps insertion order. So a JSON object is `Json.JObj(seq<(string, Json)>)`, not a Dafny `map`.
- `$a[$k]` is `Json.Find`. `$a[$k] = $v` is `Json.Put`: an existing key keeps its place and gets the new value, and a new key is appended.
- PHP's `null` result is `Json.Option.None`. A `null` or boolean inside a JSON value is `Json.JNull` or `Json.JBool`.
- A parameter or property declared `array` has type `Json.PhpArray`: a list (`JArr`) or a dictionary (`JObj`). The `array` declarations cover `create(array $schema)`, the `array` that `getValidationRules` takes and returns, and `SchemaValue::$data`. A scalar there is a PHP `TypeError`, so the model's types rule it out.
- The resource-map input is `ResourceDescriptor.ResourceMap`, which is `seq<(string, seq<string>)>`. A PHP array never repeats a key. Lemmas about key order therefore assume `DistinctKeys`. The builders themselves accept any sequence.
- The four resource-map builders share one loop, `ResourceDescriptor.Build`. A `Shape(withName, withDescending)` value selects the property layout. Each builder's `Create` calls `Build` with its own name, description and shape. `Build` is proved equal to the function `ResourceDescriptor.Descriptor`, which folds `Put` over the input as the PHP loop does. The lemmas then state each builder's output shape in terms of that function.
- `getValidationRules` is a function parameter `PhpArray -> PhpArray`. The PHP code finds it by a dynamic static call on a class name instead.

Files: `json.dfy` (module `Json`), `resource_descriptor.dfy`, `fields_content_descriptor.dfy`, `filters_content_descriptor.dfy`, `relationships_content_descriptor.dfy`, `sorts_content_descriptor.dfy`, `method_data_content_descriptor.dfy`, `cursor_paginator_content_descriptor.dfy`, `cursor_paginator_schema.dfy`, `schema_value.dfy` (module `ValueObject`).

## Model

| member | source | states |
|---|---|---|
| Json.Put | src/ContentDescriptor/FieldsContentDescriptor.php:60-67 | `$properties[$resource] = …`: a new key is appended at the end, and with an existing key the dictionary keeps the same keys in the same order |
| Json.FindPut | src/ContentDescriptor/FieldsContentDescriptor.php:60-67 | after `$properties[$resource] = $v`, the resource holds `$v` and every other key holds what it held before |
| ResourceDescriptor.Descending | src/ContentDescriptor/SortsContentDescriptor.php:67 | `Arr::map` with `'-'.$sort`: same length, and entry i is `-` followed by entry i of the input |
| ResourceDescriptor.SortEnum | src/ContentDescriptor/SortsContentDescriptor.php:65-68 | the sort enum is twice as long as the list; its first half is the list in order; entry n+i is `-` + entry i; a string occurs in it exactly when it is a listed field or `-` plus a listed field |
| ResourceDescriptor.Properties | src/ContentDescriptor/FieldsContentDescriptor.php:57-68 | the `properties` dictionary after the loop is empty exactly when the input map is |
| ResourceDescriptor.PropertiesKeys | src/ContentDescriptor/FieldsContentDescriptor.php:59-68 | with distinct resource names, the dictionary's keys are the input's names in input order |
| ResourceDescriptor.Descriptor | src/ContentDescriptor/FieldsContentDescriptor.php:70-73 | the result is `null` exactly when the input map is empty |
| ResourceDescriptor.Build | src/ContentDescriptor/FieldsContentDescriptor.php:55-82 | the loop-and-emptiness-check method returns exactly the descriptor `Descriptor` specifies, for every input |
| ResourceDescriptor.FindProperty | src/ContentDescriptor/FieldsContentDescriptor.php:59-68 | after the loop, `$properties[$r]` is the entry built from `$input[$r]` when `r` is an input resource, and absent otherwise |
| ResourceDescriptor.SchemaOf | src/ContentDescriptor/FieldsContentDescriptor.php:77-80 | a non-empty descriptor's `schema` is `{type: "object", properties}` with the loop's dictionary |
| ResourceDescriptor.PropertiesOf | src/ContentDescriptor/FieldsContentDescriptor.php:79 | `schema.properties` of a non-empty descriptor is exactly the dictionary the loop built |
| ResourceDescriptor.DescriptorLayout | src/ContentDescriptor/FieldsContentDescriptor.php:74-81 | a non-empty descriptor has exactly the keys name, description, schema; it carries the given name and description; `schema.type` is "object"; `schema.properties` is the loop's dictionary, whose keys are the input's keys in order |
| ResourceDescriptor.PropertyAt | src/ContentDescriptor/FieldsContentDescriptor.php:59-68 | `schema.properties[r]` is the property built from r's list for an input resource r, and absent for any other name |
| ResourceDescriptor.PropertyParts | src/ContentDescriptor/RelationshipsContentDescriptor.php:56-62 | a property has keys `type`, `items`, preceded by `name` (holding the resource) only in the named shape; `type` is "array", `items.type` is "string", and `items.enum` is the shape's enum of the list |
| ResourceDescriptor.ResourcePropertyAt | src/ContentDescriptor/FieldsContentDescriptor.php:60-67 | for an input resource, `schema.properties[r]` is its property and `…['items']['enum']` is the shape's enum of its list |
| FieldsContentDescriptor.Create | src/ContentDescriptor/FieldsContentDescriptor.php:55-82 | returns the fields descriptor, and returns null exactly when the map is empty |
| FieldsContentDescriptor.Header | src/ContentDescriptor/FieldsContentDescriptor.php:74-81 | a non-empty result is named "fields", has the fixed description and an object schema, and its properties are the loop's dictionary, keyed by the resources in input order |
| FieldsContentDescriptor.ResourceProperty | src/ContentDescriptor/FieldsContentDescriptor.php:60-67 | each resource's property is `{name: resource, type: "array", items: {type: "string", enum}}`, and its enum is the field list verbatim and in order |
| FieldsContentDescriptor.UsersAndPostsExample | tests/ContentDescriptor/FieldsContentDescriptorTest.php:16-31 | for `['users' => ['id', 'name', 'email'], 'posts' => ['id', 'title']]`: the result is not null, `name` is "fields", `schema.type` is "object", the properties are users then posts, and their `items.enum` are `['id', 'name', 'email']` and `['id', 'title']` |
| FiltersContentDescriptor.Create | src/ContentDescriptor/FiltersContentDescriptor.php:57-84 | returns the filters descriptor, and returns null exactly when the map is empty |
| FiltersContentDescriptor.Header | src/ContentDescriptor/FiltersContentDescriptor.php:76-83 | a non-empty result is named "filters", has the fixed description and an object schema, and its properties are the loop's dictionary, keyed by the resources in input order |
| FiltersContentDescriptor.ResourceProperty | src/ContentDescriptor/FiltersContentDescriptor.php:62-69 | each resource's property is `{name: resource, type: "array", items: {type: "string", enum}}`, and its enum is the filter list verbatim |
| RelationshipsContentDescriptor.Create | src/ContentDescriptor/RelationshipsContentDescriptor.php:51-77 | returns the relationships descriptor, and returns null exactly when the map is empty |
| RelationshipsContentDescriptor.Header | src/ContentDescriptor/RelationshipsContentDescriptor.php:69-76 | a non-empty result is named "relationships", has the fixed description and an object schema, and its properties are the loop's dictionary, keyed by the resources in input order |
| RelationshipsContentDescriptor.ResourceProperty | src/ContentDescriptor/RelationshipsContentDescriptor.php:56-62 | each resource's property is exactly `{type: "array", items: {type: "string", enum}}`, with no `name` sub-key, and its enum is the relationship list verbatim |
| SortsContentDescriptor.Create | src/ContentDescriptor/SortsContentDescriptor.php:56-85 | returns the sorts descriptor, and returns null exactly when the map is empty |
| SortsContentDescriptor.Header | src/ContentDescriptor/SortsContentDescriptor.php:77-84 | a non-empty result is named "sorts", has the fixed description and an object schema, and its properties are the loop's dictionary, keyed by the resources in input order |
| SortsContentDescriptor.ResourceProperty | src/ContentDescriptor/SortsContentDescriptor.php:61-70 | each resource's property is `{type: "array", items: {type: "string", enum}}` with no `name`, and its enum is the list followed by the `-`-prefixed list |
| SortsContentDescriptor.DescendingTwins | src/ContentDescriptor/SortsContentDescriptor.php:65-68 | a resource's enum has 2n entries: entry i is field i, and entry n+i is its descending twin `-` + field i |
| MethodDataContentDescriptor.Create | src/ContentDescriptor/MethodDataContentDescriptor.php:57-64 | for an array schema: never null; exactly the keys name, description, schema; name "data", the fixed description, and the given schema unchanged |
| MethodDataContentDescriptor.CreateFromData | src/ContentDescriptor/MethodDataContentDescriptor.php:92-98 | the result is named "data", and its schema is what `getValidationRules` returns for the empty context |
| MethodDataContentDescriptor.CreateFromDataInjective | src/ContentDescriptor/MethodDataContentDescriptor.php:95-97 | two data classes give the same descriptor exactly when their rules for the empty context agree |
| CursorPaginatorContentDescriptor.Create | src/ContentDescriptor/CursorPaginatorContentDescriptor.php:46-55 | exactly the keys name, description, schema; name "page"; the fixed description; schema is the one-key map `{"$ref": "#/components/schemas/CursorPaginator"}` |
| CursorPaginatorContentDescriptor.LastSegment | src/ContentDescriptor/CursorPaginatorContentDescriptor.php:52 | the last reference token of a JSON Pointer contains no `/`, is a suffix of the pointer, and is either the whole pointer or preceded by a `/` |
| CursorPaginatorContentDescriptor.LastSegmentOfChild | src/ContentDescriptor/CursorPaginatorContentDescriptor.php:52 | the last token of `parent/token` is `token` whenever `token` holds no `/` |
| CursorPaginatorContentDescriptor.ReferenceToken | src/ContentDescriptor/CursorPaginatorContentDescriptor.php:52 | the `$ref` is the reusable-schemas pointer plus `/CursorPaginator`, so its last segment is the CursorPaginator schema's name |
| CursorPaginatorContentDescriptor.ReferenceResolves | src/Schema/CursorPaginatorSchema.php:53-69 | the `$ref` is the schemas pointer followed by the name `CursorPaginatorSchema::create` gives, and rendering that schema through `SchemaValue` yields `{"CursorPaginator": data}` |
| CursorPaginatorSchema.Create | src/Schema/CursorPaginatorSchema.php:51-70 | keys name, data; name "CursorPaginator"; `data` is the schema constant; `data.type` "object"; `data.required` exactly `["cursor"]`, every entry of which is a declared property; `data.properties` has exactly keys cursor, size, of types "string" and "integer" |
| ValueObject.SchemaValue.ToArray | src/ValueObject/SchemaValue.php:61-66 | the rendering has exactly one key, the schema's name, holding its data unchanged |
| ValueObject.ToArrayInjective | src/ValueObject/SchemaValue.php:44-66 | two schema values render alike exactly when their names and data are equal, so rendering loses nothing the constructor stored |

## Left out

- The record-only value objects are not modelled: `MethodValue`, `DocumentValue`, `ComponentsValue`, `ContentDescriptorValue`, `InfoValue`, `ServerValue`, `ServerVariableValue`, `ExampleValue`, `ExamplePairingValue`, `TagValue`, `ErrorValue`, `ContactValue`, `LicenseValue`, `ExternalDocumentationValue`, `LinkValue`, `ReferenceValue`. They are constructors with no logic. Their required-field checks come from PHP's type system and from validation attributes of a foreign library (Spatie Data).
- Spatie's `DataCollection` and the `$ref` output renaming of `ReferenceValue` are serialisation machinery outside this model.
- MethodDataContentDescriptor.CreateFromData: the data class is a function parameter, so the PHP failure when a class lacks a static `getValidationRules` method is not represented. The code has no check of its own for that case: the failure is PHP's error for an undefined static method, not a dedicated error. The empty context `[]` is modelled as the empty object.
- `Arr::map` is modelled as a map over a list. It is not modelled over PHP arrays with non-sequential integer keys.
- PHP's coercion of numeric-string keys to integers is not modelled. Keys are strings throughout.
- Serialising the arrays to JSON text is not modelled.
- MethodDataContentDescriptor.Create, MethodDataContentDescriptor.CreateFromData, ValueObject.SchemaValue: `Json` has no floating-point numbers. A schema or data holding a PHP `float` (for example a `multipleOf: 0.5`) is outside the model, and the pass-through is proved only for values made of null, booleans, strings, integers, lists and dictionaries.
