# DataFrame array core, modelled in Dafny

This project models the array layer of a C++ data frame library built on
Apache Arrow, and proves properties of that model. It covers:

- **`bind_array`** (`include/dataframe/array/bind.hpp`): concatenating
  same-typed array chunks into one array. `ArrayBind.Bind` is the
  specification, with one case per visitor case (null, fixed-width and
  element-wise primitives, list, struct, and the types without a case). The
  methods `VisitorLength`, `VisitFixedWidth`, `VisitElementWise`, `VisitList`
  (writing the rebased offsets into an `array<int>`), `VisitStruct` and
  `BindArray` follow the source's loops and are proved to compute `Bind`.
  Arrays are abstracted to their logical contents (`Arrays.Elements`), which
  is what `arrow::Array::Equals` compares.
- **The split/bind round trip** of `tests/array/src/bind.cpp`: the chunk count
  of a split, and binding the chunks gives back the array's contents.
- **`ArrayView<T>`** (`include/dataframe/array/view.hpp`): the primitive view,
  with its checked and unchecked reads, forward and reverse iteration, and `set`.
- **`ArrayView<Dict<...>>`** (`cpp/include/dataframe/array/view/dict.hpp`): the
  dictionary view, with null slots, signed indices cast to `size_t`, iteration
  and `set`.
- **`ArrayMaker<List<T>>::append`** (`cpp/include/dataframe/array/make/list.hpp`):
  the recursive list builder. Each builder's state is a value. The `ListBuilder`
  class holds the state that `append` updates in place.
- **Column proxies** (`include/dataframe/column.hpp`):
  - construction, `size`, `dtype`, `as`, slicing, `mask`, and `==`/`!=`;
  - assignment into the data frame's table. `ColumnProxy` and `TableHolder` are
    classes whose fields the assignment methods update.
- **`DataType`** (`include/dataframe/data_type.hpp`): the tag, modelled as a
  `bv32`, with its bitwise operators, `dtype(type id)` and `to_string`.
- **Date and time value types** (`include/dataframe/array/traits.hpp`):
  `time_unit_nanos`, the `TimeType` wrapper and its comparisons, and the data
  types of the time traits.

Files:

| file | what it holds |
|---|---|
| `wrappers.dfy` | `Option`, `Result` and `Outcome` |
| `arrow_types.dfy` | Arrow's vocabulary: time units, type tags and type ids |
| `arrays.dfy` | runtime arrays, their contents, and `Slice` |
| `offsets.dfy` | offset arithmetic for list arrays |
| `bind.dfy` | bind |
| `split.dfy` | split and the round trip |
| `view.dfy`, `dict_view.dfy` | the two views |
| `list_maker.dfy` | the list builder |
| `column.dfy` | the column proxies |
| `data_type.dfy` | the `DataType` tag |
| `traits.dfy` | the date and time value types |

Exceptions (`DataFrameException`, `std::out_of_range`) and Arrow error
statuses become `Failure`/`Fail` values carrying the message.

## Model

| member | source | states |
|---|---|---|
| ArrayBind.Bind | include/dataframe/array/bind.hpp:186-201 | a successful bind of one or more chunks yields an array, well formed, of the first chunk's type, whose length is the sum of the chunk lengths |
| ArrayBind.BindEmpty | include/dataframe/array/bind.hpp:189-191 | no chunks bind to no array (`nullptr`) |
| ArrayBind.BindSingle | include/dataframe/array/bind.hpp:193-195 | a single chunk is returned unchanged |
| ArrayBind.BindDifferentTypes | include/dataframe/array/bind.hpp:38-43 | two or more chunks whose types differ are refused with "Bind arrays of different types" |
| ArrayBind.BindSucceeds | include/dataframe/array/bind.hpp:47-182 | two or more chunks bind exactly when they share one type and every visit the bind recurses into has a case (no dictionary, union, interval or map inside) |
| ArrayBind.BindElements | include/dataframe/array/bind.hpp:47-201 | the bound array's contents are the chunks' contents one after another, for null, primitive, list and struct types at any nesting |
| ArrayBind.BindListOffsets | include/dataframe/array/bind.hpp:125-158 | a bound list has `length + 1` offsets starting at 0, slot k is as long as the k-th list of the chunks, and the last offset is the bound child's length, the sum of the referenced spans |
| ArrayBind.BindListChild | include/dataframe/array/bind.hpp:137-152 | the bound child of a list holds exactly the spans `[p[0], p[n])` that the chunks reference, in chunk order |
| ArrayBind.BindStructFields | include/dataframe/array/bind.hpp:160-178 | a bound struct keeps the fields, and field j is the bind of field j across the chunks |
| ArrayBind.VisitorLength | include/dataframe/array/bind.hpp:34-45 | the visitor's constructor sums the chunk lengths, or refuses the chunks when some type differs from the first one |
| ArrayBind.VisitFixedWidth | include/dataframe/array/bind.hpp:54-90 | appending each chunk's raw values as a block yields all the values in chunk order |
| ArrayBind.VisitElementWise | include/dataframe/array/bind.hpp:95-121 | appending values one at a time yields all the values in chunk order |
| ArrayBind.VisitList | include/dataframe/array/bind.hpp:125-150 | the offset buffer of `length + 1` entries holds 0 and then the running sums of the slot lengths (`BoundOffsets`), and the value chunks are each chunk's child sliced to its span |
| ArrayBind.WriteRebased | include/dataframe/array/bind.hpp:146-149 | the inner loop appends one offset per slot, each the running sum advanced by that slot's length, and leaves the sum advanced by `p[n] - p[0]` |
| ArrayBind.VisitStruct | include/dataframe/array/bind.hpp:160-172 | binding field by field gives each field's bind, or the first failing field's error |
| ArrayBind.GatherField | include/dataframe/array/bind.hpp:165-170 | the inner loop collects field i of every chunk, in chunk order |
| ArrayBind.BindArray | include/dataframe/array/bind.hpp:186-201 | the early returns, the constructor and the visit dispatched on the first chunk's type compute `Bind` |
| ArrayBind.BindRange | include/dataframe/array/bind.hpp:203-213 | the iterator overload binds the chunks in `[first, last)` |
| ArrayBind.ValueChunks | include/dataframe/array/bind.hpp:145 | each value chunk is well formed, has the list's element type, and is as long as the span `p[n] - p[0]` it references |
| Offsets.RebaseShape | include/dataframe/array/bind.hpp:139-150 | the written offsets are non-decreasing and end at the running sum after the last chunk |
| Offsets.RebaseDiffs | include/dataframe/array/bind.hpp:146-149 | the consecutive differences of the written offsets are the slot lengths of the chunks, in order |
| Arrays.SliceElements | include/dataframe/array/bind.hpp:145 | `Slice(off, len)` selects exactly slots `off` to `off + len` of the contents, for every array kind |
| Split.SplitCount | tests/array/src/bind.cpp:56 | splitting m slots into chunks of k gives `m / k` chunks, plus one when `m % k != 0` |
| Split.SplitChunks | tests/array/src/bind.cpp:54 | every chunk keeps the array's type and is non-empty with at most k slots; every chunk but the last holds exactly k |
| Split.SplitFromElements | tests/array/src/bind.cpp:54 | the chunks from slot `off` on hold the array's slots from `off` on, in order |
| Split.SplitBind | tests/array/src/bind.cpp:52-60 | binding the split of a bindable array gives an array of the same type with the same contents; an empty array binds to no array |
| Split.SplitBindShort | include/dataframe/array/bind.hpp:193-195 | an array no longer than k is one chunk, itself, and bind returns it unchanged |
| PrimitiveView.View.At | include/dataframe/array/view.hpp:70-77 | `at` fails with "dataframe::ArrayView::at" exactly when `pos >= size`, and otherwise returns slot `pos` |
| PrimitiveView.Default | include/dataframe/array/view.hpp:50-55 | the default view is empty and every `at` on it fails |
| PrimitiveView.FromArray | include/dataframe/array/view.hpp:57-62 | the view of a primitive array has the array's length, and slot i reads the array's i-th value |
| PrimitiveView.AtAgreesGet | include/dataframe/array/view.hpp:79-86 | `at` and `operator[]` agree in range, and `front`/`back` are the first and last slot |
| PrimitiveView.Traversal | include/dataframe/array/view.hpp:94-101 | `begin..end` visits the slots in order, and `rbegin..rend` visits them in reverse |
| PrimitiveView.Set | include/dataframe/array/view.hpp:117-124 | `set` calls the setter once per slot, in order, with slot i and output position `first + i`, and touches no other output |
| DictionaryView.GetSlot | cpp/include/dataframe/array/view/dict.hpp:96-103 | a valid slot reads the dictionary entry its index names, and a null slot reads the value-initialised `null_` |
| DictionaryView.AtSpec | cpp/include/dataframe/array/view/dict.hpp:105-112 | `at` on a valid slot fails exactly when `pos` is past the indices or the index, cast to `size_t` (so a negative one is huge), is past the dictionary; on success it agrees with `operator[]` |
| DictionaryView.AsSize | cpp/include/dataframe/array/view/dict.hpp:108 | the cast to `size_t` keeps a non-negative index and sends a negative `int64_t` index to at least 2^63 |
| DictionaryView.SizeAndEnds | cpp/include/dataframe/array/view/dict.hpp:114-145 | `empty` holds exactly when `size` is 0, `end - begin == size`, and `front`/`back` are the first and last slot visited |
| DictionaryView.Traversal | cpp/include/dataframe/array/view/dict.hpp:122-136 | `begin..end` visits the decoded slots (null or `dictionary[index]`) in order, and `rbegin..rend` visits them in reverse |
| DictionaryView.Set | cpp/include/dataframe/array/view/dict.hpp:152-160 | `set` calls the setter with `operator[](i)` and the advanced output for each slot in order, touches no other output, and returns `first + size` |
| ListMaker.AppendSpec | cpp/include/dataframe/array/make/list.hpp:26-42 | the list builder stays well formed and never loses slots |
| ListMaker.Append | cpp/include/dataframe/array/make/list.hpp:37-41 | the append loop, with one nested append per container, computes `AppendSpec`, and stops at the first failure |
| ListMaker.AppendItem | cpp/include/dataframe/array/make/list.hpp:38-40 | one turn opens a valid slot at the value builder's current length, then appends the container's elements to the value builder |
| ListMaker.ListBuilder.AppendRange | cpp/include/dataframe/array/make/list.hpp:26-42 | `append` updates the builder object in place to the state `AppendSpec` gives, and keeps it well formed |
| ListMaker.MismatchUnchanged | cpp/include/dataframe/array/make/list.hpp:29-34 | a value builder of the wrong class raises "Null value builder" before anything is appended |
| ListMaker.AppendSlots | cpp/include/dataframe/array/make/list.hpp:37-41 | on success the builder reads back as its old slots followed by one valid slot per container, holding that container's elements, at any nesting depth |
| ListMaker.AppendLength | cpp/include/dataframe/array/make/list.hpp:37-41 | on success `append` adds exactly one slot per container |
| ListMaker.NestedMismatchKeepsSlot | cpp/include/dataframe/array/make/list.hpp:29-41 | the class check looks only one level down, so a mismatch deeper in fails after a slot has been opened, and that slot stays |
| Columns.ConstructionSpec | include/dataframe/column.hpp:37-72 | construction fails with "Chunked array not supported" exactly on a column that is not one chunk; otherwise it takes the name and the only chunk; a missing table or column gives no data |
| Columns.FieldIndex | include/dataframe/column.hpp:60-63 | the index found names a column of that name; none is found only when no column has the name |
| Columns.EmptyProxySpec | include/dataframe/column.hpp:169-185 | an empty proxy has size 0 and dtype Unknown, and `as` on it raises "Attempt to access an empty column '<name>'"; a proxy with data has that data's length and dtype |
| Columns.SliceData | include/dataframe/column.hpp:114-116 | `arrow::Array::Slice` keeps the type and holds exactly the selected slots, nulls included |
| Columns.SliceSpec | include/dataframe/column.hpp:99-117 | slicing raises "Slicing out of range" exactly when `end > size`; an empty range gives the empty proxy; otherwise it keeps the name and dtype and holds slots `begin..end` |
| Columns.NoNulls | include/dataframe/column.hpp:158 | the null count is 0 exactly when every slot is valid |
| Columns.Mask | include/dataframe/column.hpp:153-167 | `mask` (with the slice offset applied) has one entry per slot, true exactly where the slot is valid |
| Columns.MaskAsWrittenUnsliced | include/dataframe/column.hpp:153-167 | as written, `mask` is the validity of each slot for an array at offset 0 |
| Columns.MaskAsWrittenIgnoresOffset | include/dataframe/column.hpp:162 | a sliced array whose only slot is null gets mask `[true]` as written |
| Columns.EqPrechecks | include/dataframe/column.hpp:214-227 | proxies differing in name, size or dtype are unequal; equal name, size and an Unknown dtype raise "Unknown dtype cannot be compared" |
| Columns.EqSpec | include/dataframe/column.hpp:214-276 | `==` holds exactly for the same name, the same known dtype and the same contents; it is symmetric; `!=` is its negation and raises when it raises |
| Columns.EqAsWrittenDiffers | include/dataframe/column.hpp:229-269 | `==` with the switch's missing Bool case and the corrected `==` differ only on Bool columns (both compare other dtypes by contents) |
| Columns.BoolColumnsCompareEqual | include/dataframe/column.hpp:229-269 | with the switch's missing Bool case, two Bool columns with one name and size but different values compare equal |
| Columns.AssignedWF | include/dataframe/column.hpp:324-354 | assignment keeps every column at the table's row count, and the names distinct |
| Columns.AssignedShape | include/dataframe/column.hpp:336-351 | the column becomes the only one of an empty table, replaces the column of its name in place, or is appended after the others, which stay as they were |
| Columns.AssignedReadBack | include/dataframe/column.hpp:324-354 | reading the name back after assignment gives the assigned array |
| Columns.AssignedOthers | include/dataframe/column.hpp:344-351 | every other name reads as it did before the assignment |
| Columns.ColumnProxy.Make | include/dataframe/column.hpp:282-286 | the mutable proxy is built from the const part, and fails when that part fails |
| Columns.ColumnProxy.AssignArray | include/dataframe/column.hpp:324-354 | raises "New column length is not the same as the old column" exactly on a row-count mismatch with a non-empty table, changing nothing; otherwise it stores the data and sets the table to the assigned one |
| Columns.ColumnProxy.AssignProxy | include/dataframe/column.hpp:356-359 | assigning another proxy assigns its data |
| Columns.ColumnProxy.AssignScalar | include/dataframe/column.hpp:307-321 | a missing or column-less table raises "Cannot assign scalar to an empty DataFrame", changing nothing; otherwise the column becomes `num_rows` copies of the scalar |
| Columns.Filled | include/dataframe/column.hpp:317-318 | the filled array is well formed and has `num_rows` slots |
| Columns.ScalarReadBack | include/dataframe/column.hpp:307-321 | after a scalar assignment the column reads back as `num_rows` valid copies of the scalar |
| DataTypes.NotNot | include/dataframe/data_type.hpp:45-49 | `~` is an involution |
| DataTypes.XorLaws | include/dataframe/data_type.hpp:65-70 | `a ^ a` is Unknown, `^` commutes, and toggling the same bits twice restores the value |
| DataTypes.OrAndCommute | include/dataframe/data_type.hpp:51-63 | bitwise or and bitwise and commute |
| DataTypes.UnknownLaws | include/dataframe/data_type.hpp:51-63 | Unknown (0) is the identity of bitwise or and absorbs bitwise and |
| DataTypes.OrAndIdempotent | include/dataframe/data_type.hpp:51-63 | adding or masking the same bits twice is the same as once |
| DataTypes.DeMorgan | include/dataframe/data_type.hpp:45-56 | the complement of an or is the and of the complements |
| DataTypes.DataTypeRef.OrAssign | include/dataframe/data_type.hpp:72-76 | the or-assignment stores the union in the variable and returns it |
| DataTypes.DataTypeRef.AndAssign | include/dataframe/data_type.hpp:78-82 | the and-assignment stores the intersection in the variable and returns it |
| DataTypes.DataTypeRef.XorAssign | include/dataframe/data_type.hpp:84-88 | the xor-assignment stores the symmetric difference in the variable and returns it |
| DataTypes.AssignTwice | include/dataframe/data_type.hpp:72-88 | xor-assigning the same bits twice restores the variable, and or-assigning them twice equals once |
| DataTypes.Categories | include/dataframe/data_type.hpp:90-92 | among the enumerators, exactly the integer-backed ones (with Date and Timestamp) carry `Integer`, Float and Double carry `Real`, and String and Categorical carry `Binary` |
| DataTypes.Dtype | include/dataframe/data_type.hpp:94-160 | every type id maps to an enumerator |
| DataTypes.DtypeInjective | include/dataframe/data_type.hpp:94-160 | a tag other than Unknown determines the type id it came from |
| DataTypes.SourceIdDtype | include/dataframe/data_type.hpp:94-160 | the type id recovered from a tag maps back to that tag |
| DataTypes.EnumeratorSource | include/dataframe/data_type.hpp:22-43 | every enumerator except Unknown is the tag of some type id (Bool of BOOL, Date of DATE32, Categorical of DICTIONARY, ...) |
| DataTypes.DtypeUnknown | include/dataframe/data_type.hpp:94-160 | exactly NA, HALF_FLOAT, BINARY, FIXED_SIZE_BINARY, DATE64, TIME32, TIME64, INTERVAL, DECIMAL, LIST, STRUCT, UNION and MAP map to Unknown |
| DataTypes.ToStringDefined | include/dataframe/data_type.hpp:162-198 | `to_string` names every enumerator and nothing else |
| DataTypes.ToStringRoundTrip | include/dataframe/data_type.hpp:162-198 | reading a tag's name back gives the tag |
| DataTypes.ToStringInjective | include/dataframe/data_type.hpp:162-198 | distinct tags have distinct names |
| TimeTraits.TimeUnitNanos | include/dataframe/array/traits.hpp:69-82 | nanoseconds per tick are positive for every unit |
| TimeTraits.TimeUnitScale | include/dataframe/array/traits.hpp:69-82 | each unit is 1000 ticks of the next finer one, so a tick is `1000^rank` nanoseconds |
| TimeTraits.MakeCount | include/dataframe/array/traits.hpp:97-102 | construction from a count and conversion back give the count, and one kind's values are equal exactly when their counts are |
| TimeTraits.ArrowTagUnit | include/dataframe/array/traits.hpp:201-250 | the data type of `Timestamp<U>`, `Time32<U>` and `Time64<U>` carries exactly `U`, and distinct kinds have distinct data types |
| TimeTraits.EqNe | include/dataframe/array/traits.hpp:105-115 | `!=` is the negation of `==`, and `==` on one kind is equality of values |
| TimeTraits.OrderConsistent | include/dataframe/array/traits.hpp:117-139 | `<`/`>=` and `>`/`<=` are complementary, `>` is `<` swapped, `<=` is `<` or `==`, and exactly one of `<`, `==`, `>` holds |
| TimeTraits.OrderLaws | include/dataframe/array/traits.hpp:117-139 | `<` is irreflexive and transitive, and `<=` is a total, antisymmetric, transitive order |
| TimeTraits.CompareIgnoresUnit | include/dataframe/array/traits.hpp:149-153 | the operators read only the count, so a timestamp in seconds and one in milliseconds with the same nonzero count compare equal although they denote different instants |

## Left out

- Validity bitmaps in bind. `bind_array` neither reads the chunks' bitmaps nor gives the result one: the builders append raw values and the list and struct arrays are built without a bitmap. So the model's arrays carry no bitmap, and the round trip is stated for arrays without nulls, which is what the round-trip test covers (its nullable section is commented out).
- ArrayBind.VisitList: offsets are unbounded integers. The source keeps the running sum in an `int32_t`, and its overflow past 2^31 - 1 is not modelled.
- Memory: `Reserve`, `AllocateBuffer` and `Finish` failures and the memory pool are not modelled.
- The splitting routine (`split_array`) is not part of this model. `Split.Split` defines it as consecutive `arrow::Array::Slice` views of k slots, the last one possibly shorter, which is what the test's chunk count expects.
- `cast_array`, `make_view`, `view_array`, `make_array`, `as_view`, `view<T>`, `is_ctype` and `is_convertible` are not part of this model. `Columns.As` returns the column's data instead of a converted container. `PrimitiveView.FromArray` assumes the cast succeeded.
- Element values are an abstract type `V` compared with Dafny equality. Floating-point semantics (NaN, signed zero) are not modelled.
- Dictionary, union, interval and map arrays are modelled by type and length only. Bind has no visitor case for them, and the model fails with `NotImplemented`.
- Duplicate field names: `Columns.FieldIndex` returns the first column of a name, while Arrow's `GetFieldIndex` answers -1 for a duplicated name. Well-formed tables (`TableWF`) have distinct names.
- Columns.Slice: requires a proxy with data and `end < 2^63`. The source dereferences `data_` without a null check (column.hpp:102), so slicing an empty proxy, such as the one an empty range returns, is a null dereference and undefined behaviour. Larger `size_t` arguments, whose `int64_t` casts would be negative, are not modelled either.
- Columns.Mask: takes the column's data directly, so it is defined only for a proxy with data. The source's `mask()` also dereferences `data_` without a null check (column.hpp:155), and calling it on an empty proxy is undefined behaviour. The same holds for Columns.MaskAsWritten.
- Columns.EqAsWritten: reproduces the missing `Bool` case of the switch only. For every other dtype it compares the columns' logical `Contents`, not the converted views that `as_view<T>()` and `as<...>()` build. So it does not reproduce how those conversions treat nulls, nor the offset-less `mask()` that `view<T>()` attaches to a sliced nullable column.
- PrimitiveView.Set and DictionaryView.Set: the callback is modelled as an update of the one output record its iterator points at. The source passes the output iterator itself to the callback, which could write anywhere; the promise that outputs outside `[first, first + size)` are unchanged holds only for a callback that writes through its iterator alone, as the documented purpose of `set` (setting the fields of the sequence `first` points at) intends.
- Arrays.WellFormed: requires a list array to have at least one offset. Arrow also admits a zero-length list array with an empty offsets buffer. For such a chunk the list visit of `bind_array` would read `p[0]` and `p[n]` from the empty buffer (bind.hpp:144-145), so the model excludes that case.
- DictionaryView.DictView.At: requires that the array has no bitmap or that `pos < size`. Otherwise `IsValid` reads past the bitmap, which is undefined behaviour.
- `ArrayView::cbegin`/`cend` of the primitive view have no `return` statement, so calling them is undefined behaviour. They are not modelled. `max_size` depends on `sizeof(T)` and is not modelled either.
- The `TypeTraits` builder factories and the primitive `TypeTraits` specialisations are not modelled. Of the traits, only the data types of the time traits (`TimeTraits.ArrowTag`) are.
- `ColumnProxy::emplace`, `operator=(const char *)` and `operator=` of a non-scalar container go through `make_array`, which is not part of this model. `AssignArray` models what they all end in.
- `to_string` of a value that is no enumerator falls off the end of the function, which is undefined behaviour. `DataTypes.ToString` gives `None` there.
- `is_scalar` is a compile-time test and is not modelled.
- The list builder's nested and primitive value builders are modelled as values inside the list builder's state, not as separately allocated objects. Aliasing between builders is not modelled.

## Notes

- `operator==` in `column.hpp` names `DataType::Float32` and `DataType::Float64`, which `data_type.hpp` does not define; its enumerators are `Float` and `Double`. `Columns.Eq` compares Float and Double columns by contents, as those cases evidently intend.
- `ArrayMaker<List<T>>::append` is not all-or-nothing. `dynamic_cast` checks only the class of the immediate value builder, so a mismatch deeper in a nested list raises after a slot has been opened. The model follows the code (`ListMaker.NestedMismatchKeepsSlot`).

## Findings

| source | as written | input that shows it | evidently intended | confidence | as-written member | corrected member |
|---|---|---|---|---|---|---|
| include/dataframe/column.hpp:162 | `mask()` reads bit `i` of `null_bitmap_data()`, the whole shared buffer, without adding the array's offset | a two-slot array whose slot 1 is null (bitmap byte `0x01`), sliced to slot 1: its only slot is null, but the mask is `[true]` | bit `offset + i`, the validity of slot `i` | not executed | Columns.MaskAsWrittenIgnoresOffset | Columns.Mask |
| include/dataframe/column.hpp:229-269 | the switch in `operator==` has no `Bool` case, so two Bool columns that pass the name, size and dtype checks fall through to `return true` | two one-slot Bool columns named "flag" holding different values compare equal | Bool columns compared by contents like every other known dtype | not executed | Columns.BoolColumnsCompareEqual | Columns.EqSpec |
