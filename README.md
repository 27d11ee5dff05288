# CoreErrorLocation in Dafny

A model of `CoreErrorLocation` from the Vulkan validation layers, with proofs about it.
This value type records where a validation failure was found:

- the Vulkan entry point being checked (`ErrFunc`);
- the reference page whose valid-usage rules apply (`RefPage`);
- the chain of structure fields and array indices walked to reach the offending member.

Validation code starts from a root location and descends with `dot(field, index)`.
`Message()` renders the location as text such as `vkCmdPipelineBarrier(): pImageMemoryBarriers[42].srcAccessMask`.
The thin `CoreErrorLocationVuidAdapter` pairs a location with a caller-supplied resolver.
Error reporting uses it to obtain the entry point's name and the VUID (valid-usage identifier).

Files:

- `error_names.dfy` (module `ErrorNames`): the three closed enumerations and their display-name tables.
- `error_location.dfy` (module `ErrorLocation`): `kNoIndex`, `Path`, the location, its constructor, `dot`, `Message` and the `String*` accessors. It also holds the lemmas about chains of `dot` calls and about the rendered text.
- `decimal.dfy` (module `Decimal`): how a stream prints a `uint32_t`, i.e. the canonical decimal numeral, and that the numeral determines the number.
- `text.dfy` (module `Text`): joining strings with a separator, and splitting them again.
- `message_parse.dfy` (module `MessageParse`): a reader for messages, the inverse of `Message`. With it, the proofs show that a message determines everything it prints about its location.
- `vuid_adapter.dfy` (module `VuidAdapter`): the adapter.

The C++ `uint32_t` index is the newtype `u32`, so no index outside its range can be formed.
`kNoIndex` is its largest value, and `Message` never prints it.

## Model

| member | source | states |
|---|---|---|
| ErrorNames.ErrFuncString | layers/core_error_location.h:187 | the display name of an entry point is empty exactly for the `Empty` sentinel, and never contains `.`, `[` or `(` |
| ErrorNames.ErrFuncStringInjective | layers/core_error_location.h:187 | distinct entry points have distinct display names |
| ErrorNames.RefPageString | layers/core_error_location.h:188 | the display name of a reference page is empty exactly for `Empty` |
| ErrorNames.FieldString | layers/core_error_location.h:189 | the display name of a field is empty exactly for `Empty`, and never contains `.`, `[` or `(` |
| ErrorNames.FieldStringInjective | layers/core_error_location.h:189 | distinct fields have distinct display names |
| ErrorLocation.MakeLocation | layers/core_error_location.h:153-154 | the constructor stores the entry point, reference page, field and index it is given, with `Empty` and `kNoIndex` as defaults; a new location has no ancestors |
| ErrorLocation.CoreErrorLocation.Dot | layers/core_error_location.h:175-185 | `dot` keeps the entry point and reference page; the new current level is the arguments, with `kNoIndex` as the default index; the old current level is appended to the ancestors exactly when its field is not `Empty`, and otherwise the ancestors are unchanged |
| ErrorLocation.CoreErrorLocation.StringFuncName | layers/core_error_location.h:191 | the entry point's display name, empty exactly when no entry point is set |
| ErrorLocation.CoreErrorLocation.StringRefPage | layers/core_error_location.h:192 | the reference page's display name, empty exactly when none is set |
| ErrorLocation.CoreErrorLocation.StringField | layers/core_error_location.h:193 | the current field's display name, empty exactly when the current field is `Empty` |
| ErrorLocation.IndexSuffix | layers/core_error_location.h:166-168 | a level prints a bracketed index exactly when its index is not `kNoIndex` |
| ErrorLocation.IndexSuffixDigits | layers/core_error_location.h:160-162 | a present index prints as `[`, the canonical decimal numeral of that index, and `]` |
| Decimal.DecimalString | layers/core_error_location.h:161 | the numeral a stream writes for an index is canonical (no leading zero) and denotes that index |
| Decimal.DecimalStringOfValue | layers/core_error_location.h:161 | every canonical numeral is the one written for the number it denotes, so numerals and indices correspond one to one |
| ErrorLocation.SegmentText | layers/core_error_location.h:160-169 | a level prints nothing exactly when it is the default `Path` (field `Empty`, index `kNoIndex`) |
| ErrorLocation.CoreErrorLocation.Message | layers/core_error_location.h:156-171 | the message starts with the entry point's name and `(): `, and ends with the current level's field name and optional index; `MessageAsJoin`, `MessageEndsWithDot` and `MessageParse.ParseMessageRoundTrip` state the rest |
| ErrorLocation.MessageAsJoin | layers/core_error_location.h:156-171 | the message is the entry point's name, `(): `, then every ancestor and the current level joined by `.` |
| ErrorLocation.MessageEndsWithDot | layers/core_error_location.h:156-171 | the message ends with `.` exactly when there are ancestors and the current level is empty |
| ErrorLocation.DotChainNoTrailingDot | layers/core_error_location.h:156-185 | after any chain of `dot` calls whose last field is set, the message does not end with `.` |
| ErrorLocation.DotEmptyTrailingDot | layers/core_error_location.h:156-185 | from any location whose current field is set, `dot(Field::Empty)` leaves a message ending with `.` |
| ErrorLocation.DotMessageExtends | layers/core_error_location.h:156-185 | after `dot` from a level with a field, the message is the old message, `.`, and the new level |
| ErrorLocation.RootDotMessage | layers/core_error_location.h:153-185 | `dot` from a root adds no ancestor, so the message has no `.` before the first level |
| ErrorLocation.DotChain | layers/core_error_location.h:173-185 | a chain of `dot` calls keeps the entry point and reference page and ends at its last argument |
| ErrorLocation.DotChainPath | layers/core_error_location.h:175-185 | after a chain of `dot` calls, the ancestors are the old ancestors followed by the old current level and every argument but the last, in call order, minus those whose field is `Empty` |
| ErrorLocation.RootDotChainPath | layers/core_error_location.h:173-185 | from a root, n `dot` calls whose first n-1 fields are set leave exactly the first n-1 arguments as ancestors |
| ErrorLocation.RootDotChainMessage | layers/core_error_location.h:156-185 | the message of such a chain is the entry point's name, `(): `, and every argument joined by `.` |
| ErrorLocation.PipelineBarrierExample | layers/core_error_location.h:31-38 | the documented usage prints `vkCmdPipelineBarrier(): pImageMemoryBarriers[42].srcAccessMask`, for every reference page |
| MessageParse.SegmentNoDot | layers/core_error_location.h:158-168 | no printed level contains the `.` that separates levels |
| MessageParse.ParseSegmentText | layers/core_error_location.h:158-168 | a printed level reads back as its field's name and its index |
| MessageParse.ParseMessageRoundTrip | layers/core_error_location.h:156-171 | every message reads back as its entry point's name and, for each level, the field's name and index |
| MessageParse.MessageDeterminesLevels | layers/core_error_location.h:156-171 | two locations with the same message agree on entry point, number of ancestors, every index, and every field's display name |
| MessageParse.MessageDeterminesLocation | layers/core_error_location.h:156-171 | two locations with the same message have the same entry point, the same ancestors and the same current field and index: a message determines everything but the unprinted reference page |
| VuidAdapter.CoreErrorLocationVuidAdapter.FuncName | layers/core_error_location.h:200-204 | the adapter reports its location's entry-point name, which is empty exactly when unset and which is how the message begins |
| VuidAdapter.CoreErrorLocationVuidAdapter.Vuid | layers/core_error_location.h:205-209 | the adapter reports exactly what its resolver returns for its location |
| VuidAdapter.StubResolverVuid | layers/core_error_location.h:205-211 | with a resolver that always returns one literal, `Vuid` returns that literal unchanged |
| VuidAdapter.FuncNameInMessage | layers/core_error_location.h:200-204 | the name `FuncName` reports is the one read back from the location's message |
| VuidAdapter.FuncNameAlongDots | layers/core_error_location.h:196-211 | an adapter for a location reached by `dot` calls reports the same entry point as one for the starting location |

## Left out

- `layers/buffer_state.h` is not part of this model. It is an unrelated state-tracking header (`BUFFER_STATE`, `BUFFER_VIEW_STATE`) that does not use `CoreErrorLocation`.
- The display-name tables of the three `String` overloads are defined in a source file that is not part of this model. The tables here map each enumerator to its own name and the `Empty` sentinel to the empty string.
- The inline capacity of `small_vector<Path, 3>` and the `reserve` call in `dot` only affect allocation. The ancestors are a `seq<Path>`.
- The `std::stringstream` in `Message` is modelled as string concatenation. Its integer output is the canonical decimal numeral (`Decimal`).
- The `c_str()` pointers returned by the adapter, and their lifetimes, have no counterpart here. `FuncName` and `Vuid` return string values.
- The adapter's variadic constructor forwards its arguments to the functor's constructor. The functor is modelled as an already-built function value `CoreErrorLocation -> string`, passed to the datatype constructor.
- VuidAdapter.CoreErrorLocationVuidAdapter.Vuid: the resolver is a parameter. Real resolvers look up VUIDs from the entry point, reference page and field, and they are not part of this model.

