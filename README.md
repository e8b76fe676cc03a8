# OkJson in Dafny

OkJson is a small JSON-to-object codec for Java. It does two things:

- `stringToObject` fills a new instance of a class from a JSON text;
- `objectToString` writes the declared fields of an object back out as compact or pretty JSON.

It reads a loose subset of JSON:

- strings have no escapes;
- numbers are a `-` followed by digits and dots, with no exponent;
- `{}` and `[]` are not accepted.

An `OkJson` instance holds three things:

- three switches: `strictPolicyEnable`, `directAccessPropertyEnable` and `formatCompactEnable`;
- a cursor that its tokenizer advances: `jsonOffset`, `jsonLength`, `tokenType`, `beginOffset`, `endOffset` and `booleanValue`;
- the last status, `errorCode`.

The status codes are:

| value | name |
|---|---|
| 1 | END_OF_BUFFER |
| -4 | UNEXPECT |
| -8 | EXCEPTION |
| -11 | INVALID_BYTE |
| -21 | FIND_FIRST_LEFT_BRACE |
| -22 | NAME_INVALID |
| -23 | EXPECT_COLON_AFTER_NAME |
| -24 | UNEXPECT_TOKEN_AFTER_LEFT_BRACE |
| -26 | PROPERTY_TYPE_NOT_MATCH |
| -28 | NAME_NOT_FOUND_IN_OBJECT |

The model has two layers.

**Specification functions.** They describe what each step of OkJson leaves behind:

- `Tokens` (tokens.dfy): the tokenizer, as `NextToken`.
- `Model` (model.dfy) holds the data:
  - a descriptor table stands in for Java reflection; per class it gives each field's name, declared kind, and whether a setter or getter exists;
  - objects are values, mapping field names to values;
  - the two binding tables of `setObjectProperty` and `addListObject` are the pure functions `PropertyAction` and `ListAction`.
- `Decode` (decode.dfy): the object loop, the list loop and `prepareStringToObject`. Each is a function split at its token reads.
- `Encode` (encode.dfy): the serializer, as functions from an object to the text appended and the status.

**The class.** `OkJsonCodec.OkJson` (okjson.dfy) is a class with the Java fields:

- its methods run the same loops and updates as the Java methods;
- each method is proved to leave exactly the state that its specification function describes.

Lemmas then state what OkJson promises in terms of those functions. The main ones:

- the token a document starts with;
- the rejection of `{}`, `[]` and `[null]`;
- which value reaches which field;
- the output layout;
- the fact that nothing after the closing brace is ever read.

The source is `src/main/java/xyz/calvinwilliams/okjson/OkJson.java`. Several of its behaviours look unintended, and the model keeps them as written:

- a number consumes the character after it;
- running out of input inside an object or a list ends the loop with status 0;
- a bad token after a value is reported as -23;
- a nested value is stored directly into its field even when the field has a setter;
- a keyword prefix that breaks off, such as `tr?`, is skipped.

A caller might expect a truncated document such as `{"a":` to fail with END_OF_BUFFER. The code does not: it returns 0 with the object filled so far, and the model follows the code (`Decode.TruncatedValueSucceeds`).

Encoding and decoding again does not give the object back (`RoundTrip`):

- objectToString writes every scalar value between quotes, so an Integer field comes back as a STRING token, which the field ignores. `{"n":"1"}` decodes with `n` unset (`RoundTrip.IntegerFieldLost`);
- no `,` is written after a nested object, so a member that follows one stops the decode with EXPECT_COLON_AFTER_NAME (`RoundTrip.MemberAfterNestedRejected`).

A null value for a field with a setter fails with EXCEPTION (see "## Findings").

## Model

| member | source | states |
|---|---|---|
| Tokens.NextToken | src/main/java/xyz/calvinwilliams/okjson/OkJson.java:94-236 | One call to tokenJsonWord. The cursor never moves back. The status is 0, END_OF_BUFFER, INVALID_BYTE, or -8 for a keyword read past the end of the buffer. A token read successfully lies inside the consumed part of the buffer. END_OF_BUFFER leaves the cursor at the end. INVALID_BYTE leaves it on the offending character, one that is neither whitespace nor a character a token can start with. A `}` or `]` leaves the cursor right after it. |
| Tokens.CloseQuote | src/main/java/xyz/calvinwilliams/okjson/OkJson.java:134-143 | The closing-quote search returns the first `"` at or after the start, or the end of the buffer when there is none. |
| Tokens.MatchFrom | src/main/java/xyz/calvinwilliams/okjson/OkJson.java:164-227 | The keyword comparison stops at the first character that differs from the keyword: every character before it matches, and it lies inside the keyword and inside the buffer. |
| Tokens.NumberRun | src/main/java/xyz/calvinwilliams/okjson/OkJson.java:70-91 | The digit-and-dot loop of tokenJsonNumber ends either with END_OF_BUFFER, leaving the cursor at the end, or with status 0. On 0, the token is INTEGER or DECIMAL, the cursor is two past endOffset because the terminator is consumed, and beginOffset is unchanged. |
| Tokens.SkipBlank | src/main/java/xyz/calvinwilliams/okjson/OkJson.java:98-102 | Space, tab, CR and LF before a token change nothing but where the scan starts. |
| Tokens.OnlyBlankLeft | src/main/java/xyz/calvinwilliams/okjson/OkJson.java:98-102 | A remainder of whitespace only yields END_OF_BUFFER with the cursor at the end. |
| Tokens.StructuralToken | src/main/java/xyz/calvinwilliams/okjson/OkJson.java:103-161 | Each of `{ } [ ] : ,` yields its own token kind with beginOffset == endOffset == its position, and the cursor moves one past it. |
| Tokens.KeywordToken | src/main/java/xyz/calvinwilliams/okjson/OkJson.java:164-227 | `true` and `false` yield BOOL with booleanValue true and false respectively. `null` yields NULL and sets booleanValue to true. The span covers the word, and the cursor ends right after it. |
| Tokens.KeywordMismatch | src/main/java/xyz/calvinwilliams/okjson/OkJson.java:164-227 | A keyword spelling that breaks off is passed over. Scanning resumes at the first mismatching character, with beginOffset left at the keyword's start. |
| Tokens.InvalidByteToken | src/main/java/xyz/calvinwilliams/okjson/OkJson.java:228-232 | Any other non-whitespace character is INVALID_BYTE, and the cursor stays on it. |
| Tokens.StringToken | src/main/java/xyz/calvinwilliams/okjson/OkJson.java:131-141 | A string token's span excludes both quotes: beginOffset is one past the opening quote and endOffset one before the closing one. The cursor moves past the closing quote, and the token text is exactly the characters between the quotes. |
| Tokens.UnterminatedString | src/main/java/xyz/calvinwilliams/okjson/OkJson.java:131-148 | A string with no closing quote yields END_OF_BUFFER. |
| Tokens.NumberToken | src/main/java/xyz/calvinwilliams/okjson/OkJson.java:59-92 | A number is an optional `-` and then a run of digits and dots. Its kind is DECIMAL exactly when the run holds a `.`. endOffset is the last digit or dot, and the cursor ends two past it. |
| Tokens.NumberAtEnd | src/main/java/xyz/calvinwilliams/okjson/OkJson.java:71-91 | A number that runs into the end of the buffer yields END_OF_BUFFER. |
| Tokens.ScanIgnoresRest | src/main/java/xyz/calvinwilliams/okjson/OkJson.java:94-236 | A successful scan reads nothing at or beyond the offset where it stops: any buffer that agrees before that offset scans to the same token. |
| Model.Lookup | src/main/java/xyz/calvinwilliams/okjson/OkJson.java:826 | Looking a name up among the declared fields yields a declared field of that name, or nothing exactly when no declared field has that name. |
| Model.Assign | src/main/java/xyz/calvinwilliams/okjson/OkJson.java:909 | Writing a field sets that field to the value, leaves every other field as it was, and keeps the object's class. |
| Model.ParseInteger | src/main/java/xyz/calvinwilliams/okjson/OkJson.java:447-562 | Byte/Short/Integer/Long.valueOf succeed only on a sign followed by at least one digit, with the value inside the type's range; the result's sign follows the text. |
| Model.Narrow | src/main/java/xyz/calvinwilliams/okjson/OkJson.java:650-673 | byteValue and shortValue give a value in the narrow range that is congruent to the input modulo 2^8 or 2^16. It equals the input whenever the input already fits. |
| Model.PropertyAction | src/main/java/xyz/calvinwilliams/okjson/OkJson.java:416-750 | The binding table of setObjectProperty: <ul><li>only a field with a setter, or with direct access on, is written;</li><li>a String or boxed field whose token kind differs is left alone, even under strict;</li><li>PROPERTY_TYPE_NOT_MATCH arises exactly under strict, for a non-boxed kind, a non-NULL token and a kind mismatch;</li><li>the only other failure is -8;</li><li>a writable, matching field is written or fails conversion;</li><li>NULL through a setter is always -8; with no setter and direct access on, NULL is stored, or is -8 for a primitive; with neither it is ignored.</li></ul> |
| Model.PropertyActionWrites | src/main/java/xyz/calvinwilliams/okjson/OkJson.java:418-731 | The value written, kind by kind: <ul><li>a String gets the token text;</li><li>Integer, Long, int and long get the parse of the text in their own range;</li><li>byte and short get the Integer.valueOf parse narrowed to 8 or 16 bits;</li><li>a decimal gets its text when the float syntax accepts it;</li><li>Boolean gets Boolean.valueOf of the text, and boolean gets the lexer's flag.</li></ul>A number that does not parse is -8, and a field with neither setter nor direct access is skipped. |
| Model.IntendedPropertyAction | src/main/java/xyz/calvinwilliams/okjson/OkJson.java:433-446 | The NULL branches as evidently intended: NULL is stored in any writable non-primitive field, setter or not, and is -8 for a primitive. Every non-NULL token is bound exactly as `PropertyAction` binds it. |
| Model.ListAction | src/main/java/xyz/calvinwilliams/okjson/OkJson.java:238-334 | The table of addListObject: <ul><li>a non-list field is -26 under strict and nothing otherwise;</li><li>only a scalar token of the element type is appended;</li><li>NULL appends nothing;</li><li>a list of objects is -26 under strict for any non-NULL kind;</li><li>the only failures are -26 and -8;</li><li>the element appended is the token text for String, the parse of the text in the element's range for Byte to Long (-8 when it does not parse), the text for Float and Double when it parses (-8 otherwise), and the lexer's flag for Boolean.</li></ul> |
| Model.ParseRendered | src/main/java/xyz/calvinwilliams/okjson/OkJson.java:505-533 | Reading back the decimal text of an integer of a given width gives the integer. |
| Model.NatDigitsValue | src/main/java/xyz/calvinwilliams/okjson/OkJson.java:1142 | The digits written for a natural number denote that number. |
| Decode.ObjectLoop | src/main/java/xyz/calvinwilliams/okjson/OkJson.java:810-841 | The object loop never moves the cursor back, keeps the target's class, and returns a target exactly when it was given one. On status 0 it stops at the end of the buffer or right after a `}` or `]`. |
| Decode.AfterName | src/main/java/xyz/calvinwilliams/okjson/OkJson.java:843-873 | Same guarantee from the token after a name. A `,` or `}` after a name goes through addListObject for a list field, and is -8 where Java dereferences a missing field or appends to the enclosing object. |
| Decode.ValueStep | src/main/java/xyz/calvinwilliams/okjson/OkJson.java:875-882 | Same guarantee from the read of a value. |
| Decode.ValueToken | src/main/java/xyz/calvinwilliams/okjson/OkJson.java:884-914 | Same guarantee for a `{` or `[` value: it is decoded into a new instance and then stored straight into the field (line 909). |
| Decode.ScalarBinding | src/main/java/xyz/calvinwilliams/okjson/OkJson.java:915-921 | The binding of a scalar value through setObjectProperty, only when the name is a declared field. It keeps the target's presence and class, and a nonzero status leaves the target as it was. |
| Decode.ScalarValue | src/main/java/xyz/calvinwilliams/okjson/OkJson.java:915-921 | Same guarantee as `ObjectLoop` for a scalar value: a nonzero binding status stops the object there, and otherwise the token after the value is read with the bound target. |
| Decode.AfterValue | src/main/java/xyz/calvinwilliams/okjson/OkJson.java:923-947 | Same guarantee for the token after a value: `,` loops, and `}` or `]` ends with 0. |
| Decode.ListLoop | src/main/java/xyz/calvinwilliams/okjson/OkJson.java:344-384 | The list loop never moves back and only appends: the elements read before are a prefix of the result. On status 0 it stops at the end of the buffer or right after `]`. |
| Decode.Separator | src/main/java/xyz/calvinwilliams/okjson/OkJson.java:386-410 | Same guarantee for the token after an element, where the element is handed to addListObject. |
| Decode.Prepare | src/main/java/xyz/calvinwilliams/okjson/OkJson.java:977-994 | prepareStringToObject yields an object exactly when the status is 0, and that object is of the class given. |
| Decode.PrepareIgnoresRest | src/main/java/xyz/calvinwilliams/okjson/OkJson.java:980-994 | Once decoding has succeeded at a closing token, input after it is never examined: every buffer that agrees up to that token decodes to the same status, cursor and object. |
| Decode.BlankInputIsEndOfBuffer | src/main/java/xyz/calvinwilliams/okjson/OkJson.java:980-983 | An empty or all-whitespace document leaves END_OF_BUFFER and yields no object. This is a tokenizer status returned unchanged. |
| Decode.FirstTokenMustBeLeftBrace | src/main/java/xyz/calvinwilliams/okjson/OkJson.java:985-988 | A document whose first token is `}`, `[`, `]`, `:` or `,` fails with FIND_FIRST_LEFT_BRACE and yields no object. |
| Decode.TruncatedObjectSucceeds | src/main/java/xyz/calvinwilliams/okjson/OkJson.java:812-815 | A `{` followed only by whitespace decodes with status 0 and returns the object unchanged. |
| Decode.TruncatedValueSucceeds | src/main/java/xyz/calvinwilliams/okjson/OkJson.java:875-879 | A pair cut off after its `:` ends the object with status 0, the cursor at the end of the buffer, and the target unchanged. END_OF_BUFFER on the value read is a break, not a failure. |
| Decode.EmptyObjectRejected | src/main/java/xyz/calvinwilliams/okjson/OkJson.java:825-841 | `{}` fails with NAME_NOT_FOUND_IN_OBJECT under strict when no field is named `}`, and with NAME_INVALID otherwise. The lookup comes before the STRING check. |
| Decode.MissingColonAfterName | src/main/java/xyz/calvinwilliams/okjson/OkJson.java:867-873 | A `{` or `[` where the `:` after a name belongs fails with EXPECT_COLON_AFTER_NAME. |
| Decode.BadTokenAfterValue | src/main/java/xyz/calvinwilliams/okjson/OkJson.java:941-947 | A `:`, `{` or `[` after a value fails with EXPECT_COLON_AFTER_NAME, at that token. |
| Decode.UnknownName | src/main/java/xyz/calvinwilliams/okjson/OkJson.java:825-836 | An undeclared name is NAME_NOT_FOUND_IN_OBJECT under strict. Otherwise the pair is read with no field. |
| Decode.SkippedValueChangesNothing | src/main/java/xyz/calvinwilliams/okjson/OkJson.java:915-921 | A scalar value with no field leaves the target as it was. |
| Decode.StringValueStored | src/main/java/xyz/calvinwilliams/okjson/OkJson.java:418-446 | A string value for a String field is stored, with the text between the quotes, exactly when the field has a setter or direct access is on. Otherwise the target is unchanged. |
| Decode.NestedObjectStoredDirectly | src/main/java/xyz/calvinwilliams/okjson/OkJson.java:888-910 | A `{` value for an object field is decoded into a fresh instance that is stored into the field whatever the setter and direct-access settings. |
| Decode.ObjectElementAppended | src/main/java/xyz/calvinwilliams/okjson/OkJson.java:354-371 | A `{` element of a list of objects is decoded into a fresh instance and appended after the elements already read. A failure inside it is returned with the list unchanged. |
| Decode.StrictObjectListFails | src/main/java/xyz/calvinwilliams/okjson/OkJson.java:317-323 | Under strict, the separator after an object element fails with PROPERTY_TYPE_NOT_MATCH, because the kind handed on is that of its closing `}`. |
| Decode.EmptyListRejected | src/main/java/xyz/calvinwilliams/okjson/OkJson.java:372-380 | `]`, `:` or `,` where an element belongs is UNEXPECT_TOKEN_AFTER_LEFT_BRACE, so `[]` is rejected. |
| Decode.NullElementRejected | src/main/java/xyz/calvinwilliams/okjson/OkJson.java:372-380 | `null` as a list element is UNEXPECT_TOKEN_AFTER_LEFT_BRACE. |
| Decode.StringElementAppended | src/main/java/xyz/calvinwilliams/okjson/OkJson.java:246-250 | A string element of a List&lt;String&gt; is appended after the elements already read, once the `,` after it is seen. |
| Decode.TruncatedListSucceeds | src/main/java/xyz/calvinwilliams/okjson/OkJson.java:346-349 | A whitespace-only remainder ends a list with status 0 and the elements read so far. |
| Decode.NullThroughSetterFails | src/main/java/xyz/calvinwilliams/okjson/OkJson.java:433-446 | A `null` value for a field that has a setter fails with -8 and leaves the target as it was, whatever the field's type and the switches. |
| Decode.NameAfterNameRejected | src/main/java/xyz/calvinwilliams/okjson/OkJson.java:852-873 | A second name straight after a name, where the `:` belongs, is EXPECT_COLON_AFTER_NAME at that name. |
| Decode.OpensWithBrace | src/main/java/xyz/calvinwilliams/okjson/OkJson.java:980-994 | A document that starts with `{` is decoded by the object loop from just after it; a nonzero status from the loop yields no object. |
| Decode.DeclaredNameThenColon | src/main/java/xyz/calvinwilliams/okjson/OkJson.java:811-857 | A declared name followed by `:` goes on to read the value for that field, with the cursor after the `:`. |
| Decode.StringValueBound | src/main/java/xyz/calvinwilliams/okjson/OkJson.java:875-921 | A quoted value is bound by setObjectProperty with exactly the characters between its quotes. |
| Decode.ClosingBraceAfterValue | src/main/java/xyz/calvinwilliams/okjson/OkJson.java:923-940 | A `}` after a value ends the object with status 0, the cursor after it and the target unchanged. |
| Decode.NameAfterValueRejected | src/main/java/xyz/calvinwilliams/okjson/OkJson.java:923-947 | A name straight after a value, with no `,` between them, is EXPECT_COLON_AFTER_NAME. |
| Encode.Tabs | src/main/java/xyz/calvinwilliams/okjson/OkJson.java:1011-1018 | appendBuilderTabs writes depth-1 tabs, and none for a depth of 1 or less. |
| Encode.Member | src/main/java/xyz/calvinwilliams/okjson/OkJson.java:1033-1193 | The only status that one field can stop the walk with is UNEXPECT. |
| Encode.FieldsFrom | src/main/java/xyz/calvinwilliams/okjson/OkJson.java:1020-1196 | objectToPropertiesString returns 0 or UNEXPECT, and UNEXPECT only after assigning errorCode. |
| Encode.Serialize | src/main/java/xyz/calvinwilliams/okjson/OkJson.java:1198-1221 | On success the text starts with `{` and ends with `}` (compact), or starts with `{\n` and ends with `}\n` (pretty). A null result goes with UNEXPECT. errorCode is afterwards its old value, 0 or UNEXPECT. |
| Encode.SucceedsWithoutGetters | src/main/java/xyz/calvinwilliams/okjson/OkJson.java:1040-1049 | Serialization yields text whenever no declared scalar or object field has a getX(T) that Java would invoke without arguments. |
| Encode.GetterFieldFails | src/main/java/xyz/calvinwilliams/okjson/OkJson.java:1041-1082 | Conversely, one such field among the object's own declared fields makes the result null with UNEXPECT. |
| Encode.DirectAccessOffEmitsBraces | src/main/java/xyz/calvinwilliams/okjson/OkJson.java:1132-1188 | With direct access off and no such getter, the output is only the braces and errorCode is unchanged. |
| Encode.CompactTwoScalars | src/main/java/xyz/calvinwilliams/okjson/OkJson.java:1141-1145 | In compact layout two scalar fields print as `{"a":"va","b":"vb"}`: values always quoted, with one comma between them. |
| Encode.PrettyTwoScalars | src/main/java/xyz/calvinwilliams/okjson/OkJson.java:1146-1152 | In pretty layout each scalar is on its own line behind one tab, with ` : ` between name and value, and ` ,` ends the first. |
| Encode.TrailingListLeavesComma | src/main/java/xyz/calvinwilliams/okjson/OkJson.java:1158-1159 | A list field prints nothing but still counts as a following field, so the scalar before it keeps its comma and the output ends in `,}`. |
| Encode.NoCommaAfterNested | src/main/java/xyz/calvinwilliams/okjson/OkJson.java:1161-1179 | A nested object prints as `"name":{...}`, and no separator follows it. The nested walk leaves 0 in errorCode. |
| Encode.CompactLayout | src/main/java/xyz/calvinwilliams/okjson/OkJson.java:1020-1196 | With direct access and only scalar and list fields without getters, the compact walk from any field on writes `"name":"value"` for each scalar, followed by `,` exactly when another declared field follows, nothing for a list field, and succeeds without touching errorCode. |
| Encode.PrettyLayout | src/main/java/xyz/calvinwilliams/okjson/OkJson.java:1020-1196 | The same in the pretty layout: each scalar on its own line behind depth+1 tabs as `"name" : "value"`, with ` ,` before the line end exactly when another declared field follows. |
| Encode.FlatSerialize | src/main/java/xyz/calvinwilliams/okjson/OkJson.java:1198-1221 | objectToString of such an object is the layout's braces around the text of all its fields, with errorCode unchanged. |
| RoundTrip.QuotedIntegerNotRead | src/main/java/xyz/calvinwilliams/okjson/OkJson.java:505-562 | The decimal text written for an int, long, Integer or Long value is read back as that value from an INTEGER token, but from the STRING token the quotes make it is skipped, or is PROPERTY_TYPE_NOT_MATCH for a primitive under strict. |
| RoundTrip.IntegerFieldLost | src/main/java/xyz/calvinwilliams/okjson/OkJson.java:1141-1145 | An Integer field holding 1 encodes as `{"n":"1"}`, and that decodes with status 0 into an object whose field `n` is unset. |
| RoundTrip.MemberAfterNestedRejected | src/main/java/xyz/calvinwilliams/okjson/OkJson.java:1161-1179 | An object whose nested member is followed by a string member encodes as `{"c":{"x":"a"}"s":"v"}`, and that decodes to EXPECT_COLON_AFTER_NAME with no object. |
| OkJsonCodec.StringBuilder.Append | src/main/java/xyz/calvinwilliams/okjson/OkJson.java:1014 | Appending extends the builder's text by exactly the argument. |
| OkJsonCodec.OkJson.constructor | src/main/java/xyz/calvinwilliams/okjson/OkJson.java:1243-1246 | A new instance is lenient, has direct access off, uses the pretty layout, and has errorCode 0. |
| OkJsonCodec.OkJson.SetDirectAccessPropertyEnable | src/main/java/xyz/calvinwilliams/okjson/OkJson.java:1223-1225 | Changes only the direct-access switch. |
| OkJsonCodec.OkJson.SetStrictPolicy | src/main/java/xyz/calvinwilliams/okjson/OkJson.java:1227-1229 | Changes only the strict switch. |
| OkJsonCodec.OkJson.SetFormatCompactEnable | src/main/java/xyz/calvinwilliams/okjson/OkJson.java:1231-1233 | Changes only the layout switch. |
| OkJsonCodec.OkJson.GetErrorCode | src/main/java/xyz/calvinwilliams/okjson/OkJson.java:1235-1237 | Returns the status of the last operation. |
| OkJsonCodec.OkJson.TokenJsonNumber | src/main/java/xyz/calvinwilliams/okjson/OkJson.java:59-92 | The scan loop leaves exactly the status and cursor that `ScanNumber` gives for the cursor before it. |
| OkJsonCodec.OkJson.TokenJsonString | src/main/java/xyz/calvinwilliams/okjson/OkJson.java:131-148 | The quote loop leaves the status and cursor of `NextToken`. |
| OkJsonCodec.OkJson.TokenJsonTrue | src/main/java/xyz/calvinwilliams/okjson/OkJson.java:164-183 | A full match gives BOOL true. A read past the end gives -8 with the cursor at the end. A mismatch leaves the cursor on the mismatching character, with beginOffset at the keyword, and scanning goes on. |
| OkJsonCodec.OkJson.TokenJsonFalse | src/main/java/xyz/calvinwilliams/okjson/OkJson.java:184-207 | The same for `false`, which gives BOOL false. |
| OkJsonCodec.OkJson.TokenJsonNull | src/main/java/xyz/calvinwilliams/okjson/OkJson.java:208-227 | The same for `null`, which gives NULL and sets booleanValue to true. |
| OkJsonCodec.OkJson.TokenJsonKeyword | src/main/java/xyz/calvinwilliams/okjson/OkJson.java:164-227 | A finished keyword branch leaves the state of `NextToken`. One that goes on has moved forward and leaves a cursor from which `NextToken` yields the same token. |
| OkJsonCodec.OkJson.TokenJsonWord | src/main/java/xyz/calvinwilliams/okjson/OkJson.java:94-236 | The whitespace loop and the dispatch leave exactly the status and cursor of `NextToken`. |
| OkJsonCodec.OkJson.SetObjectProperty | src/main/java/xyz/calvinwilliams/okjson/OkJson.java:416-750 | Applies `PropertyAction` to the token text, booleanValue, whether the field has a setter, and the direct-access and strict switches. A failure or skip leaves the object as it was; a write changes exactly that field. |
| OkJsonCodec.OkJson.AddListObject | src/main/java/xyz/calvinwilliams/okjson/OkJson.java:238-334 | Applies `ListAction`: the list is unchanged or grows by exactly the one element at its end. |
| OkJsonCodec.OkJson.TokenElement | src/main/java/xyz/calvinwilliams/okjson/OkJson.java:345-384 | The read of an element leaves the state of `ListLoop`, or moves forward to where `Separator` continues it. |
| OkJsonCodec.OkJson.TokenAfterElement | src/main/java/xyz/calvinwilliams/okjson/OkJson.java:386-410 | The read after an element leaves the state of `Separator`, or moves forward to where `ListLoop` continues it. |
| OkJsonCodec.OkJson.StringToListObject | src/main/java/xyz/calvinwilliams/okjson/OkJson.java:336-414 | The `while(true)` loop leaves exactly the status, cursor and list of `ListLoop`. |
| OkJsonCodec.OkJson.TokenName | src/main/java/xyz/calvinwilliams/okjson/OkJson.java:811-841 | The read and lookup of a name leave the state of `ObjectLoop`, or move forward to where `AfterName` continues with the name's text and field. |
| OkJsonCodec.OkJson.TokenAfterName | src/main/java/xyz/calvinwilliams/okjson/OkJson.java:843-873 | Leaves the state of `AfterName`, or moves forward to where `ValueStep` continues it. |
| OkJsonCodec.OkJson.TokenObjectValue | src/main/java/xyz/calvinwilliams/okjson/OkJson.java:888-914 | A `{` value leaves the state of `ValueToken`, or the cursor and target from which `AfterValue` continues it. |
| OkJsonCodec.OkJson.TokenListValue | src/main/java/xyz/calvinwilliams/okjson/OkJson.java:888-914 | The same for a `[` value. |
| OkJsonCodec.OkJson.TokenScalarValue | src/main/java/xyz/calvinwilliams/okjson/OkJson.java:915-921 | Leaves exactly the status and target of `ScalarBinding`, and stops exactly when the status is nonzero. |
| OkJsonCodec.OkJson.TokenValue | src/main/java/xyz/calvinwilliams/okjson/OkJson.java:875-921 | The read of a value leaves the state of `ValueStep`, or moves forward to where `AfterValue` continues it. |
| OkJsonCodec.OkJson.TokenAfterValue | src/main/java/xyz/calvinwilliams/okjson/OkJson.java:923-947 | Leaves the state of `AfterValue`, or moves forward to where `ObjectLoop` continues it. |
| OkJsonCodec.OkJson.StringToObjectProperties | src/main/java/xyz/calvinwilliams/okjson/OkJson.java:752-951 | The `while(true)` loop leaves exactly the status, cursor and target of `ObjectLoop`. |
| OkJsonCodec.OkJson.PrepareStringToObject | src/main/java/xyz/calvinwilliams/okjson/OkJson.java:953-995 | Sets jsonLength, restarts the cursor at 0, and leaves in errorCode, the cursor and the result exactly what `Prepare` gives. |
| OkJsonCodec.OkJson.StringToObject | src/main/java/xyz/calvinwilliams/okjson/OkJson.java:997-1009 | `Prepare` applied to a fresh instance of the class. |
| OkJsonCodec.OkJson.AppendBuilderTabs | src/main/java/xyz/calvinwilliams/okjson/OkJson.java:1011-1018 | The loop appends exactly `Tabs(depth)`. |
| OkJsonCodec.OkJson.AppendScalarMember | src/main/java/xyz/calvinwilliams/okjson/OkJson.java:1141-1152 | The appends of one scalar member, in either layout. |
| OkJsonCodec.OkJson.AppendNestedHeader | src/main/java/xyz/calvinwilliams/okjson/OkJson.java:1164-1168 | Appends `"name":{`, or the tabs, `"name" : ` and `{\n`. |
| OkJsonCodec.OkJson.AppendNestedFooter | src/main/java/xyz/calvinwilliams/okjson/OkJson.java:1174-1178 | Appends `}`, or the tabs and `}\n`. |
| OkJsonCodec.OkJson.AppendNestedMember | src/main/java/xyz/calvinwilliams/okjson/OkJson.java:1161-1184 | A nested member leaves the builder text, errorCode and stop decision that `Member` gives. |
| OkJsonCodec.OkJson.AppendProperty | src/main/java/xyz/calvinwilliams/okjson/OkJson.java:1033-1193 | One pass of the field loop leaves the builder text, errorCode and stop decision that `Member` gives. |
| OkJsonCodec.OkJson.ObjectToPropertiesString | src/main/java/xyz/calvinwilliams/okjson/OkJson.java:1020-1196 | The field loop leaves the builder text, status and errorCode that `FieldsFrom` gives over all declared fields. |
| OkJsonCodec.OkJson.ObjectToString | src/main/java/xyz/calvinwilliams/okjson/OkJson.java:1198-1221 | Returns the text and leaves the errorCode that `Serialize` gives. |

## Findings

| source | as written | input that shows it | evidently intended | confidence | as-written member | corrected member |
|---|---|---|---|---|---|---|
| src/main/java/xyz/calvinwilliams/okjson/OkJson.java:433-446 | A NULL value is handed to the setter as `method.invoke(object, null)`. The uncast `null` is taken as the argument array, so the one-parameter setter gets no argument, throws, and the decode fails with -8 (also at line 738). | `{"s":null}` for a String field `s` that has a setter | The setter receives null, so the field is set to null as it is with direct access | not executed | Decode.NullThroughSetterFails | Model.IntendedPropertyAction |

The decoder keeps the code as written: `PropertyAction` and everything built on it have NULL through a setter fail.

## Left out

- Java reflection (`getDeclaredFields`, `getDeclaredMethod`, `newInstance`, `Field.set`, `Method.invoke`) is replaced by the descriptor table and `EmptyInstance`. The model does not cover fields that are not declared in the table, or inherited or static fields.
- The thread-local caches of fields and setters, their lazy creation, and the NEW_OBJECT status (-31) that goes with it are not modelled. The table is given once. The `ThreadLocal` objects are never null, so that status cannot arise.
- Floating point: decimal values are kept as the text of their token. `Float.valueOf` and `Double.valueOf` are modelled only as accepting or rejecting that text (`DecimalSyntax`). The serializer prints a decimal as the text it was read from, not as Java would render the float.
- The primitive type `char` is not a kind of the model. Java sends it to the fallback branch.
- `errorDesc`, `getErrorDesc` and the `printStackTrace` calls are diagnostics only and are not modelled.
- A `{` value into a String or list field, and a `{` element of a list whose element type is String or boxed, give -8 here. Java would create an empty String or list and walk that object's own reflected fields.
- A keyword read past the end of the buffer (`tru` at the end) gives -8 here. Java throws ArrayIndexOutOfBoundsException. Inside a nested value or list element, its `catch` turns that into -8 as well. At the top level the exception leaves stringToObject instead of giving a status.
- Decode.AfterName: a `,` or `}` after a name that is not a declared field (`{"x"}` with no field `x`) gives -8 here. Java dereferences the missing field at line 855 and throws NullPointerException. Inside a nested value or list element its `catch` turns that into -8; at the top level the exception leaves stringToObject instead of giving a status.
- `stringToObject` returns null without touching errorCode when `newInstance` fails. The model always has an instance, so this path is not modelled.
- Objects are values. The model captures neither aliasing between objects nor a nested object being updated in place after it is stored. Java stores a nested object before any later field of the parent is read, so the order of updates is the same.
- errorCode is also written inside the decoder, by the list loop and the name branch, and only ever overwritten by prepareStringToObject before anyone reads it. The decoder methods here do not write it.
- Looking a name up uses a HashMap in Java. `Lookup` takes the first declared field with that name, which is the same whenever declared names are distinct, as Java guarantees.
- The class `OkJson` loops are split into one method per token read, each proved against the matching decoder function, instead of one long loop body. The six structural branches of tokenJsonWord share one step through `StructuralKind`.
