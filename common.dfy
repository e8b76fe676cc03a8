/** Status codes and the Option wrapper shared by the OkJson modules. */
module Common {

  datatype Option<+T> = None | Some(value: T)

  // Status codes returned by the tokenizer, the decoder and the serializer (OkJson.java:40-50).
  // 0 means success; END_OF_BUFFER is positive, every error is negative.
  const EndOfBuffer: int := 1
  const Unexpect: int := -4
  const Exception: int := -8
  const InvalidByte: int := -11
  const FindFirstLeftBrace: int := -21
  const NameInvalid: int := -22
  const ExpectColonAfterName: int := -23
  const UnexpectTokenAfterLeftBrace: int := -24
  const PropertyTypeNotMatch: int := -26
  const NameNotFoundInObject: int := -28
}
