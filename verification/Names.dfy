// Strings as the store compares them: opaque text, of which only equality and
// emptiness matter.

module Names {
  type Text(==, !new)

  datatype Str = Empty | Str(text: Text)
}
