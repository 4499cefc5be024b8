/** Values shared by several services: metadata dictionaries, embedding
    vectors and raw bytes. */
module Records {
  /** A metadata value as the services store it: text or a whole number. */
  datatype Value = Str(s: string) | Int(i: int)

  /** A metadata dictionary (`Dict[str, Any]`). */
  type Metadata = map<string, Value>

  /** An embedding vector; its contents are produced and consumed by services
      outside the model. */
  type Vector = seq<real>

  newtype byte = x: int | 0 <= x < 256
}
