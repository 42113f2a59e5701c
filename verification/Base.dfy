/** Vocabulary shared by the other modules. */
module Base {

  datatype Option<+T> = None | Some(value: T)

  datatype Result<+T, +E> = Ok(value: T) | Err(error: E)

  /** A SHA-256 digest, kept as its preimage: two digests are equal exactly when
      the bytes they were taken of are equal. */
  datatype Digest = Sha256(preimage: string)
}
