/** Small shared datatypes. */
module Common {
  datatype Option<+T> = None | Some(value: T)

  datatype Result<+T, +E> = Ok(value: T) | Err(error: E)
}

/** The chunk records that travel from the chunker through embedding into storage. */
module CodeChunks {
  import opened Common

  type Vector = seq<real>

  datatype Draft = Draft(
    filePath: string,
    chunkIndex: nat,
    content: string,
    symbol: Option<string>,
    selectors: seq<string>,
    routes: seq<string>
  )

  /** A draft together with its embedding: what saveChunks inserts. */
  datatype Chunk = Chunk(draft: Draft, embedding: Vector)
}
