/** Optional values and the outcomes of normalising one feed. */
module Results {

  /** Python's `None` or a present value. */
  datatype Option<+T> = None | Some(value: T)

  /**
   * Why a feed could not be normalised. The original function returns `None`
   * in every one of these cases; the model keeps the reason apart.
   */
  datatype Failure =
    | EmptyInput      // the feed content is empty (falsy)
    | Malformed       // the XML parser rejected the document
    | MissingChannel  // an RSS root without a direct `channel` child
    | UnknownDialect  // the root is neither Atom nor RSS
    | UnboundPrefix   // an `atom:` lookup with no `atom` entry in the prefix map

  datatype Result<+T> = Ok(value: T) | Err(error: Failure)
}
