/** Value types shared by the model: Java's nullable reference and the
    BreedNotFoundException that every fetcher raises on failure. */
module Wrappers {

  /** A possibly-null reference: `None` stands for Java's `null`. */
  datatype Option<+T> = None | Some(value: T)

  /** The outcome of a sub-breed lookup: either the list of sub-breeds or a
      BreedNotFoundException carrying its message. */
  datatype Result<+T> = Ok(value: T) | BreedNotFound(message: string)
}
