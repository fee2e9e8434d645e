/** The error conditions the dataset raises, and the Option/Result wrappers
    that carry them instead of Python exceptions. */
module Outcomes {

  datatype Option<+T> = None | Some(value: T)

  /** One constructor per exception the modelled code can raise. */
  datatype Error =
    | EmptySequence             // indexing [0] or [-1] or np.argmax on an empty list
    | IndexOutOfBounds          // np.unravel_index or a list index out of range
    | UnknownSourceId(id: string)  // list.index of an id no data source has
    | MoreThanOneIndexLeft      // the fraction split lost more than one index
    | MissingKey                // a dict lookup of an absent key (KeyError)
    | ShapeMismatch             // reshape or broadcast of incompatible shapes
    | EmptyFace                 // a face index into a cube with an empty axis
    | NegativePadding           // np.pad with a negative width
    | NotADataSourceKey         // a short-form key without 'datasource_' (assert)
    | NotAList                  // a dict where a list of data sources is asserted
    | UnexpectedField           // DataSource(**d) with a key it has no field for
    | NonStringId               // a data source record whose id is absent or not a string

  datatype Result<+T> = Ok(value: T) | Err(error: Error)
}
