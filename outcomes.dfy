/** Option and Result values standing in for Python's None and for raised exceptions. */
module Outcomes {

  datatype Option<+T> = None | Some(value: T)

  datatype Result<+R, +E> = Success(value: R) | Failure(error: E)

  /** A Django primary key. */
  type Pk = int

  /**
   * The Python exceptions a request of this model can end in besides `Http404`:
   * an attribute that is missing (`RelatedObjectDoesNotExist` is one) and a
   * `.get()` that matches no row.
   */
  datatype Raised = AttributeError | DoesNotExist
}
