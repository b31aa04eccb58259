/** Shared result types for the plot planner: the optional arguments of the
    plotting helpers (Python's `None`) and the errors they raise. */
module Outcome {

  /** An argument that may be left at its `None` default. */
  datatype Option<+T> = None | Some(value: T)

  /** The exceptions the modelled helpers raise before drawing anything. */
  datatype PlotError =
    | ConflictingExtent                              // imshowz: extent with both xlim and ylim (ValueError)
    | InvalidRotation(rotate: int)                   // imshowz: rotate not a multiple of 90 (ValueError)
    | DimensionMismatch(given: nat, ndim: nat)       // plot_accross: len(pos) != data dimension (TypeError)
    | IndexOutOfRange(axis: nat, index: int, size: nat)  // numpy indexing past an axis (IndexError)

  datatype Result<+T> = Ok(value: T) | Err(error: PlotError)
}
