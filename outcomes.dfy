/** The optional values and the errors of the model-construction entry point. */
module Outcomes {

  datatype Option<+T> = None | Some(value: T)

  /** The exceptions SIR_model_with_change_points raises while it validates and assembles. */
  datatype Error =
    | UnknownPrior(name: string)             // a top-level prior name outside the default table
    | UnknownChangePointPrior(name: string)  // a change-point prior name outside its default table
    | InsufficientLeadTime                   // diff_data_sim too small for the delay prior
    | HorizonTooShort                        // num_days_sim does not cover the data plus the offset
    | NotTemporallyOrdered                   // a change-point date earlier than its predecessor's
    | TypeError                              // arithmetic or comparison on a value of the wrong kind
}
