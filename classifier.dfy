/** What the Edge Impulse classifier hands back to the main loop: run_classifier's status
    code and the score of each label.  The classifier itself is an oracle of the model. */
module Classifier {

  /** EI_IMPULSE_OK */
  const EI_IMPULSE_OK: int := 0

  /** ei_result.classification[i].value for each label i.  project_audio/main.cpp reads
      indices up to 6; the model assumes the deployed classifier has at least seven labels. */
  type Scores = s: seq<real> | |s| >= 7 witness [0.0, 0.0, 0.0, 0.0, 0.0, 0.0, 0.0]

  datatype Outcome = Outcome(error: int, scores: Scores)
}
