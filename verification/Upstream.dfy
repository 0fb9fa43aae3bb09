/** Answers of the upstream panel, as far as the gateway looks at them. */
module Upstream {
  import opened Prelude
  import opened Json

  /** No usable answer (transport error, body too large), or a status with a body that may not be JSON. */
  datatype Answer = NoAnswer | Answer(status: int, body: Option<Json>)

  predicate Success(a: Answer) {
    a.Answer? && 200 <= a.status < 300
  }
}
