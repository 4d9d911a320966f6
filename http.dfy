/** Facts about HTTP responses shared by both clients. */
module Http {

  /** `response.ok`: the status is in the 2xx range. */
  predicate IsOkStatus(status: nat) {
    200 <= status <= 299
  }
}
