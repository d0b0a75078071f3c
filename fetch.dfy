/** The result of fetching and decoding one provider payload. The transport and
    the JSON decoding are outside the model; every pipeline receives their
    outcome as a value of this type. */
module Fetch {

  datatype Outcome<+T> = Failure | Success(value: T)

}
