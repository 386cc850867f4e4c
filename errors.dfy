/** The ways a request to the backend can fail. */
module Errors {

  datatype Error =
    | ValidationError(fields: set<string>)  // the body does not fit its schema (HTTP 422); names the offending fields
    | BadId                                 // the path id is not an ObjectId string (HTTP 400, "Invalid id")
    | NotFound                              // a well-formed id that matches no document (HTTP 404, "Not found")
    | WriteRejected                         // the store refused an insert because the generated id is taken
}
