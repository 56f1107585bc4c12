/** Result codes of the public API (`loom_result_t`), as far as the modelled operations return them. */
module Codes {
  datatype Rc = OK | INVALID | ALLOC | SHUTDOWN | TIMEOUT
}
