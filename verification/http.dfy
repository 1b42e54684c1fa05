/** What one HTTP GET gives back to the client. The transport itself is not
    modelled: the server's answers are inputs of the model. */
module Http {

  /** An answer with a status code and an already-read body, or no answer at
      all (a transport error). */
  datatype Reply<B> = Answer(status: int, body: B) | NoAnswer {

    /** The client accepts exactly the 2xx answers. */
    predicate Succeeded() {
      Answer? && 200 <= status <= 299
    }
  }
}
