/** The shape of what a handler receives from the framework and returns to it. */
module Http {
  import opened Records
  import opened Jwt

  const StatusOK := 200
  const StatusNoContent := 204
  const StatusBadRequest := 400
  const StatusUnauthorized := 401
  const StatusNotFound := 404

  /** The outcome of decoding a request body into a `T`. */
  datatype Parsed<+T> = Parsed(value: T) | Unparsable(message: string)

  datatype Body =
    | Empty                                   // a bare status (SendStatus, a returned fiber error)
    | Message(text: string)                   // SendString of an error's text
    | AtoiFailure(input: string)              // the text of strconv.Atoi's error for `input`
    | BookJson(book: Book)
    | BookListJson(books: seq<Book>)
    | LoginJson(message: string, token: Token)

  datatype Response = Response(status: int, body: Body)
}
