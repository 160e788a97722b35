/** The service's record type: a book as the handlers store and serialise it. */
module Records {
  import opened Strconv

  /** A book; `id` is Go's `int`, chosen by the caller, never generated. */
  datatype Book = Book(id: Int64, title: string, author: string)
}
