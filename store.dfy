/**
 * The in-memory book list and the five handlers that work on it. The list is
 * one shared, mutable sequence; every handler that takes an id scans it from
 * the front and stops at the first book with that id.
 */
module Store {
  import opened Wrappers
  import opened Strconv
  import opened Records
  import opened Http
  import opened Books

  /** The list as the service starts. */
  function Seed(): seq<Book> {
    [Book(1, "1984", "George Orwell"), Book(2, "The Great Gatsby", "F. Scott Fitzgerald")]
  }

  class BookStore {
    var books: seq<Book>

    /** The seeding at start-up: two appends to an empty list. */
    constructor ()
      ensures books == Seed()
    {
      books := [];
      books := books + [Book(1, "1984", "George Orwell")];
      books := books + [Book(2, "The Great Gatsby", "F. Scott Fitzgerald")];
    }

    /** GET /books */
    method GetBooks() returns (resp: Response)
      ensures resp == ListResult(books).resp
      ensures resp == Response(StatusOK, BookListJson(books))
    {
      resp := Response(StatusOK, BookListJson(books));
    }

    /** GET /books/:id */
    method GetBook(param: string) returns (resp: Response)
      ensures resp == GetResult(books, param).resp
    {
      var parsed := Atoi(param);
      if parsed.None? {
        return Response(StatusBadRequest, AtoiFailure(param));
      }
      var id := parsed.value;
      var i := 0;
      while i < |books|
        invariant 0 <= i <= |books|
        invariant forall j :: 0 <= j < i ==> books[j].id != id
      {
        if books[i].id == id {
          FirstMatchUnique(books, i, FirstIndex(books, id).value, id);
          return Response(StatusOK, BookJson(books[i]));
        }
        i := i + 1;
      }
      return Response(StatusNotFound, Empty);
    }

    /** POST /books: appends the body verbatim; ids are not checked. */
    method CreateBook(body: Parsed<Book>) returns (resp: Response)
      modifies this
      ensures books == CreateResult(old(books), body).books
      ensures resp == CreateResult(old(books), body).resp
    {
      if body.Unparsable? {
        return Response(StatusBadRequest, Message(body.message));
      }
      var book := body.value;
      books := books + [book];
      resp := Response(StatusOK, BookJson(book));
    }

    /** PUT /books/:id: sets title and author of the first match in place. */
    method UpdateBook(param: string, body: Parsed<Book>) returns (resp: Response)
      modifies this
      ensures books == UpdateResult(old(books), param, body).books
      ensures resp == UpdateResult(old(books), param, body).resp
    {
      var parsed := Atoi(param);
      if parsed.None? {
        return Response(StatusBadRequest, AtoiFailure(param));
      }
      if body.Unparsable? {
        return Response(StatusBadRequest, Message(body.message));
      }
      var id, update := parsed.value, body.value;
      var i := 0;
      while i < |books|
        invariant 0 <= i <= |books|
        invariant books == old(books)
        invariant forall j :: 0 <= j < i ==> books[j].id != id
      {
        if books[i].id == id {
          FirstMatchUnique(books, i, FirstIndex(books, id).value, id);
          ghost var before := books;
          books := books[i := books[i].(title := update.title)];
          books := books[i := books[i].(author := update.author)];
          assert books == Retitled(before, i, update);
          return Response(StatusOK, BookJson(books[i]));
        }
        i := i + 1;
      }
      return Response(StatusNotFound, Empty);
    }

    /** DELETE /books/:id: removes the first match and closes the gap. */
    method DeleteBook(param: string) returns (resp: Response)
      modifies this
      ensures books == DeleteResult(old(books), param).books
      ensures resp == DeleteResult(old(books), param).resp
    {
      var parsed := Atoi(param);
      if parsed.None? {
        return Response(StatusBadRequest, AtoiFailure(param));
      }
      var id := parsed.value;
      var i := 0;
      while i < |books|
        invariant 0 <= i <= |books|
        invariant books == old(books)
        invariant forall j :: 0 <= j < i ==> books[j].id != id
      {
        if books[i].id == id {
          FirstMatchUnique(books, i, FirstIndex(books, id).value, id);
          books := books[..i] + books[i + 1..];
          return Response(StatusNoContent, Empty);
        }
        i := i + 1;
      }
      return Response(StatusNotFound, Empty);
    }
  }
}
