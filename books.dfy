/**
 * What each book handler does to the book list and what it answers, as
 * functions of the list before the request. The handlers in `Store` are
 * proved to do exactly this; the properties are proved here.
 */
module Books {
  import opened Wrappers
  import opened Strconv
  import opened Records
  import opened Http

  /** Some book in `s` has this id. */
  predicate HasId(s: seq<Book>, id: int) {
    exists i :: 0 <= i < |s| && s[i].id == id
  }

  /** `i` is where a front-to-back scan for `id` stops. */
  predicate IsFirstMatch(s: seq<Book>, i: int, id: int) {
    0 <= i < |s| && s[i].id == id && forall j :: 0 <= j < i ==> s[j].id != id
  }

  /** No two books share an id. */
  predicate UniqueIds(s: seq<Book>) {
    forall i, j :: 0 <= i < j < |s| ==> s[i].id != s[j].id
  }

  /** The position of the first book with this id, if any. */
  function FirstIndex(s: seq<Book>, id: int): (r: Option<nat>)
    ensures r.Some? ==> IsFirstMatch(s, r.value, id)
    ensures r.None? <==> !HasId(s, id)
  {
    if s == [] then None
    else if s[0].id == id then Some(0)
    else match FirstIndex(s[1..], id)
      case None => None
      case Some(k) => Some(k + 1)
  }

  /** The first match is unique: a scan can stop in only one place. */
  lemma FirstMatchUnique(s: seq<Book>, i: int, k: int, id: int)
    requires IsFirstMatch(s, i, id) && IsFirstMatch(s, k, id)
    ensures i == k
  {
  }

  /** The list with element `i` removed and the gap closed. */
  function Deleted(s: seq<Book>, i: nat): (r: seq<Book>)
    requires i < |s|
    ensures |r| == |s| - 1
    ensures forall j :: 0 <= j < i ==> r[j] == s[j]
    ensures forall j :: i <= j < |r| ==> r[j] == s[j + 1]
  {
    s[..i] + s[i + 1..]
  }

  /** The list with the title and author of element `i` taken from `u`; its id stays. */
  function Retitled(s: seq<Book>, i: nat, u: Book): (r: seq<Book>)
    requires i < |s|
    ensures |r| == |s|
    ensures r[i] == Book(s[i].id, u.title, u.author)
    ensures forall j :: 0 <= j < |s| && j != i ==> r[j] == s[j]
  {
    s[i := s[i].(title := u.title, author := u.author)]
  }

  /** A handler's effect: the book list afterwards and the response. */
  datatype Outcome = Outcome(books: seq<Book>, resp: Response)

  /** GET /books: the whole list, in its current order. */
  function ListResult(s: seq<Book>): (o: Outcome)
    ensures o.books == s
    ensures o.resp.status == StatusOK && o.resp.body.BookListJson? && o.resp.body.books == s
  {
    Outcome(s, Response(StatusOK, BookListJson(s)))
  }

  /** GET /books/:id */
  function GetResult(s: seq<Book>, param: string): (o: Outcome)
    ensures o.books == s
    ensures Atoi(param).None? ==> o.resp == Response(StatusBadRequest, AtoiFailure(param))
    ensures Atoi(param).Some? ==>
              (o.resp.status == StatusOK <==> HasId(s, Atoi(param).value)) &&
              (o.resp.status != StatusOK ==> o.resp == Response(StatusNotFound, Empty))
    ensures o.resp.status == StatusOK ==>
              exists i :: IsFirstMatch(s, i, Atoi(param).value) && o.resp.body == BookJson(s[i])
  {
    match Atoi(param)
    case None => Outcome(s, Response(StatusBadRequest, AtoiFailure(param)))
    case Some(id) =>
      match FirstIndex(s, id)
      case None => Outcome(s, Response(StatusNotFound, Empty))
      case Some(i) => Outcome(s, Response(StatusOK, BookJson(s[i])))
  }

  /** POST /books */
  function CreateResult(s: seq<Book>, body: Parsed<Book>): (o: Outcome)
    ensures body.Unparsable? ==> o == Outcome(s, Response(StatusBadRequest, Message(body.message)))
    ensures body.Parsed? ==>
              |o.books| == |s| + 1 && o.books[..|s|] == s && o.books[|s|] == body.value &&
              o.resp == Response(StatusOK, BookJson(body.value))
  {
    match body
    case Unparsable(msg) => Outcome(s, Response(StatusBadRequest, Message(msg)))
    case Parsed(b) => Outcome(s + [b], Response(StatusOK, BookJson(b)))
  }

  /** PUT /books/:id: the id is checked before the body, the body before the lookup. */
  function UpdateResult(s: seq<Book>, param: string, body: Parsed<Book>): (o: Outcome)
    ensures o.resp.status != StatusOK ==> o.books == s
    ensures Atoi(param).None? ==> o.resp == Response(StatusBadRequest, AtoiFailure(param))
    ensures Atoi(param).Some? && body.Unparsable? ==> o.resp == Response(StatusBadRequest, Message(body.message))
    ensures Atoi(param).Some? && body.Parsed? ==>
              (o.resp.status == StatusOK <==> HasId(s, Atoi(param).value)) &&
              (o.resp.status != StatusOK ==> o.resp == Response(StatusNotFound, Empty))
    ensures o.resp.status == StatusOK ==>
              exists i :: IsFirstMatch(s, i, Atoi(param).value) &&
                o.books == Retitled(s, i, body.value) && o.resp.body == BookJson(o.books[i])
  {
    match Atoi(param)
    case None => Outcome(s, Response(StatusBadRequest, AtoiFailure(param)))
    case Some(id) =>
      match body
      case Unparsable(msg) => Outcome(s, Response(StatusBadRequest, Message(msg)))
      case Parsed(u) =>
        match FirstIndex(s, id)
        case None => Outcome(s, Response(StatusNotFound, Empty))
        case Some(i) =>
          var t := Retitled(s, i, u);
          Outcome(t, Response(StatusOK, BookJson(t[i])))
  }

  /** DELETE /books/:id */
  function DeleteResult(s: seq<Book>, param: string): (o: Outcome)
    ensures o.resp.status != StatusNoContent ==> o.books == s
    ensures Atoi(param).None? ==> o.resp == Response(StatusBadRequest, AtoiFailure(param))
    ensures Atoi(param).Some? ==>
              (o.resp.status == StatusNoContent <==> HasId(s, Atoi(param).value)) &&
              (o.resp.status != StatusNoContent ==> o.resp == Response(StatusNotFound, Empty))
    ensures o.resp.status == StatusNoContent ==>
              o.resp.body == Empty &&
              exists i :: IsFirstMatch(s, i, Atoi(param).value) && o.books == Deleted(s, i)
  {
    match Atoi(param)
    case None => Outcome(s, Response(StatusBadRequest, AtoiFailure(param)))
    case Some(id) =>
      match FirstIndex(s, id)
      case None => Outcome(s, Response(StatusNotFound, Empty))
      case Some(i) => Outcome(Deleted(s, i), Response(StatusNoContent, Empty))
  }

  // ---- Properties relating several requests ----

  /** Reading twice with no write in between gives the same answer. */
  lemma GetIdempotent(s: seq<Book>, param: string)
    ensures GetResult(GetResult(s, param).books, param) == GetResult(s, param)
  {
  }

  /** Removing an element takes exactly one copy of it out of the multiset of books. */
  lemma DeletedMultiset(s: seq<Book>, i: nat)
    requires i < |s|
    ensures multiset(Deleted(s, i)) + multiset{s[i]} == multiset(s)
  {
    assert s == s[..i] + [s[i]] + s[i + 1..];
  }

  /** A created book whose id was not yet present is found by its id afterwards. */
  lemma CreateThenGet(s: seq<Book>, b: Book)
    requires !HasId(s, b.id)
    ensures GetResult(CreateResult(s, Parsed(b)).books, Itoa(b.id)).resp == Response(StatusOK, BookJson(b))
  {
    AtoiItoa(b.id);
    var t := CreateResult(s, Parsed(b)).books;
    assert t == s + [b];
    assert IsFirstMatch(t, |s|, b.id);
    FirstMatchUnique(t, |s|, FirstIndex(t, b.id).value, b.id);
  }

  /** Create does not check ids: after creating a duplicate, lookup still answers with the earlier book. */
  lemma CreateDuplicateShadowed(s: seq<Book>, b: Book)
    requires HasId(s, b.id)
    ensures var i := FirstIndex(s, b.id).value;
            GetResult(CreateResult(s, Parsed(b)).books, Itoa(b.id)).resp == Response(StatusOK, BookJson(s[i]))
  {
    AtoiItoa(b.id);
    var i := FirstIndex(s, b.id).value;
    var t := CreateResult(s, Parsed(b)).books;
    assert t == s + [b];
    assert IsFirstMatch(t, i, b.id);
    FirstMatchUnique(t, i, FirstIndex(t, b.id).value, b.id);
  }

  /** Create keeps ids unique exactly when the new id is not present. */
  lemma CreateUniqueIds(s: seq<Book>, b: Book)
    requires UniqueIds(s)
    ensures UniqueIds(CreateResult(s, Parsed(b)).books) <==> !HasId(s, b.id)
  {
  }

  /** Update never changes an id, so it keeps ids unique. */
  lemma UpdateUniqueIds(s: seq<Book>, param: string, body: Parsed<Book>)
    requires UniqueIds(s)
    ensures UniqueIds(UpdateResult(s, param, body).books)
  {
  }

  /** Delete keeps ids unique. */
  lemma DeleteUniqueIds(s: seq<Book>, param: string)
    requires UniqueIds(s)
    ensures UniqueIds(DeleteResult(s, param).books)
  {
  }

  /** With unique ids, a deleted id is gone: looking it up afterwards gives 404. */
  lemma DeleteThenGetNotFound(s: seq<Book>, param: string)
    requires UniqueIds(s)
    requires DeleteResult(s, param).resp.status == StatusNoContent
    ensures GetResult(DeleteResult(s, param).books, param).resp == Response(StatusNotFound, Empty)
  {
  }

  // ---- Concrete cases ----

  /** Deleting 2 from [1, 2, 3] gives [1, 3]. */
  lemma DeleteExample(a: Book, b: Book, c: Book)
    requires a.id == 1 && b.id == 2 && c.id == 3
    ensures DeleteResult([a, b, c], "2") == Outcome([a, c], Response(StatusNoContent, Empty))
  {
    assert Atoi("2") == Some(2) by { assert DigitsValue("2") == 2; }
    assert IsFirstMatch([a, b, c], 1, 2);
    FirstMatchUnique([a, b, c], 1, FirstIndex([a, b, c], 2).value, 2);
    assert Deleted([a, b, c], 1) == [a, c];
  }

  /** Updating 1984 keeps its id 1 even when the body names another id. */
  lemma UpdateExample(rest: seq<Book>)
    ensures var s := [Book(1, "1984", "George Orwell")] + rest;
            UpdateResult(s, "1", Parsed(Book(7, "X", "Y"))) ==
              Outcome([Book(1, "X", "Y")] + rest, Response(StatusOK, BookJson(Book(1, "X", "Y"))))
  {
  }

  /** With a duplicated id, update and delete touch only the earlier book. */
  lemma DuplicateExample(a: Book, b: Book)
    requires a.id == 1 && b.id == 1
    ensures UpdateResult([a, b], "1", Parsed(Book(1, "X", "Y"))).books == [Book(1, "X", "Y"), b]
    ensures DeleteResult([a, b], "1").books == [b]
  {
  }
}
