/** The persisted entities, reduced to the fields the read-model mappings read. */
module Entities {

  /** A reference that may be null. */
  datatype Option<T> = None | Some(value: T)

  datatype Author = Author(id: int, firstName: string, lastName: string, email: string)

  /** A book whose author is present only when it was eagerly loaded. */
  datatype Book = Book(id: int, title: string, author: Option<Author>)
}

/** The read models handed to the API surfaces. */
module Models {
  import opened Entities

  datatype AuthorModel = AuthorModel(id: int, firstName: string, lastName: string, email: string)

  datatype BookModel = BookModel(id: int, title: string, author: Option<AuthorModel>)
}

module AuthorMappings {
  import opened Entities
  import opened Models

  /** The field-for-field copy of an author into its read model. */
  function ToModel(author: Author): (m: AuthorModel)
    ensures m.id == author.id
    ensures m.firstName == author.firstName
    ensures m.lastName == author.lastName
    ensures m.email == author.email
  {
    AuthorModel(author.id, author.firstName, author.lastName, author.email)
  }

  /** The read model is determined by the four copied fields, and loses none
      of them: two authors have equal models exactly when they are equal. */
  lemma ToModelInjective(a: Author, b: Author)
    ensures ToModel(a) == ToModel(b) <==> a == b
  {
  }
}

module BookMappings {
  import opened Entities
  import opened Models
  import AuthorMappings

  /** The copy of a book into its read model; a null author stays null and a
      present one is mapped by the author mapping. */
  function ToModel(book: Book): (m: BookModel)
    ensures m.id == book.id
    ensures m.title == book.title
    ensures m.author.None? <==> book.author.None?
    ensures book.author.Some? ==> m.author.value == AuthorMappings.ToModel(book.author.value)
    ensures book.author.Some? ==> m.author.value.id == book.author.value.id
  {
    BookModel(book.id, book.title,
              match book.author
              case None => None
              case Some(a) => Some(AuthorMappings.ToModel(a)))
  }

  /** The element-wise mapping of a book collection into read models. */
  function ToModels(books: seq<Book>): (ms: seq<BookModel>)
    ensures |ms| == |books|
    ensures forall i :: 0 <= i < |books| ==> ms[i] == ToModel(books[i])
    ensures forall i :: 0 <= i < |books| ==> ms[i].id == books[i].id
  {
    if books == [] then [] else [ToModel(books[0])] + ToModels(books[1..])
  }

  /** Mapping a concatenation maps each part, so the mapping keeps order. */
  lemma {:induction false} ToModelsAppend(xs: seq<Book>, ys: seq<Book>)
    ensures ToModels(xs + ys) == ToModels(xs) + ToModels(ys)
  {
    if xs != [] {
      assert (xs + ys)[1..] == xs[1..] + ys;
      ToModelsAppend(xs[1..], ys);
    }
  }
}
