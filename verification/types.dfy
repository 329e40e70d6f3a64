/** The records the application passes around (src/types/book.ts and the
    interfaces declared beside the services). */
module Types {
  import opened Wrappers

  /** A JavaScript `Date`, as milliseconds since the epoch. */
  type Time = int

  datatype Status = InProgress | Completed

  /** `ReadingProgress`: the optional members of the interface are `Option`s. */
  datatype Progress = Progress(
    bookId: string,
    currentPage: int,
    progress: real,
    userId: Option<string>,
    totalPages: Option<int>,
    status: Option<Status>,
    lastReadAt: Option<Time>)

  /** `UserData` of the authentication service; `email` is absent when the
      token carried no subject. */
  datatype UserData = UserData(id: Option<string>, email: Option<string>, name: string, role: string)

  /** `Book`, reduced to the members the modelled code reads. `content` is
      `None` when the server sent none. */
  datatype Book = Book(id: string, title: string, author: string, genre: string, content: Option<seq<string>>)
}
