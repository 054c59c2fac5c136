/** The records exchanged with the backend. */
module Types {
  import opened Outcomes

  /** A JSON number. The model never computes with prices or ratings, so the
      value only needs to be carried along unchanged. */
  type Number = real

  /** A stored game; `id` and `createdBy` are the wire fields `_id` and `_createdBy`. */
  datatype Game = Game(
    id: string,
    title: string,
    description: string,
    imageURL: string,
    price: Number,
    rating: Number,
    platform: string,
    genre: string,
    releaseDate: string,
    createdBy: string)

  /** A game before the backend assigns it an id; the creator is optional. */
  datatype NewGame = NewGame(
    title: string,
    description: string,
    imageURL: string,
    price: Number,
    rating: Number,
    platform: string,
    genre: string,
    releaseDate: string,
    createdBy: Option<string>)

  datatype User = User(id: string, name: string, email: string, password: string, registerDate: string)
}
