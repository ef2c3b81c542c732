/** The foreign calls the user and auth services make (the database, the
    password hasher and the token signer), and the values passed to them. */
module Foreign {
  import opened Common

  /** The row handed to the store's insert; the store adds the id. */
  datatype UserData = UserData(email: Email, password: string, name: Option<string>)

  /** The claims a token is signed over: `{ email, sub }`. */
  datatype Payload = Payload(email: Email, sub: UserId)

  /** One foreign call, with its arguments. */
  datatype Call =
    | FindUnique(email: Email)
    | Hash(plaintext: string, rounds: nat)
    | Insert(data: UserData)
    | Compare(plaintext: string, hashed: string)
    | Sign(payload: Payload)
}
