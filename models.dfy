/** The database records the handlers read, reduced to the fields they use. */
module Models {

  datatype User = User(id: int, isSuperuser: bool)

  /** A stored API token; `permissions` is the list of scopes it was granted. */
  datatype Token = Token(id: string, userId: int, permissions: seq<string>)

  datatype Wallet = Wallet(id: int, userId: int)

  datatype Invoice = Invoice(id: int, storeId: int, status: string)
}
