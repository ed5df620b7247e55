/** The signed-in user as the pages see it. */
module Accounts {

  /** The auth service's user; the pages read only its id. */
  datatype User = User(id: string)
}
