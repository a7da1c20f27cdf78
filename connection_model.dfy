/** database/models/connection.py: the credential record. The in-memory ORM object is a
    class (its token fields are overwritten in place before it is saved); a persisted row
    is a value held by the store. */
module ConnectionModel {
  import opened Common

  /** What a token column can hold. `Text` is a Python str; `Sealed(key, plain)` is a Fernet
      token made under `key` from `plain` (symbolic: only decryption under the same key gives
      `plain` back); `NonText` is any other JSON value (number, boolean, list, object). */
  datatype Field = Null | Text(s: string) | Sealed(key: string, plain: string) | NonText

  /** A `Connection` object. `id` and `date` are None until the object is saved: the id is
      assigned by the autoincrement column and the date by the column default. */
  class Connection {
    var id: Option<int>
    var date: Option<int>
    var accessToken: Field
    var refreshToken: Field

    /** `Connection(access_token=..., refresh_token=...)`, as `authenticate` builds it. */
    constructor (accessToken: Field, refreshToken: Field)
      ensures id == None && date == None
      ensures this.accessToken == accessToken && this.refreshToken == refreshToken
    {
      id := None;
      date := None;
      this.accessToken := accessToken;
      this.refreshToken := refreshToken;
    }
  }

  /** A persisted row of the `connection` table. */
  datatype Row = Row(id: int, date: Option<int>, accessToken: Field, refreshToken: Field)

  /** Both token columns of a row hold ciphertext made under `key`. */
  predicate SealedUnder(row: Row, key: string)
  {
    row.accessToken.Sealed? && row.accessToken.key == key &&
    row.refreshToken.Sealed? && row.refreshToken.key == key
  }
}
