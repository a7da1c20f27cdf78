/** auth/security.py: the token encryptor. Fernet is modelled symbolically: a key is a
    44-character base64 string, encryption of a str under a key gives
    `Sealed(key, plain)`, and decryption opens only tokens sealed under the same key. */
module Security {
  import opened Common
  import opened Config
  import opened ConnectionModel

  /** A character `base64.urlsafe_b64decode` decodes: it maps `-` and `_` to `+` and `/`
      before decoding, so both alphabets are read. */
  predicate IsBase64Char(c: char)
  {
    ('A' <= c <= 'Z') || ('a' <= c <= 'z') || ('0' <= c <= '9') || c == '-' || c == '_' || c == '+' || c == '/'
  }

  /** A key in the padded form of 32 bytes that `Fernet(key)` accepts: 43 base64
      characters and one `=`. */
  predicate ValidKey(key: string)
  {
    |key| == 44 && key[43] == '=' && forall i :: 0 <= i < 43 ==> IsBase64Char(key[i])
  }

  /** `Fernet(key)`: a cipher for a valid key; any other key raises ValueError, which
      `_setup_token` turns into ConfigError. An attribute that was never assigned raises
      AttributeError instead, which is not a ValueError and escapes unchanged. */
  function BuildFernet(key: Slot<string>): (r: Result<string>)
    ensures r.Ok? <==> key.Bound? && ValidKey(key.value)
    ensures r.Ok? ==> r.value == key.value
    ensures key.Unbound? ==> r == Err(AttributeError)
    ensures key.Bound? && !ValidKey(key.value) ==> r == Err(ConfigError("SECRET_KEY WITH INVALID FORMAT"))
  {
    match key
    case Unbound => Err(AttributeError)
    case Bound(k) => if ValidKey(k) then Ok(k) else Err(ConfigError("SECRET_KEY WITH INVALID FORMAT"))
  }

  /** `fernet.encrypt(token.encode())`: only a str has `encode`; None, bytes and other
      JSON values raise AttributeError. The ciphertext is never the plaintext and opens
      back to it under the same key. */
  function Seal(key: string, token: Field): (r: Result<Field>)
    ensures r.Ok? <==> token.Text?
    ensures r.Err? ==> r.error == AttributeError
    ensures r.Ok? ==> r.value.Sealed? && r.value.key == key && r.value != token
    ensures r.Ok? ==> Open(key, r.value) == Ok(token.s)
  {
    if token.Text? then Ok(Sealed(key, token.s)) else Err(AttributeError)
  }

  /** `fernet.decrypt(token).decode()`: a token sealed under this key opens to its
      plaintext; a token under another key, or a str that is no token, raises
      InvalidToken; None and non-string values raise TypeError. */
  function Open(key: string, token: Field): (r: Result<string>)
    ensures r.Ok? <==> token.Sealed? && token.key == key
    ensures r.Ok? ==> r.value == token.plain
    ensures token.Null? || token.NonText? ==> r == Err(TypeError)
  {
    match token
    case Sealed(k, p) => if k == key then Ok(p) else Err(InvalidToken)
    case Text(_) => Err(InvalidToken)
    case _ => Err(TypeError)
  }

  /** Decrypting under the same key undoes encryption. */
  lemma RoundTrip(key: string, plain: string)
    ensures Seal(key, Text(plain)).Ok?
    ensures Open(key, Seal(key, Text(plain)).value) == Ok(plain)
  {
  }

  /** A token made under one key never opens under a different key. */
  lemma WrongKeyFails(key: string, other: string, plain: string)
    requires key != other
    ensures Open(other, Seal(key, Text(plain)).value) == Err(InvalidToken)
  {
  }

  /** The encrypting half of the auth client: the key read from configuration and the
      cipher built from it, both unset until `_setup_token` assigns them. */
  class TokenEncryptor {
    var key: Slot<string>
    var fernet: Slot<string>

    constructor ()
      ensures key == Unbound && fernet == Unbound
    {
      key := Unbound;
      fernet := Unbound;
    }

    /** `encrypt(token)`: raises AttributeError before `_setup_token` has built a cipher. */
    function Encrypt(token: Field): (r: Result<Field>)
      reads this
      ensures fernet.Unbound? ==> r == Err(AttributeError)
      ensures r.Ok? <==> fernet.Bound? && token.Text?
      ensures r.Ok? ==> r.value == Sealed(fernet.value, token.s)
    {
      if fernet.Unbound? then Err(AttributeError) else Seal(fernet.value, token)
    }

    /** `decrypt(token)`: raises AttributeError before `_setup_token` has built a cipher. */
    function Decrypt(token: Field): (r: Result<string>)
      reads this
      ensures fernet.Unbound? ==> r == Err(AttributeError)
      ensures r.Ok? <==> fernet.Bound? && token.Sealed? && token.key == fernet.value
      ensures r.Ok? ==> r.value == token.plain
    {
      if fernet.Unbound? then Err(AttributeError) else Open(fernet.value, token)
    }

    /** `_set_secret_key()`: appends a freshly generated key to `.env`. The key is not
        assigned to `self.key`, whatever the doc comment of the source says. */
    method SetSecretKey(config: ConfigSource, generated: string)
      modifies config
      ensures config.dotEnv == old(config.dotEnv) + SecretKeyEntry(generated)
      ensures config.env == old(config.env)
    {
      config.AppendEncodedKey(generated);
    }

    /** `_setup_token()`: reads SECRET_KEY into `key`; when it is missing, a generated key
        is appended to `.env` and `key` keeps whatever it held. Then, in the `finally`,
        the cipher is built from `key`: an invalid key is a ConfigError and an unassigned
        one an AttributeError; on success `fernet` holds the key. */
    method SetupToken(config: ConfigSource, generated: string) returns (r: Result<string>)
      modifies this, config
      ensures config.env == old(config.env)
      ensures var found := GetVar(old(config.env), "SECRET_KEY");
        && key == (if found.Ok? then Bound(found.value) else old(key))
        && config.dotEnv == old(config.dotEnv) + (if found.Ok? then "" else SecretKeyEntry(generated))
      ensures r == BuildFernet(key)
      ensures fernet == (if r.Ok? then Bound(r.value) else old(fernet))
    {
      var found := GetVar(config.env, "SECRET_KEY");
      if found.Ok? {
        key := Bound(found.value);
      } else {
        SetSecretKey(config, generated);
      }
      r := BuildFernet(key);
      if r.Ok? {
        fernet := Bound(r.value);
      }
    }

    /** `encrypt_connection_data(connection)`: overwrites the access token and then the
        refresh token of the given object with their encryptions and returns that same
        object; id and date are untouched. None raises AttributeError; a failure on the
        refresh token leaves the access token already overwritten. */
    method EncryptConnectionData(connection: Connection?) returns (r: Result<Connection>)
      modifies connection
      ensures connection == null ==> r == Err(AttributeError)
      ensures connection != null ==>
        var a := Encrypt(old(connection.accessToken));
        var b := Encrypt(old(connection.refreshToken));
        && connection.id == old(connection.id) && connection.date == old(connection.date)
        && connection.accessToken == (if a.Ok? then a.value else old(connection.accessToken))
        && connection.refreshToken == (if a.Ok? && b.Ok? then b.value else old(connection.refreshToken))
        && r == (if a.Err? then Err(a.error) else if b.Err? then Err(b.error) else Ok(connection))
    {
      if connection == null {
        return Err(AttributeError);
      }
      var a := Encrypt(connection.accessToken);
      if a.Err? {
        return Err(a.error);
      }
      connection.accessToken := a.value;
      var b := Encrypt(connection.refreshToken);
      if b.Err? {
        return Err(b.error);
      }
      connection.refreshToken := b.value;
      r := Ok(connection);
    }
  }
}
