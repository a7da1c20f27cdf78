/** utils/config.py: the configuration source. The process environment is a map from
    variable names to values; the `.env` file is its text, which the code only appends to. */
module Config {
  import opened Common

  /** The message `get_var` puts into VariableNotFound. */
  function NotFoundMessage(name: string): string
  {
    "Variable " + name + " not found."
  }

  /** `Config.get_var(name)`: the value of a set, non-empty variable; an unset or
      empty one (both falsy for `os.getenv`) raises VariableNotFound. */
  function GetVar(env: map<string, string>, name: string): (r: Result<string>)
    ensures r.Ok? <==> name in env && env[name] != ""
    ensures r.Ok? ==> r.value == env[name] && r.value != ""
    ensures r.Err? ==> r.error == VariableNotFound(NotFoundMessage(name))
  {
    if name in env && env[name] != "" then Ok(env[name])
    else Err(VariableNotFound(NotFoundMessage(name)))
  }

  /** The exact text `_append_encoded_key` writes: no quoting of the key, no newline. */
  function SecretKeyEntry(encodedKey: string): string
  {
    "SECRET_KEY=\"" + encodedKey + "\""
  }

  /** The last line of a text: everything after its last newline. */
  function LastLine(text: string): string
  {
    if text == [] then []
    else if text[|text| - 1] == '\n' then []
    else LastLine(text[..|text| - 1]) + [text[|text| - 1]]
  }

  /** Appending text without a newline extends the current last line, so an entry
      written after a file that does not end in a newline joins that file's last line. */
  lemma {:induction false} LastLineAppend(text: string, extra: string)
    requires '\n' !in extra
    ensures LastLine(text + extra) == LastLine(text) + extra
  {
    if extra == [] {
      assert text + extra == text;
    } else {
      var init := extra[..|extra| - 1];
      assert (text + extra)[..|text + extra| - 1] == text + init;
      assert '\n' !in init by {
        forall i | 0 <= i < |init| ensures init[i] != '\n' { assert init[i] == extra[i]; }
      }
      LastLineAppend(text, init);
      assert init + [extra[|extra| - 1]] == extra;
    }
  }

  lemma SecretKeyEntryHasNoNewline(encodedKey: string)
    requires '\n' !in encodedKey
    ensures '\n' !in SecretKeyEntry(encodedKey)
  {
  }

  /** The process environment together with the `.env` file on disk. */
  class ConfigSource {
    var env: map<string, string>
    var dotEnv: string

    constructor (env: map<string, string>, dotEnv: string)
      ensures this.env == env && this.dotEnv == dotEnv
    {
      this.env := env;
      this.dotEnv := dotEnv;
    }

    /** `_append_encoded_key(k)`: appends `SECRET_KEY="k"` to `.env`; the earlier content
        is kept and the process environment is not touched, so `get_var("SECRET_KEY")`
        answers the same as before for the rest of the run. */
    method AppendEncodedKey(encodedKey: string)
      modifies this
      ensures dotEnv == old(dotEnv) + SecretKeyEntry(encodedKey)
      ensures env == old(env)
      ensures GetVar(env, "SECRET_KEY") == old(GetVar(env, "SECRET_KEY"))
    {
      dotEnv := dotEnv + SecretKeyEntry(encodedKey);
    }
  }
}
