# Mercado Libre ETL client: a verified model of its core

This project models, in Dafny, the core of a Python client that extracts product data
from the Mercado Libre API. The core has three parts.

- **The credential lifecycle.** `AuthClient._connection` runs once at the start of
  every execution:
  - it sets up a token encryptor from `SECRET_KEY`, or appends a generated key to
    `.env`;
  - it reads the highest-id row of the `connection` table and checks it against the
    6-hour freshness threshold;
  - it then reuses the stored access token, runs the OAuth2 refresh grant (section 6
    of RFC 6749), or runs the authorization-code grant (section 4.1.3 of RFC 6749);
  - after a grant it encrypts both tokens, appends one row and returns the plaintext
    access token.
- **The search dialogue.**
  - The console selection of filters and options, with console input as a sequence
    of lines.
  - The query string built from the marked filters.
  - The search URL and its Bearer header (section 2.1 of RFC 6750).
- **The flattening of search results** into a table, with one row per result and
  one column per fixed field or attribute name.

The model has one module per source file:
- `MeliAuth`: auth/meli/auth.py
- `AuthStatus`: auth/meli/auth_status.py
- `Security`: auth/security.py
- `AuthConfig`: auth/meli/auth_config.py
- `Config`: utils/config.py
- `TimeUtil`: utils/time.py
- `DataBase`: database/client.py
- `ConnectionModel`: database/models/connection.py
- `HttpRequest`: utils/http_request.py
- `Settings`: request/meli/request_settings.py
- `ConsoleControl`: request/meli/user_controls/console_uc.py
- `FilterSelection`: filter/filter_selection.py
- `FilterSchemas`: filter/filter_schemas.py
- `Transform`: etl/transform.py

`Common` holds `Option`, `Result`, the error tags and `Slot`. A `Slot` stands for a
Python name or attribute that may not have been assigned yet.

How the source's forms are modelled:
- **Objects whose fields the source updates in place are classes:**
  - the encryptor (`key`, `fernet`);
  - the `Connection` object that `encrypt_connection_data` overwrites;
  - the store (`rows`, the autoincrement counter);
  - the class-level payloads of the two token requests;
  - the `.env` file;
  - the selection handler, with the filter list as an array of records whose
    `selected` flags the dialogue sets;
  - the request settings, whose URL is extended in place;
  - the transformer's table.
- **Loops are methods with loop invariants:**
  - `generate_query`, `choose`, `choose_options`;
  - the nested loop of `transform`.
- **Each imperative method is proved equal to a pure function.** For example,
  `AuthClient.Connection` is proved equal to `ConnectionSpec`. The function is over a
  snapshot `World` of everything a run reads or changes. The lemmas state the
  lifecycle's promises about that function.
- **Outside inputs are parameters:**
  - the clock (`now`, integers in microseconds);
  - the generated Fernet key;
  - the token endpoint's reply;
  - per-call store failures;
  - the console lines.
- **Fernet is modelled as symbols:**
  - encrypting a str under a key gives `Sealed(key, plain)`;
  - decrypting opens only tokens made under the same key;
  - the round trip is proved, not assumed.

Behaviour the model takes from the code rather than from its comments and docstrings:
- **A reply other than 200 ends in NotHandledError.**
  - `authenticate` returns None, and `encrypt_connection_data(None)` fails by
    attribute access.
  - The "Connection failed." AuthenticationError can never be raised, because a
    `Connection` object is always truthy.
- **Without `SECRET_KEY`, every run fails.** `_set_secret_key` appends a key to `.env`
  but never assigns `self.key`. `Fernet(self.key)` then raises AttributeError, which
  becomes NotHandledError.
- **An empty store still runs the authorization-code grant.** `supervise` raises
  AuthenticationError. The `return` in `finally` then discards that exception.
- **The refresh grant posts a payload that every instance shares.**
  - `RefreshConnRequest(rt)` writes `rt` into the class-level `data` dict.
  - All instances, earlier ones included, then post the latest token.
- **An option id that ends in `?` swallows the next separator.** `generate_query`
  leaves out the `&` after a query that ends in `?`. So after such an id, the next
  filter's contribution follows without `&`.

## Model

| member | source | states |
|---|---|---|
| TimeUtil.Exceeded | utils/time.py:3-16 | the gap `t2 - t1` exceeds the threshold only when strictly larger: an equal gap never does, nor does a non-positive gap against a non-negative threshold |
| TimeUtil.ExceededMonotone | utils/time.py:14-16 | once exceeded at `t2`, the threshold stays exceeded at every later time |
| TimeUtil.NotExceededAntitoneInStart | utils/time.py:14-16 | moving the reference time later keeps a gap that is not exceeded not exceeded |
| Config.GetVar | utils/config.py:17-32 | succeeds exactly for a set, non-empty variable and returns its value; otherwise VariableNotFound with "Variable {name} not found." |
| Config.LastLineAppend | utils/config.py:42-43 | text appended without a newline joins the current last line of `.env` |
| Config.SecretKeyEntryHasNoNewline | utils/config.py:43 | the written entry holds no newline when the key holds none |
| Config.ConfigSource.constructor | utils/config.py:29-43 | the config source is the environment map and the `.env` text as given |
| Config.ConfigSource.AppendEncodedKey | utils/config.py:34-43 | `.env` becomes its old text plus `SECRET_KEY="k"`; the environment and so every later `get_var("SECRET_KEY")` answer are unchanged |
| ConnectionModel.Connection.constructor | database/models/connection.py:7-13 | a new Connection has no id and no date, and holds the two tokens as given |
| Security.BuildFernet | auth/security.py:33-36 | a cipher exactly for an assigned, well-formed key; a malformed key is ConfigError("SECRET_KEY WITH INVALID FORMAT"), an unassigned one AttributeError |
| Security.Seal | auth/security.py:38-48 | only a str can be encrypted (AttributeError otherwise); the ciphertext is made under the key, differs from the plaintext and opens back to it |
| Security.Open | auth/security.py:65-75 | succeeds exactly for a token made under this key and yields its plaintext; None and non-strings are TypeError |
| Security.RoundTrip | auth/security.py:38-75 | under one key, decrypting an encryption gives the plaintext back |
| Security.WrongKeyFails | auth/security.py:65-75 | a token made under one key never opens under another: InvalidToken |
| Security.TokenEncryptor.constructor | auth/security.py:17-18 | `key` and `fernet` are unassigned until `_setup_token` runs |
| Security.TokenEncryptor.Encrypt | auth/security.py:38-48 | AttributeError before a cipher exists; otherwise succeeds exactly for a str, sealed under the cipher's key |
| Security.TokenEncryptor.Decrypt | auth/security.py:65-75 | AttributeError before a cipher exists; otherwise opens exactly the tokens sealed under the cipher's key |
| Security.TokenEncryptor.SetSecretKey | auth/security.py:77-87 | appends the generated key to `.env`, changes neither the environment nor `self.key` |
| Security.TokenEncryptor.SetupToken | auth/security.py:20-36 | `key` becomes SECRET_KEY when set, else keeps its value while a generated key is appended to `.env`; the result is `Fernet(key)`'s, and `fernet` is assigned only on success |
| Security.TokenEncryptor.EncryptConnectionData | auth/security.py:50-63 | None is AttributeError; otherwise the access and then the refresh token of the same object are overwritten by their encryptions, id and date untouched, and a failure on the second leaves the first overwritten |
| AuthConfig.LoadAuthConfig | auth/meli/auth_config.py:19-30 | succeeds exactly when CLIENT_ID, CLIENT_SECRET, REDIRECT_URI and CODE are all set, with those four values; otherwise ConfigError with the message of the first missing one, for each of the four |
| AuthConfig.GetData | auth/meli/auth_config.py:32-76 | None for the base class; the authorization-code form with exactly five keys, or the refresh form with exactly four keys (no code, no refresh token) |
| AuthConfig.ConnectionDataIsAuthorizationCodeRequest | auth/meli/auth_config.py:43-55 | the ConnectionConfig form holds every parameter section 4.1.3 of RFC 6749 requires |
| AuthConfig.RefreshDataNeedsToken | auth/meli/auth_config.py:65-76 | the RefreshConfig form lacks the refresh token section 6 of RFC 6749 requires, and is complete once it is added |
| HttpRequest.Validate | utils/http_request.py:48-59 | success means status 200 and nothing else |
| HttpRequest.CategoryPredictor | utils/http_request.py:20-24 | the URL is the domain-discovery prefix followed by the key verbatim; headers are the credentials, cookies and params None, `data` never set |
| HttpRequest.CategoryAttributes | utils/http_request.py:42-46 | the URL is `.../categories/` + category + `/attributes`; same headers, cookies, params and `data` as above |
| HttpRequest.PredictorKeyNotEscaped | utils/http_request.py:21 | for every key, the URL's query string is `q=` and the key verbatim, so it has one parameter more than the key has `&` characters |
| HttpRequest.QueryAfterPath | utils/http_request.py:21 | after a path without `?`, the query string of `path?q=key` is `q=key` |
| AuthStatus.Supervise | auth/meli/auth_status.py:18-39 | a store failure is DataBaseError; an empty store or a row without a date is AuthenticationError; otherwise True when the latest row is at most 6 hours old and None when older, never False |
| AuthStatus.Credential | auth/meli/auth_status.py:41-64 | None exactly for an empty table; otherwise the date and both tokens of the highest-id row as stored; store failures are DataBaseError |
| AuthStatus.CredentialOf | auth/meli/auth_status.py:54-59 | a missing latest row is AuthenticationError |
| AuthStatus.TokenOf | auth/meli/auth_status.py:84-85 | a missing token field is the empty string; a string field is taken as is |
| AuthStatus.ReplyTokens | auth/meli/auth_status.py:80-91 | two tokens only on status 200 with a JSON object body; None on any other status; a network fault or a non-object body is AuthenticationError |
| AuthStatus.MeliAuthRequests.constructor | auth/meli/auth_status.py:115-127 | the class-level payloads are the ConnectionConfig and RefreshConfig forms, built once from the environment |
| AuthStatus.MeliAuthRequests.NewRefreshConnRequest | auth/meli/auth_status.py:129-135 | writes the token into the shared refresh payload and leaves the ConnectionRequest payload alone |
| AuthStatus.SharedRefreshPayload | auth/meli/auth_status.py:126-135 | two refresh requests made in turn both post the second token |
| AuthStatus.Authenticate | auth/meli/auth_status.py:74-105 | one POST of the instance's class payload to the token URL with the form-encoded headers; on 200 a new unsaved Connection with the reply's tokens; None on another status; AuthenticationError on a network or JSON failure |
| DataBase.Latest | database/client.py:52 | None exactly for an empty table; otherwise a row of the table whose id is the largest |
| DataBase.LatestIsLast | database/models/connection.py:10 | with autoincrement ids the latest row is the last one saved |
| DataBase.RowsWithId | database/client.py:90 | exactly the rows with that id |
| DataBase.UniqueId | database/models/connection.py:10 | with increasing ids at most one row has a given id |
| DataBase.FiltersInCategory | database/client.py:111 | exactly the filters of that category |
| DataBase.One | database/client.py:90-95 | no match is None, one match is that match, several are DataBaseError |
| DataBase.GetFilterByCode | database/client.py:97-116 | filters by category alone: a match is in the table and of that category, None means no filter of it, several matches or a failure are DataBaseError |
| DataBase.Last | database/client.py:39-56 | a failure is DataBaseError; otherwise None exactly for an empty table, else a row with the largest id |
| DataBase.GetAll | database/client.py:58-74 | all rows, or DataBaseError on a failure |
| DataBase.GetById | database/client.py:76-95 | a row with that id, None only when no row has it; several rows with it, or a failure, are DataBaseError |
| DataBase.GetByIdNeverAmbiguous | database/client.py:89-95 | with increasing ids `_get_by_id` never meets several matches |
| DataBase.LastIsMostRecentlySaved | database/client.py:51-54 | with increasing ids `_last` returns the most recently saved row |
| DataBase.DataBaseClient.constructor | database/client.py:16-22 | the store starts with the given rows, counter and date default |
| DataBase.DataBaseClient.Save | database/client.py:24-37 | on success exactly one row is appended with the next id and the class-definition-time date, and the object gets its id and date; a failure changes nothing and is DataBaseError |
| Settings.Generate | request/meli/request_settings.py:22-30 | the only key is `Authorization`, holding `Bearer ` and the token verbatim |
| Settings.GenerateInjective | request/meli/request_settings.py:28-30 | different tokens give different headers |
| Settings.RequestSettings.constructor | request/meli/request_settings.py:44-51 | the credential is the generated header and the URL the MLA search URL |
| FilterSchemas.FilterBaseDefaults | filter/filter_schemas.py:16-33 | a FilterBase defaults to no category, no options, not selected |
| FilterSchemas.FilterOptionBaseDefaults | filter/filter_schemas.py:68-83 | a FilterOptionBase defaults to no category, not selected |
| FilterSchemas.FilterToDict | filter/filter_schemas.py:35-48 | exactly the keys id, name, code, category and selected, with the options left out |
| FilterSchemas.OptionToDict | filter/filter_schemas.py:85-98 | the same five keys, taken from the option's fields |
| FilterSchemas.FilterDictRoundTrip | filter/filter_schemas.py:35-48 | the dictionary gives the filter back with only its options lost |
| FilterSchemas.OptionDictRoundTrip | filter/filter_schemas.py:85-98 | the dictionary gives the option back unchanged |
| FilterSchemas.FilterStr | filter/filter_schemas.py:50-51 | the text opens with `FilterBase({` and closes with `})`, the dictionary's items between them |
| FilterSchemas.FilterStrIgnoresOptions | filter/filter_schemas.py:35-51 | the options list never shows in the text: filters that differ only in their options print alike |
| FilterSelection.BlanksEnd | filter/filter_selection.py:63 | the run of blanks from a position ends at the first character that is not blank, or at the end |
| FilterSelection.BlanksStart | filter/filter_selection.py:63 | the run of blanks up to a position starts after the last character that is not blank, not going below the bound |
| FilterSelection.Strip | filter/filter_selection.py:63 | the result is a slice of the line with only blanks before and after it, and no blank at either of its ends |
| FilterSelection.StripBlanks | filter/filter_selection.py:63 | blanks around a text with no blank at either end are exactly what is removed |
| FilterSelection.Lower | filter/filter_selection.py:63 | the same length; an upper-case letter moves 32 code points on, any other character stays, and no upper-case letter is left |
| FilterSelection.LowerIdempotent | filter/filter_selection.py:63 | lowering twice is lowering once |
| FilterSelection.ParseDecimal | filter/filter_selection.py:67-68 | `int` of a printed index is that index |
| FilterSelection.PrintedIndexParses | filter/filter_selection.py:59-68 | typing back a printed menu index, with any blanks before and after it, selects that index |
| FilterSelection.Available | filter/filter_selection.py:57-58 | the indices of exactly the filters with values and not hidden, increasing |
| FilterSelection.MarkAtGrows | filter/filter_selection.py:104-112 | marking an option never unmarks one or changes anything else |
| FilterSelection.OptionSession | filter/filter_selection.py:89-121 | the options loop keeps the number of options, only consumes lines, and returns at once for a filter without values |
| FilterSelection.OptionSessionGrows | filter/filter_selection.py:89-121 | the options loop only sets flags and its rest is a suffix of the input |
| FilterSelection.ShowFiltersSpec | filter/filter_selection.py:46-77 | the attribute count is kept; a returned filter is a valid index; running out of input returns no filter |
| FilterSelection.PickFilter | filter/filter_selection.py:67-77 | the same for one line already read |
| FilterSelection.ShowFiltersQuit | filter/filter_selection.py:63-65 | `q`, in any case and with blanks, returns None and changes nothing |
| FilterSelection.ShowFiltersInvalid | filter/filter_selection.py:67-77 | a line that is no listed position returns None and changes nothing |
| FilterSelection.ShowFiltersStep | filter/filter_selection.py:63-68 | a line other than `q` is read as a position in the list |
| FilterSelection.PickFilterAt | filter/filter_selection.py:67-72 | a listed position marks that filter, runs its options loop and returns it unless the input runs out |
| FilterSelection.ShowFiltersPicks | filter/filter_selection.py:67-72 | position i marks the i-th listed filter, runs its options loop on the following lines and returns it unless the input runs out |
| FilterSelection.PickFilterGrows | filter/filter_selection.py:67-77 | picking only sets flags and consumes lines, and a returned filter was listed and is now marked |
| FilterSelection.ShowFiltersGrows | filter/filter_selection.py:46-77 | the same for a whole `show_filters` call |
| FilterSelection.ChooseLoopGrows | filter/filter_selection.py:31-39 | the dialogue never unmarks, reorders or drops anything and only consumes lines |
| FilterSelection.PickedAreMarked | filter/filter_selection.py:33-37 | every collected filter was listed and is marked when the dialogue ends |
| FilterSelection.SelectionHandler.constructor | filter/filter_selection.py:18-19 | the selection starts empty |
| FilterSelection.SelectionHandler.MarkOption | filter/filter_selection.py:104-116 | on the stripped, lowered line, a valid 1-based position marks that option and nothing else; an option already marked, or any other line, changes nothing |
| FilterSelection.SelectionHandler.ChooseOptions | filter/filter_selection.py:79-121 | the array changes only in that filter's options, as the options loop says; the same filter index is returned, or EOFError when the input runs out |
| FilterSelection.SelectionHandler.ShowFilters | filter/filter_selection.py:46-77 | the array and the result are those `show_filters` gives on these lines; EOFError when the input runs out |
| FilterSelection.SelectionHandler.Choose | filter/filter_selection.py:21-44 | `[]` for no attributes; otherwise each picked filter is appended to `selection` in order until none is picked and `selection` is returned; input running out gives None, with what was appended kept |
| ConsoleControl.SelectedIds | request/meli/user_controls/console_uc.py:106-107 | empty exactly when no option is marked |
| ConsoleControl.QueryStep | request/meli/user_controls/console_uc.py:106-112 | one pass of the loop keeps the leading `?` |
| ConsoleControl.QueryOf | request/meli/user_controls/console_uc.py:104-113 | the query always starts with `?` |
| ConsoleControl.GenerateQuery | request/meli/user_controls/console_uc.py:93-113 | the loop builds exactly the query `QueryOf` describes |
| ConsoleControl.ContributionNonEmpty | request/meli/user_controls/console_uc.py:111-112 | a contribution is never empty |
| ConsoleControl.BareQueryIffNothingMarked | request/meli/user_controls/console_uc.py:104-113 | the query is exactly `?` when no filter has a marked option, and longer otherwise |
| ConsoleControl.QueryEndsWithLastContribution | request/meli/user_controls/console_uc.py:109-112 | the query ends as the last contribution ends |
| ConsoleControl.QueryIsIntended | request/meli/user_controls/console_uc.py:105-112 | unless a contribution ends in `?`, the query is `?` and the contributions (`id=` and the marked option ids joined by `,`, in filter order) joined by `&` |
| ConsoleControl.QuestionMarkSwallowsSeparator | request/meli/user_controls/console_uc.py:109-110 | with an option id ending in `?`, the next contribution follows without `&` |
| ConsoleControl.UserRequest | request/meli/user_controls/console_uc.py:35-66 | `q` returns (None, None); otherwise the URL gets the query of all attributes when the dialogue collected a filter, then `&q=` and the keyword, and is requested with the settings header; input running out before the keyword is read, or a failed GET, is SelectionError; input running out during the filter dialogue is caught there, and the request is still sent |
| Transform.Extend | etl/transform.py:51-52 | appending names keeps the old columns as a prefix and adds at most one column per name |
| Transform.ExtendKeepsDistinct | etl/transform.py:51-52 | appending only absent names keeps the columns free of duplicates |
| Transform.ExtendMembers | etl/transform.py:51-52 | the columns afterwards are exactly the old ones and the names |
| Transform.ExtendFirstAppearance | etl/transform.py:51-52 | appended columns are names, in the order the names first appear |
| Transform.PutKeepsWellFormed | etl/transform.py:49 | setting a key keeps every key listed once and with a cell |
| Transform.FillKeys | etl/transform.py:46-49 | a filled row's keys are its old keys followed by the new attribute names, each with a cell |
| Transform.FillLastWins | etl/transform.py:46-49 | a cell holds the value of the last attribute with that name |
| Transform.FillUntouched | etl/transform.py:46-49 | a key no attribute names keeps its value |
| Transform.RowOfContents | etl/transform.py:39-49 | a row has the fixed fields and then the attribute names in first-appearance order, and the last attribute of a name wins, fixed columns included |
| Transform.RowOfFixedField | etl/transform.py:39-44 | a fixed field no attribute overrides keeps the result's value |
| Transform.RowKeysOf | etl/transform.py:39-49 | a row's keys are exactly the fixed fields and the attribute names |
| Transform.ConcatRow | etl/transform.py:54-55 | concatenation adds exactly one row |
| Transform.FrameAfter | etl/transform.py:38-55 | the table after the loop has one more row per result |
| Transform.ConcatColumnsCover | etl/transform.py:54-55 | the concatenated table keeps its old columns and has one for each key of each row |
| Transform.Select | etl/transform.py:57 | KeyError unless every requested column exists; otherwise exactly those columns and the same number of rows |
| Transform.ColumnsOfContents | etl/transform.py:36-52 | the columns are free of duplicates, start with the four fixed ones, and hold exactly those and the attribute names |
| Transform.ColumnsInFirstAppearanceOrder | etl/transform.py:36-52 | the attribute columns come in the order their names first appear |
| Transform.SelectionSucceeds | etl/transform.py:54-57 | with at least one result the column selection cannot raise |
| Transform.EmptyResultsOnFreshTableFail | etl/transform.py:57 | no results on a fresh table: the selection raises KeyError and the table stays empty |
| Transform.RowKeysAreColumns | etl/transform.py:36-52 | every key of a result's row is a collected column |
| Transform.SelectKeepsCoveredRow | etl/transform.py:57 | selecting columns that cover a row leaves that row unchanged |
| Transform.SelectionKeepsRows | etl/transform.py:54-57 | after the selection the rows of the results are those the loop built |
| Transform.FreshTransformTable | etl/transform.py:36-57 | on a fresh table: success, exactly the collected columns, one unchanged row per result in order, a column a row lacks being a missing cell |
| Transform.Transformer.constructor | etl/transform.py:15-23 | the table starts empty |
| Transform.Transformer.Transform | etl/transform.py:25-59 | the nested loops leave the table and the result `TransformSpec` gives for the old table and the results |
| MeliAuth.AuthClient.constructor | auth/meli/auth.py:17-23 | the client keeps its store; key and cipher are unassigned |
| MeliAuth.AuthClient.Connection | auth/meli/auth.py:29-76 | the result, the POSTs and the new state are those of `ConnectionSpec` on the old state |
| MeliAuth.AuthClient.Finally | auth/meli/auth.py:47-76 | the same for the `finally` block, against `FinallySpec` |
| MeliAuth.AuthClient.Exchange | auth/meli/auth.py:61-70 | the same for the request, encryption, save and decryption, against `ExchangeSpec` |
| MeliAuth.ExchangeChanges | auth/meli/auth.py:61-70 | the exchange posts once and changes only the store, which changes exactly when it succeeds, by one sealed row |
| MeliAuth.FinallyChanges | auth/meli/auth.py:47-76 | the `finally` block changes only the store and the refresh payload, posts at most once, and saves only through the exchange |
| MeliAuth.RunChanges | auth/meli/auth.py:29-76 | the same for a whole run, after key setup |
| MeliAuth.RunKeepsEnvironment | auth/meli/auth.py:35-36 | a run does not touch the environment; `.env`, key and cipher are what key setup left |
| MeliAuth.SetupFailureIsNotHandled | auth/meli/auth.py:35-50 | a cipher that cannot be built ends the run in NotHandledError before any query or request |
| MeliAuth.MissingSecretKeyAlwaysFails | auth/security.py:28-36 | without SECRET_KEY a client whose key was never assigned fails every run, after a generated key is appended to `.env` |
| MeliAuth.FreshCredentialIsReused | auth/meli/auth.py:50-52 | a credential at most 6 hours old is decrypted and returned, with no request and nothing saved |
| MeliAuth.ExchangePosts | auth/meli/auth.py:61 | the exchange posts its form once to the token URL and leaves the payloads alone |
| MeliAuth.StaleCredentialIsRefreshed | auth/meli/auth.py:53-56 | an older credential's decrypted refresh token is written into the shared payload, which is posted once |
| MeliAuth.EmptyStoreAuthorizes | auth/meli/auth.py:38-60 | an empty store runs the authorization-code exchange, although `supervise` raised |
| MeliAuth.SuperviseFailureIsNotHandled | auth/meli/auth.py:40-50 | a failing freshness query leaves `supervise` unbound and ends the run in NotHandledError without a request |
| MeliAuth.CredentialFailureIsNotHandled | auth/meli/auth.py:38-76 | a failing credential read leaves `connection` unbound: NotHandledError, no request, the store unchanged |
| MeliAuth.AtMostOneSealedRowSaved | auth/meli/auth.py:61-70 | at most one POST and one new row; a row is saved only by a successful run, with the next id, the default date, both tokens sealed under the key, and an access token that opens to the returned one |
| MeliAuth.RunReachesExchange | auth/meli/auth.py:35-61 | a run that posted built its cipher and went through the exchange, from the same store, counter and date default |
| MeliAuth.ExchangeUnreadable | auth/meli/auth.py:61 | a network fault or a non-object 200 body in the exchange is AuthenticationError, with nothing saved |
| MeliAuth.ExchangeRejected | auth/meli/auth.py:61 | a status other than 200 in the exchange is NotHandledError, with nothing saved |
| MeliAuth.ExchangeAccepted | auth/meli/auth.py:61-70 | a 200 object with two string tokens: the access token and one sealed row on a good save, DataBaseError and nothing saved on a failing one |
| MeliAuth.ExchangeNonText | auth/meli/auth.py:61 | a 200 object with a token that is not a string is NotHandledError, with nothing saved |
| MeliAuth.NetworkFaultIsAuthenticationError | auth/meli/auth.py:61-74 | a network fault or a non-object body during the exchange is AuthenticationError, with nothing saved |
| MeliAuth.RejectedReplyIsNotHandled | auth/meli/auth.py:61-76 | a status other than 200 ends in NotHandledError, not "Connection failed.", with nothing saved |
| MeliAuth.AcceptedReplyIsSaved | auth/meli/auth.py:61-70 | any 200 reply whose body is a JSON object with string or absent tokens, whatever other fields it has, returns the new access token and appends exactly one row holding both tokens encrypted |
| MeliAuth.SaveFailureIsDataBaseError | auth/meli/auth.py:68-72 | the same reply with a failing save ends in DataBaseError with nothing saved |
| MeliAuth.NonTextTokenIsNotHandled | auth/meli/auth.py:61-76 | a 200 object whose access or refresh token is null or not a string cannot be encrypted: NotHandledError, with nothing saved |
| MeliAuth.OnlyHandledErrorsEscape | auth/meli/auth.py:71-76 | only NotHandledError, AuthenticationError and DataBaseError reach the caller |
| MeliAuth.RerunReusesSavedCredential | auth/meli/auth.py:50-70 | a second run within 6 hours of a run that saved a credential returns the same token without a request and changes nothing |
| MeliAuth.FreshWorldIsStable | auth/meli/auth.py:50-52 | a run on a set-up world with a fresh, openable latest row returns its token and changes nothing |
| MeliAuth.AppendKeepsIdsIncreasing | database/models/connection.py:10 | appending a row with an id above all others keeps ids increasing |

## Left out

- The HTTP, network and JSON layers are not modelled.
  - The token endpoint's reply is an input.
  - The attributes `get_attrs` fetches for a keyword are an input array, or null when
    it failed (`CategoryPredictor`/`CategoryAttributes` network calls,
    request/meli/user_controls/console_uc.py:68-91).
  - The search GET's outcome is an input.
- Fernet internals are not modelled: AES, HMAC, random IVs and timestamps inside
  tokens, and bytes versus str. Ciphertext is the symbol `Sealed(key, plain)`.
- Key generation and the clock are inputs. `asyncio` is treated as one blocking step.
- SQLAlchemy sessions are not modelled: the store is a row sequence and each call's
  failure is an input. The request audit log (`database/models/request.py`) and
  `session_commit` are not part of this model.
- `print`, `input` and `logging` are not modelled. Console input is a sequence of lines
  and output is dropped, including `print(df)` at the end of `transform`.
- A reply, result or attribute missing a key the code indexes would raise KeyError;
  the model's records always have their fields.
- A `values` list or an attribute list that is not a list is not modelled.
- FilterSelection.Strip: only the ASCII whitespace `str.strip` removes is modelled, not
  Unicode spaces.
- Security.BuildFernet: only the padded 44-character form of a 32-byte key is modelled:
  43 base64 characters, from either alphabet, and one `=`. Keys that
  `urlsafe_b64decode` accepts after discarding characters outside the alphabet, or with
  other padding, are ConfigError here.
- AuthStatus.MeliAuthRequests.constructor: requires the four variables to load. A missing
  CLIENT_ID, CLIENT_SECRET, REDIRECT_URI or CODE raises ConfigError while auth_status.py
  is imported (auth/meli/auth_status.py:115-116, 126-127), before any client exists.
- FilterSchemas.FilterStr: the class name is always `FilterBase`, since no subclass is
  part of this model. The items' text, Python's `repr` of the values, is defined but not
  proved against a field-by-field rendering. Strings are always rendered between single
  quotes: a value holding a quote, a backslash or an unprintable character, which
  `repr` quotes differently or escapes (`"it's"`), prints differently here.
- The declared length `String(200)` of the token columns is not modelled: the store
  keeps tokens of any length.
- FilterSelection.Lower: only ASCII letters are lowered, not Unicode case mapping.
- FilterSelection.ParseInt: digits are ASCII only, and underscores between digits
  (accepted by `int`) are rejected.
- ConsoleControl.UserRequest: the `while True` is not a loop, because every pass
  returns or raises.
- Transform.Transformer.Transform: pandas dtypes and NaN are not modelled; a missing
  cell is a key absent from a row's map.
- Concurrent runs are not modelled: the code has no locking, and two runs racing on
  the store are outside the model.
