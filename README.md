# A verified model of the service's configuration loading and request-error handling

This project models the part of the Go HTTP service that needs no
infrastructure:

- **Configuration loading** (`config/config.go`). `LoadConfig` creates a
  viper instance and registers 44 defaults. It then reads an optional config
  file and decodes the merged settings into the `Config` record tree.
  - A missing file is tolerated.
  - Any other read error is returned, with no configuration.
  - A decoding error is returned, with no configuration.
- **Error responses** (`pkg/web/err.go`). `ErrorResponder` looks along an
  error's wrap chain for a fault of the `fault` library. If it finds one, the
  fault's code picks the HTTP status, and the fault's message and context
  form the JSON body. Any other error is logged and answered with a fixed
  500 body.
- **Validation shaping** (`pkg/validator/validator.go`). `Validate` turns
  the validation library's list of failed constraints into response records.
  Each record holds the lowercased field name and a fixed-format message.
- **Logger options** (`pkg/logger/slog.go`). `NewSlogLogger` maps the
  configured level name to a slog level. The match is exact and
  case-sensitive, and anything else selects Info. Source positions are always
  recorded.

Files:

| file | module | contents |
|---|---|---|
| `wrappers.dfy` | `Wrappers` | `Option` and `Result` |
| `config.dfy` | `Config` | the record types, keys and values; the default table; `Unmarshal`; the `Viper` class; `LoadConfig` |
| `web_err.dfy` | `Web` | faults and wrapped errors; `errors.As`; the status mapping; `ErrorResponder` |
| `validator.dfy` | `Validator` | `strings.ToLower`, the message format, `Validate` |
| `logger.dfy` | `Logger` | the level switch and the handler options |

How the model represents the source:

- **Keys.** A configuration key is a section constructor applied to a leaf,
  for example `Api(ApiPort)`. `KeyPath` gives viper's dotted name for it
  (`server.api.port`).
- **Values.** A value carries its kind: int, string, bool, string list or
  duration.
- **Durations.** A duration is Go's `time.Duration`, an integer count of
  nanoseconds. The source gives duration defaults as strings such as `"5s"`.
  The model stores them already decoded: `5 * Second`.
- **The viper instance.** `Viper` is a class with two maps: the defaults
  layer and the config-file layer. `SetDefault` updates the defaults in
  place.
- **The 44 defaults.** The `SetDefault` calls are made section by section.
  Each of `SetUserDefaults` … `SetRedisDefaults` takes the table from one
  named stage (`DefaultsThroughUser` …) to the next, and `NewDefaultViper`
  makes all nine in the source's order.
- **External results become parameters.** Reading the file is
  `ReadOutcome`. The validation library's result on a struct is
  `StructResult`.

## Model

| member | source | states |
|---|---|---|
| `Config.Viper.constructor` | config/config.go:98 | A new instance has no defaults and no file values. |
| `Config.Viper.SetDefault` | config/config.go:100-143 | One `SetDefault` call sets exactly that key's default. All other defaults and the file layer are unchanged. |
| `Config.Viper.SetConfigValues` | config/config.go:154 | A successful read replaces the file layer. The defaults are unchanged. |
| `Config.Viper.AllSettings` | config/config.go:161 | The effective keys are the union of the two layers. A file value wins over the default for the same key. |
| `Config.SetUserDefaults` | config/config.go:100-101 | The two `user` calls extend an empty table to stage `DefaultsThroughUser`. The file layer is unchanged. |
| `Config.SetGeneralDefaults` | config/config.go:102-103 | The `general` calls take the table from the previous stage to the next. |
| `Config.SetLogDefaults` | config/config.go:104 | The `logger.level` call takes the table from the previous stage to the next. |
| `Config.SetApiDefaults` | config/config.go:105-111 | The seven `server.api` calls take the table from the previous stage to the next. |
| `Config.SetCorsDefaults` | config/config.go:112-116 | The five `server.cors` calls take the table from the previous stage to the next. |
| `Config.SetDbDefaults` | config/config.go:117-129 | The thirteen `db` calls take the table from the previous stage to the next. |
| `Config.SetGooseDefaults` | config/config.go:130-132 | The three `goose` calls take the table from the previous stage to the next. |
| `Config.SetRabbitMQDefaults` | config/config.go:133-137 | The five `rabbitmq` calls take the table from the previous stage to the next. |
| `Config.SetRedisDefaults` | config/config.go:138-143 | The six `redis` calls take the table from the previous stage to the final default table. |
| `Config.NewDefaultViper` | config/config.go:98-143 | A fresh instance whose defaults are exactly `DefaultTable` and whose file layer is empty. |
| `Config.KeyPath` | config/config.go:100-143 | The dotted viper key of each setting, as the source passes it to `SetDefault`. |
| `Config.KeyPathRoundTrip` | config/config.go:100-143 | Looking up a setting's dotted key finds that setting again. |
| `Config.KeyPathInjective` | config/config.go:100-143 | Two settings have the same dotted key exactly when they are the same setting, so the 44 keys are 44 different strings. |
| `Config.KeyKind` | config/config.go:21-95 | The kind of each key is the Go type of the struct field its mapstructure tag names: int, string, bool, string list or `time.Duration`. |
| `Config.Field` | config/config.go:10-95 | The value of a configuration's struct field named by each key. |
| `Config.Lookup` | config/config.go:161 | What decoding puts in a key's field: the setting, or the zero value when the key has no setting. When the setting fits, the result has the field's kind. |
| `Config.Build` | config/config.go:161 | The configuration whose every field holds its key's setting. `Config.BuildFields` proves that each field holds `Lookup` of its key. |
| `Config.BuildFields` | config/config.go:161 | Every field of the built configuration holds its key's setting, or the zero value for an absent key. |
| `Config.DefaultTableEntry` | config/config.go:100-143 | Every one of the 44 keys has a default, and it equals that key's field in `DefaultConfig`. |
| `Config.DefaultTableIsTable` | config/config.go:100-143 | The default table is the settings table of `DefaultConfig`: same keys, same values. |
| `Config.FirstUndecodable` | config/config.go:160-163 | Finds the first key, in field order, whose setting does not fit its field. None means every key fits. |
| `Config.Unmarshal` | config/config.go:160-163 | Decoding succeeds exactly when every setting has its field's kind. On success each field holds its setting, or the zero value when the key is absent. On failure it names a key whose setting does not fit. |
| `Config.ZeroValue` | config/config.go:10-95 | The zero value of a field has that field's kind. |
| `Config.FieldKind` | config/config.go:10-95 | Every field of the record tree has the kind of its key. |
| `Config.FieldsDetermine` | config/config.go:10-95 | Two configurations with the same value under every key are equal. |
| `Config.Table` | config/config.go:10-95 | The settings table of a configuration holds every key, each with its field. |
| `Config.UnmarshalTable` | config/config.go:160-163 | Decoding a configuration's own settings table gives back that configuration (round trip). |
| `Config.DefaultApiSettings` | config/config.go:105-111 | Decoding the defaults gives API host 0.0.0.0, port 8080, rate limit 100, timeouts 5 s, 10 s and 120 s, and a body limit of 1048576. |
| `Config.DefaultCorsSettings` | config/config.go:112-116 | Decoding the defaults gives origins `*`, methods GET and POST, headers Content-Type and Authorization, no exposed headers, and credentials allowed. |
| `Config.DefaultDbPoolSettings` | config/config.go:124-129 | Decoding the defaults gives at most 10 open and 5 idle connections, so idle ≤ open. Lifetime is 1 h, idle time 10 min, query timeout 5 s, exec timeout 3 s. |
| `Config.DefaultLoggerLevel` | config/config.go:104 | Decoding the defaults gives logger level "info". |
| `Config.ApplyDefaults` | config/config.go:100-143 | A run of `SetDefault` calls: the resulting keys are the starting keys plus the key of every call. |
| `Config.ApplyDistinct` | config/config.go:100-143 | If no key is set twice, each call's key ends with that call's value, and every other key keeps its earlier value. |
| `Config.AnyOrderGivesTable` | config/config.go:100-143 | Setting each entry of a table exactly once, in any order, lays that table over the starting defaults. |
| `Config.PermutationKeepsDistinct` | config/config.go:100-143 | Reordering calls that set no key twice still sets no key twice. |
| `Config.OrderIrrelevant` | config/config.go:100-143 | Two orders of the same calls, with no key set twice, give identical defaults. |
| `Config.FieldOrderDistinct` | config/config.go:10-95 | No key occurs twice in the field order. |
| `Config.DefaultCallsDistinct` | config/config.go:100-143 | `DefaultCalls` is the list of `LoadConfig`'s 44 calls: each key, in the source's order, with its default. No key is set twice. |
| `Config.DefaultCallsBuildTable` | config/config.go:100-143 | `LoadConfig`'s calls, made in the source's order, build `DefaultTable`. |
| `Config.DefaultsInAnyOrder` | config/config.go:100-143 | Those same calls in any order build the same `DefaultTable`. |
| `Config.FileOverridesDefaults` | config/config.go:154-163 | When decoding the defaults with a file laid over them succeeds, each key holds the file's value if the file sets it, and its default otherwise. |
| `Config.WellKindedFileDecodes` | config/config.go:154-163 | A file whose every value fits its key's kind always decodes. |
| `Config.LoadConfig` | config/config.go:97-166 | A read failure other than a missing file returns that error. A missing file returns exactly `DefaultConfig`. A found file returns the decoding of the defaults with the file's values laid over them, so each field holds the file's value or its default. The only failures are a read error and a decoding error raised for a file. |
| `Web.Chain` | pkg/web/err.go:19 | The chain that `errors.As` inspects starts with the error itself. |
| `Web.AsFault` | pkg/web/err.go:18-19 | None exactly when no link of the chain is a fault. Otherwise the result is a fault in the chain with no fault before it. |
| `Web.StatusOf` | pkg/web/err.go:34-49 | Conflict gives 409. Invalid and DomainViolation give 400. NotFound gives 404, Unauthorized 401, Forbidden 403, any other code 500. Each status holds exactly for its codes (both directions), and the result is always one of the six statuses. |
| `Web.NamedCodesAreClientErrors` | pkg/web/err.go:34-49 | The status is 4xx exactly when the code is one the switch names. |
| `Web.ErrorResponder` | pkg/web/err.go:17-32 | Exactly one response, with a status among the six and no details. With a fault: the fault's code picks the status, the body carries the fault's message and context, and nothing is logged. Without a fault: the fixed 500 body, and one log entry carrying the error. |
| `Web.WrapAll` | pkg/web/err.go:19 | Wrapping an error in n messages lengthens its chain by n. |
| `Web.WrappingKeepsResponse` | pkg/web/err.go:17-32 | Wrapping an error any number of times changes neither the fault found nor the response. |
| `Web.FaultResponse` | pkg/web/err.go:18-26 | A fault, however deeply wrapped and whatever it wraps, answers with its own code, message and context, and logs nothing. |
| `Web.InternalErrorsLookAlike` | pkg/web/err.go:29-31 | Any two errors without a fault get the same 500 response, and each is logged once with the error itself. |
| `Web.InternalResponseMeansNoFault` | pkg/web/err.go:17-32 | Something is logged exactly when the chain holds no fault. |
| `Validator.LowerChar` | pkg/validator/validator.go:34 | Every upper-case ASCII letter is mapped to its lower-case letter (code + 32). All other characters are unchanged. |
| `Validator.ToLower` | pkg/validator/validator.go:34 | Lowercasing keeps the length and lowercases each character. |
| `Validator.ToLowerHasNoUpper` | pkg/validator/validator.go:34 | A lowercased name has no upper-case letter. |
| `Validator.ToLowerIdempotent` | pkg/validator/validator.go:34 | Lowercasing twice is the same as lowercasing once. |
| `Validator.Message` | pkg/validator/validator.go:35 | The message's length is the template's length plus the field's and the tag's. |
| `Validator.MessageParts` | pkg/validator/validator.go:35 | The message is "field validation for '", the field, "' failed on the '", the tag, then "' tag", each at its position. |
| `Validator.MessageInjective` | pkg/validator/validator.go:35 | Equal messages about fields of equal length come from the same field and tag. |
| `Validator.Shape` | pkg/validator/validator.go:34-36 | A record's field is the lowercased library field, and its message is built from that lowercased field and the tag. |
| `Validator.ShapeAll` | pkg/validator/validator.go:33-37 | One record per library error, in the same order. |
| `Validator.ShapeAllAppend` | pkg/validator/validator.go:33-37 | Shaping a concatenation gives the concatenation of the shaped parts. |
| `Validator.ShapedFieldsAreLower` | pkg/validator/validator.go:34-36 | Every record's field is already lower case. |
| `Validator.Validate` | pkg/validator/validator.go:25-40 | Nil from the library gives an empty list. A list of field errors gives exactly `ShapeAll` of it: same length, same order, each record shaped. Any other error is excluded because the source panics on it. |
| `Logger.ParseLevel` | pkg/logger/slog.go:13-24 | "debug", "warn" and "error" select their own levels, both directions. Every other string, "info" included, selects Info. |
| `Logger.ParseLevelName` | pkg/logger/slog.go:13-24 | Each level is selected by its own name. |
| `Logger.NamesAreExact` | pkg/logger/slog.go:13-24 | Parsing a name and printing the level back gives the same string exactly for the four level names. |
| `Logger.UpperCaseNamesSelectInfo` | pkg/logger/slog.go:13-24 | The match is case-sensitive: any name with an upper-case letter, such as "DEBUG", selects Info. |
| `Logger.Severity` | pkg/logger/slog.go:15-23 | slog's integer value of each level: Debug -4, Info 0, Warn 4, Error 8. |
| `Logger.Enabled` | pkg/logger/slog.go:28 | A handler records a level exactly when the level's severity is at least the configured level's. |
| `Logger.InfoDropsOnlyDebug` | pkg/logger/slog.go:28 | A handler at level Info records every level except Debug. |
| `Logger.NewHandlerOptions` | pkg/logger/slog.go:26-29 | `AddSource` is always true, and the level is the one the switch selects. |
| `Logger.DefaultLoggerLevelIsInfo` | pkg/logger/slog.go:26-29 | With the default configuration, the level is Info, so the logger records Info, Warn and Error and drops Debug. |

## Left out

- Environment overrides (config/config.go:149-152: `SetEnvPrefix`, `SetEnvKeyReplacer`, `AutomaticEnv`, `AllowEmptyEnv`) are not modelled. In the source an `APP_…` variable outranks both the file and the defaults.
- Finding the config file (config/config.go:145-147: name, type and search path) is not modelled. That is viper's own logic.
- Reading the file is an input (`ReadOutcome`): found with its settings, not found, or failed with a reason. Parsing `.env` syntax is not modelled.
- Config.Unmarshal: mapstructure's weak typing is not modelled. Under it, a string "8080" from an env file can still fill an int field, and "5s" can fill a duration. The model requires every value to have its field's kind already.
- Config.Unmarshal: only the first misfitting key, in field order, is reported. mapstructure collects every misfitting field into one error.
- Viper's string-to-duration decoding is not modelled: duration defaults are stored already decoded.
- Viper's case-insensitive key handling is not modelled: keys are distinct constructors, and `ParseKeyPath` matches a dotted key exactly.
- Go's 64-bit `int` and `time.Duration` widths are not modelled: integers are unbounded. No default comes near the limits.
- Validator.LowerChar: only the ASCII letters 'A'–'Z' are mapped. Other characters are returned unchanged, but Go's `unicode.ToLower` maps non-ASCII capitals as well, for example 'É' to 'é'.
- Validator.ToLower: only ASCII letters are lowercased. Go's `strings.ToLower` uses Unicode case mapping.
- The validation library is not modelled (`validator.New`, `Validate.Struct`): its result on a struct is a parameter (`StructResult`). Validator.Validate requires that result not to be some other error, because the source's type assertion panics on it.
- Web.ErrorResponder does not model `RespondJSON` (pkg/web/err.go:25, 31): JSON encoding, the Content-Type header, writing the body, and logging a failed encode. The response is returned as a value, and the log is a list of entries.
- A nil `err` is not modelled: Go's nil interface has no counterpart in `Error`. In the source it takes the 500 branch, the same as an error without a fault.
- Errors that join several errors (`Unwrap() []error`) are not modelled: `errors.As` only walks a single chain of wrapped errors.
- The context values of a fault, Go's `any`, are modelled as strings. `Details` is never set by `ErrorResponder`, so it is always absent.
- The slog JSON handler and its output to standard output (pkg/logger/slog.go:31-33) are not modelled, because they are I/O. Only the handler options are.
- `main.go`, `container.go` (dependency wiring by dig, startup and shutdown concurrency), the PostgreSQL and Redis clients, the chi router, its middleware, and the TypeScript files are not part of this model.
