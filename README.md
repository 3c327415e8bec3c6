# Runtime configuration of the chat backend

This project models the runtime configuration record of the chat backend
(`src/config.ts`). The record holds seven string settings: the store address,
the token secret, the environment tag, two session-signing keys, the allowed
client origin and the broker address. They are read from the process
environment once at startup.

- **Loading with defaults.** Each setting is `process.env.X || fallback`. An
  unset variable and an empty one both fall back. `DATABASE_URL` falls back to
  `mongodb://localhost:27017/chattyapp-backend`, `JWT_TOKEN` to `1234`, and the
  other five to the empty string. The environment is a `map<string, string>`;
  a key that is not in the map is an unset variable. JavaScript `||` on a
  `string | undefined` is `RuntimeConfig.Or`: only a non-empty string is truthy.
- **Validation.** `validateConfig` walks `Object.entries(this)` in order and
  throws `Configuration <key> is undefinded.` (the source's spelling) for the
  first entry whose value is `undefined`. The model is `Config.ValidateConfig`,
  a loop over the entry sequence `Config.Entries()`. It returns
  `Passed`, or `Threw(message)` for the thrown error. It is proved equal to the
  pure `Validation`.

`Config` is a class because the source object has public, mutable fields of
type `string | undefined`. Each field is an `Option<string>`, so the validator
has something to reject in general. The private read-only `DEFAULT_DATABASE_URL`
is a plain `string` constant of the object, so its entry is always defined.

What the model proves:

- every setting equals the environment value when it is set and non-empty, and
  equals its fallback otherwise; an empty value and a missing one give the same
  setting;
- the validator throws exactly when some entry is undefined, and its message
  names the first such key;
- empty strings pass validation;
- on a freshly built `Config`, validation passes for every environment,
  including one where every variable is unset or empty;
- validation changes no field, so a second call gives the same outcome as the
  first.

### What validation actually guards against

The comment above `validateConfig` (src/config.ts:41-42) says it is meant to
make sure the environment variables actually exist. The code does less. Every
field is assigned `process.env.X || fallback` (src/config.ts:24-30), which is
always a string, and `JWT_TOKEN` even gets the non-empty default `1234`. The
validator rejects only `undefined` (src/config.ts:45). So on the object the
program builds, validation never throws: an empty or missing
`SECRET_KEY_ONE` or `CLIENT_URL` does not make `validateConfig` throw, so the
startup check at src/app.ts:17 never stops the program. What the rest of the
server then does with an empty value is not part of this model. The model follows the
code: `RuntimeConfig.LoadAndValidate` proves validation always passes after
construction, and `RuntimeConfig.EmptyValuesPass` proves that an empty value
is treated like any other defined value.

### Entry order

`Object.entries` lists own properties in creation order. The order
`Config.Entries()` uses is the one a TypeScript build produces when declared
fields without initialisers emit no code: the initialised `DEFAULT_DATABASE_URL`
comes first, then the seven settings in the order the constructor assigns them.
With define-semantics class fields the private default would come last. The
choice does not matter: the private default is always defined, and
`RuntimeConfig.DefinedEntryPositionIrrelevant` proves that a defined entry
placed first or last leaves both the outcome and the message unchanged.

## Model

| member | source | states |
|---|---|---|
| `RuntimeConfig.Setting` | src/config.ts:24-30 | `env[key] || fallback`: the environment value when the variable is set and non-empty, the fallback when it is unset or empty; an empty result means the fallback was empty |
| `RuntimeConfig.EmptySameAsUnset` | src/config.ts:26-30 | a variable set to the empty string and an unset variable give the same setting, the fallback |
| `RuntimeConfig.SettingIgnoresOtherVariables` | src/config.ts:24-30 | a setting depends on its own environment variable only |
| `RuntimeConfig.Config.constructor` | src/config.ts:20-31 | the private default is the MongoDB URL; `DATABASE_URL` falls back to it, `JWT_TOKEN` to `1234`, the other five to the empty string; no field is undefined afterwards |
| `RuntimeConfig.FirstUndefined` | src/config.ts:44-46 | the position of the first undefined entry: that entry is undefined and all before it are defined; none exactly when every entry is defined |
| `RuntimeConfig.Config.Entries` | src/config.ts:11-20 | `Object.entries(this)` (line 44): eight entries, the always-defined private default first, then the seven settings in declaration and assignment order; every entry is defined exactly when every field is |
| `RuntimeConfig.Config.ValidateConfig` | src/config.ts:43-49 | the loop's outcome equals the pure validation of the entries; it passes exactly when every entry is defined, exactly when every field is defined; when it throws, the message names the first undefined key |
| `RuntimeConfig.UndefinedMessage` | src/config.ts:46 | the message is `Configuration ` followed by the key followed by ` is undefinded.`, so the key can be read back from it |
| `RuntimeConfig.Validation` | src/config.ts:43-48 | validation passes if and only if no entry is undefined; when it throws, the message is `Configuration <key> is undefinded.` for the first undefined key in entry order |
| `RuntimeConfig.SameDefinednessSameValidation` | src/config.ts:44-46 | two entry sequences with the same keys and the same defined positions find the same first undefined entry and validate alike: the scan looks at nothing else |
| `RuntimeConfig.EmptyValuesPass` | src/config.ts:45 | replacing any defined value by the empty string never changes the outcome: an empty string counts as defined and only `undefined` is rejected |
| `RuntimeConfig.DefinedEntryPositionIrrelevant` | src/config.ts:20 | a defined entry such as the private default, placed first or last among the entries, leaves the outcome and the message unchanged |
| `RuntimeConfig.LoadAndValidate` | src/config.ts:22-51 | building the configuration from any environment and validating it always passes |
| `RuntimeConfig.Config.ValidateConfigTwice` | src/config.ts:43-49 | validation changes no field, so a second call gives the same outcome as the first |

## Left out

- `dotenv.config({})` (src/config.ts:9) reads a `.env` file from disk. This is file I/O; its effect is taken to be already merged into the environment map.
- `createLogger` (src/config.ts:37-39) is a thin wrapper over the bunyan logging library, which is not part of this model.
- The thrown value is modelled by its message only. The `Error` object's stack and the exception's propagation out of the application's startup are not modelled.
- `src/setupServer.ts`, `src/setupDatabase.ts` and `src/app.ts` are not part of this model. They register middleware of third-party libraries, open network connections, react to connection events and order the startup calls; none of this is logic of the configuration record.
