# UniGasLogger client core, modelled in Dafny

UniGasLogger is a Unity client for a logging and ranking service backed by a Google Apps
Script (GAS) web app. This project models the part of the client that builds requests and
routes them. The network exchange itself is not modelled.

- **GasLoggerService** (module `GasLogger`) validates a typed record or a string-keyed
  dictionary. A typed record becomes a dictionary of its public properties. The dictionary
  becomes the POSTed form: `sheetName`, then `keys` (the field names joined by `,`), then one
  field per entry holding the value's text, with `"null"` for a null value. The service also
  writes the `[key] value, ...` debug line. A POST failure is logged and never rethrown.
- **RankingClientService** (module `RankingClient`) builds the two GET parameter lists
  (`sheetName`/`topCount` and `score`/`sheetName`) and hands them to the HTTP client. Errors
  from the client propagate. The score is an arbitrary-precision integer sent as its exact
  decimal text. Module `Decimal` holds the renderer, a parser and their round trip in both
  directions.
- **GasServiceManager** (module `ServiceManager`) is the scene facade.
  - `Awake` claims the static `Instance` or destroys the duplicate. Either way it wires both
    services to one new HTTP client.
  - The two `SendLog` overloads report null data and return.
  - The ranking calls are forwarded as they are.
  - `sheetName` defaults to null.
- **Editor GasSettingsService** (module `EditorSettings`) holds the asset path constants.
  `EnsureAssetPathExists` creates each missing folder on a `/`-separated path one level at a
  time. `UpdateSettings` ignores a null settings object.

Supporting modules:
- `Wrappers`: `Option` stands for a nullable reference, `Result` for a call that may throw.
- `Exceptions`: the exceptions the core throws or lets through.
- `Text`: `string.Join` and `string.Split(char)`. Joining a split gives back the string. Splitting a join gives back the pieces when there is at least one and none contains the separator.
- `Settings`: the GasSettings object and its `Init`.
- `Transport`: a stand-in for the HTTP client. It records each form it posts and each query
  it sends. A `failure` field decides whether an exchange fails.

Debug.Log output is returned as a sequence of `LogLine`s. A thrown exception is a
`Threw(exception)` outcome or an `Err` result.

The code behaves as follows where a reader might expect otherwise:
- The dictionary overload of `SendLog` accepts a null sheet name and posts `sheetName = ""`.
  Only the typed overload rejects it.
- The facade forwards an omitted sheet name as null. It does not fall back to a default
  sheet.
- `GetTopNRanking` forwards any `n`, zero and negative values included.
- `GetScoreRank` accepts any integer score, so a negative score is sent with a leading `-`.
- `Awake` passes the loaded settings, possibly null, to the client's constructor without
  checking them.

A `Dict` is a sequence of (key, value) pairs. The methods that receive a dictionary from
their caller require its keys to be distinct, as every C# `Dictionary` has them.

## Model

| member | source | states |
|---|---|---|
| GasLogger.Render | Unity/UniGasLogger/Core/Service/GasLoggerService.cs:78 | a null value is rendered as exactly "null"; a string as itself; an integer as the canonical decimal text that parses back to it; a boolean as "True" or "False"; any other object as its own text, or "null" when that is null |
| GasLogger.PutLookup | Unity/UniGasLogger/Core/Service/GasLoggerService.cs:44 | after `dict[k] = v`, k holds v and every other key holds what it held before |
| GasLogger.PutAllKeys | Unity/UniGasLogger/Core/Service/GasLoggerService.cs:41-45 | the dictionary built from the properties has distinct keys, and its key set is exactly the set of property names |
| GasLogger.PutAllLookup | Unity/UniGasLogger/Core/Service/GasLoggerService.cs:41-45 | each key of the built dictionary maps to the value of the last property of that name |
| GasLogger.PutAllDistinct | Unity/UniGasLogger/Core/Service/GasLoggerService.cs:41-45 | when the property names are distinct, the dictionary is the property list itself, in the same order |
| GasLogger.ToDictionary | Unity/UniGasLogger/Core/Service/GasLoggerService.cs:41-45 | the foreach loop builds the dictionary that PutAll specifies, and it is non-empty when there is a property |
| GasLogger.FormShape | Unity/UniGasLogger/Core/Service/GasLoggerService.cs:68-79 | the form has 2 + n fields: sheetName (or "" when null), then keys joined by ',', then one field per entry in enumeration order holding the value's text |
| GasLogger.KeysFieldRoundTrip | Unity/UniGasLogger/Core/Service/GasLoggerService.cs:71-72 | splitting the `keys` field at ',' gives back the keys in order, when no key contains ',' |
| GasLogger.TrimmedIsDebugLine | Unity/UniGasLogger/Core/Service/GasLoggerService.cs:74-86 | the accumulated text is longer than 2 exactly when there is an entry, and removing its last two characters leaves the `[key] value` items joined by ", " |
| GasLogger.BuildForm | Unity/UniGasLogger/Core/Service/GasLoggerService.cs:68-87 | the AddField loop produces exactly FormOf(data, sheetName); the text Debug.Log receives after the `Sending Log: ` prefix is the debug line, and nothing is logged for an empty dictionary |
| GasLogger.PayloadNonEmpty | Unity/UniGasLogger/Core/Service/GasLoggerService.cs:55-60 | PostData is reached only with a non-empty dictionary; the dictionary overload accepts data exactly when it is non-null and non-empty |
| GasLogger.TypedPayloadProperties | Unity/UniGasLogger/Core/Service/GasLoggerService.cs:20-48 | null data fails with ArgumentNull("data"); then a null sheet name fails with ArgumentNull("sheetName"); then zero properties fails with an argument error naming the type; otherwise the dictionary's keys are the property names, each holding its property's value |
| GasLogger.NullSheetNameAsymmetry | Unity/UniGasLogger/Core/Service/GasLoggerService.cs:27-30 | with a null sheet name the typed overload fails with ArgumentNull("sheetName"), while the dictionary overload accepts the data and posts sheetName "" |
| GasLogger.TypedRecordForm | Unity/UniGasLogger/Core/Service/GasLoggerService.cs:33-79 | for a record with distinct property names free of ',', the posted form lists the sheet name, the names (recoverable from `keys` by splitting), then each property's text in order |
| GasLogger.PlayLogForm | Unity/Samples/test_SendLog.cs:9-26 | the sample PlayLog sent to "Stage1Clear" posts keys "PlayerName,Score,IsClear", "Hero_Alpha", the score's decimal text and "True" |
| GasLogger.GasLoggerService.SendLog | Unity/UniGasLogger/Core/Service/GasLoggerService.cs:20-48 | a rejected record throws and posts nothing; an accepted one (all of whose property reads succeed) completes, posts the form of its property dictionary, and logs the debug line plus any contained failure |
| GasLogger.GasLoggerService.SendLogDictionary | Unity/UniGasLogger/Core/Service/GasLoggerService.cs:53-61 | a null or empty dictionary throws ArgumentNull("data") and posts nothing; otherwise the call completes and posts exactly one form |
| GasLogger.GasLoggerService.PostData | Unity/UniGasLogger/Core/Service/GasLoggerService.cs:66-97 | exactly one form, FormOf(data, sheetName), is posted; a failure of the POST becomes a logged error and the call still completes |
| Text.SplitJoin | Unity/UniGasLogger/Core/Service/GasLoggerService.cs:72 | splitting a join at the separator gives back the pieces, when no piece contains the separator |
| Text.JoinSplit | Unity/UniGasLogger/Editor/GasSettingsService.cs:70 | joining the pieces of a split with the separator gives back the original string |
| Text.SplitShape | Unity/UniGasLogger/Editor/GasSettingsService.cs:70-71 | splitting always yields at least one piece, so the `Length == 0` return is unreachable, and no piece contains the separator |
| Decimal.ParseShow | Scripts/Core/Service/RankingClientService.cs:41 | the decimal text of every integer, of any magnitude, parses back to the same integer |
| Decimal.ShowParse | Scripts/Core/Service/RankingClientService.cs:41 | a text is the rendering of i exactly when it is canonical (no leading zero, no "-0") and parses to i |
| Decimal.ShowNonNegative | Scripts/Core/Service/RankingClientService.cs:41 | a non-negative value renders as digits only, with a leading zero only for 0 |
| Decimal.ShowInjective | Scripts/Core/Service/RankingClientService.cs:41 | two different integers never render to the same text |
| RankingClient.TopNQuery | Scripts/Core/Service/RankingClientService.cs:24-28 | exactly two parameters: sheetName unchanged (possibly null), then topCount holding the canonical text that parses back to n |
| RankingClient.ScoreRankQuery | Scripts/Core/Service/RankingClientService.cs:39-43 | exactly two parameters: score holding the canonical text that parses back to the score, then sheetName unchanged |
| RankingClient.ScoreTextExact | Scripts/Core/Service/RankingClientService.cs:41 | the score parameter is the only canonical text that reads back as the score, and two queries carry the same score text only for equal scores |
| RankingClient.NonNegativeScoreText | Scripts/Core/Service/RankingClientService.cs:41 | a non-negative score is sent as digits only, with no sign, exponent or leading zero unless it is 0 |
| RankingClient.TopNQueryExample | Samples/test_Ranking.cs:13 | a top-5 query on "RankingSheet" sends sheetName "RankingSheet" and topCount "5" |
| RankingClient.RankingClientService.GetTopNRanking | Scripts/Core/Service/RankingClientService.cs:22-31 | sends TopNQuery(n, sheetName) for any n; a client failure propagates as an error; otherwise the client's reply is returned; nothing is posted |
| RankingClient.RankingClientService.GetScoreRank | Scripts/Core/Service/RankingClientService.cs:37-46 | sends ScoreRankQuery(score, sheetName); a client failure propagates as an error; otherwise the client's reply is returned; nothing is posted |
| ServiceManager.GasServiceManager.Awake | Unity/UniGasLogger/Runtime/GasServiceManager.cs:14-32 | the first manager takes the empty Instance slot and persists; a later one leaves the slot unchanged and is destroyed; both wire the two services to the same new client, built from the settings as given |
| ServiceManager.GasServiceManager.SendLog | Unity/UniGasLogger/Runtime/GasServiceManager.cs:39-48 | null data logs the error and completes without reaching the logger; other data is forwarded with the sheet name unchanged, so the default null sheet name makes a typed send fail |
| ServiceManager.GasServiceManager.SendLogDictionary | Unity/UniGasLogger/Runtime/GasServiceManager.cs:50-59 | null data logs the error and completes without posting; an empty dictionary passes the facade and fails in the service; a null sheet name posts "" |
| ServiceManager.GasServiceManager.GetTopNRanking | Unity/UniGasLogger/Runtime/GasServiceManager.cs:61-64 | n and sheetName reach the ranking service unchanged, and its result is returned as is |
| ServiceManager.GasServiceManager.GetScoreRanking | Unity/UniGasLogger/Runtime/GasServiceManager.cs:66-69 | the score and sheetName reach the ranking service unchanged, and its result is returned as is |
| EditorSettings.AssetPathValue | Unity/UniGasLogger/Editor/GasSettingsService.cs:9-13 | the asset path is exactly "Assets/Plugins/UniGasLogger/Resources/GasSettings.asset" |
| EditorSettings.EnsureAssetPathExists | Unity/UniGasLogger/Editor/GasSettingsService.cs:67-92 | the folder set gains exactly the prefixes of the first k >= 2 components, and CreateFolder is called, in order, for exactly the prefixes that were missing |
| EditorSettings.CreationsAreMissing | Unity/UniGasLogger/Editor/GasSettingsService.cs:83-87 | every folder created was missing before the call and lies on the path |
| EditorSettings.CreationsCoverMissing | Unity/UniGasLogger/Editor/GasSettingsService.cs:83-87 | every missing prefix is created, with the previous prefix as parent and the next component as name |
| EditorSettings.SecondCallCreatesNothing | Unity/UniGasLogger/Editor/GasSettingsService.cs:83-87 | a second call on the same path, after the first, creates no folder |
| EditorSettings.PathEnds | Unity/UniGasLogger/Editor/GasSettingsService.cs:79-90 | currentPath ends equal to the path; a path without '/' ensures and creates no folder, whatever folders exist, because the first component is never checked |
| EditorSettings.ResourcesPathParts | Unity/UniGasLogger/Editor/GasSettingsService.cs:12 | the Resources folder path splits into Assets, Plugins, UniGasLogger, Resources |
| EditorSettings.ResourcesFolders | Unity/UniGasLogger/Editor/GasSettingsService.cs:25 | provisioning the Resources folder ensures Assets/Plugins, Assets/Plugins/UniGasLogger and Assets/Plugins/UniGasLogger/Resources |
| EditorSettings.UpdateSettings | Unity/UniGasLogger/Editor/GasSettingsService.cs:40-50 | a null settings object is left alone; otherwise its three values become the new ones |

## Left out

- The HTTP exchange of `GasHttpClient` (`PostGas`, `GetGas`) and the JSON decoding of the replies are network I/O whose code is not part of this model. The client records what it is asked to send. Its `failure` field stands for any exception. Its held replies stand for the decoded bodies.
- `GasSettingsService.LoadSettings` and the whole of Unity/Scripts/Data/GasSettingsService.cs are resource loading and file-system checks. `Awake` takes the loaded settings, possibly null, as a parameter.
- `CreateSettings` (asset creation, SaveAssets, Refresh) and `SaveSettingsToDisk` are editor I/O. Only `CreateSettings`' call of `EnsureAssetPathExists` on the Resources path is stated (ResourcesFolders).
- `Undo.RecordObject` and `EditorUtility.SetDirty` in `UpdateSettings` are editor bookkeeping with no effect on the settings' values.
- The source of GasSettings is not available. The model's `GasSettings.Init` is taken to store the three values it is given.
- GasLogger.Render: the text of floating-point numbers and other objects depends on their own `ToString()` and the current culture. A `Value.Other` carries that text as given instead of computing it.
- Reflection (`GetProperties`) gives no order guarantee. A typed record is given as its list of (name, value) properties in the order reflection returned them.
- ServiceManager.GasServiceManager.Awake: the constructor of `GasHttpClient` is not available. It is taken to accept null settings and store them. If it read them instead, a missing settings asset would make `Awake` throw after claiming `Instance`, leaving both services null.
- GasLogger.GasLoggerService.SendLog: every property read (`prop.GetValue(data)`) is taken to succeed. In the code these reads run outside the try/catch that only guards `PostGas`. An indexer, a set-only property or a throwing getter would make `SendLog<T>` throw before anything is posted, and the model does not capture this.
- async/`Task` and concurrent outstanding calls are not modelled. Each call runs to completion before the next one starts.
- `DontDestroyOnLoad` and `Destroy` are recorded as flags on the manager. Scene loading and object destruction are engine lifecycle.
- EditorSettings.EnsureAssetPathExists: `AssetDatabase.CreateFolder` is taken to succeed and to add `parent/name`. The engine's handling of invalid names and of renamed duplicate folders is not modelled.
- Decimal.Show: the minus sign is the invariant culture's `-`. A culture with another negative sign is not modelled.
- No concrete score beyond 64 bits is worked through. ParseShow and ShowParse hold for integers of every magnitude.
- GasLogger.Put and GasLogger.PutAllDistinct: a .NET `Dictionary` does not document its enumeration order. The model assumes the order seen when nothing is removed: insertion order, with an overwritten key keeping its place. The order of `keys` and of the value fields rests on this assumption.
