# TTRPG Pi sound-effect API: a Dafny model of the request handlers and audio playback

TTRPG Pi is a Raspberry Pi service. It plays a sound effect for one of eight
buttons, which are pressed on GPIO hardware or called over HTTP. This project
models the core of `ttrpg_pi.py`:

- **`play_button`** (`GET /play/<n>`) is a decision procedure. It checks that the
  button is in range (1..8), that `audio_files[str(n)]` is configured and not
  empty, and that the joined path exists. The first check that fails decides the
  response: 400, 404 or 404. Otherwise it starts a playback thread and answers
  `{status: playing, button: n, file: <name>}`. The only 500 comes from a failure
  to start that thread.
- **`play_button_post`** (`POST /play`) first checks the JSON body's structure,
  then hands a valid integer to `play_button`.
- **`play_audio`** checks that the file exists. It then tries `mpg123`, `mpg321`
  and `ffplay` in that order. It moves on only when a program is not found, and
  raises `RuntimeError` when none is installed.

Modules:

- `Api` (`api.dfy`) holds both handlers as functions over an environment. The
  environment is the loaded configuration, the application directory, the set of
  paths that exist, and whether starting the thread raises.
- `Player` (`player.dfy`) models `play_audio`. It is an imperative method that
  mirrors the nested `try`/`except FileNotFoundError` chain. It is proved against
  `Fallback`, a recursive specification over the ordered candidates. The host is
  a map from each installed program to the exit status it would return.
- `PurePath` (`pure_path.dfy`) models the part of `pathlib` the handler uses:
  `Path(...)`, `/`, `.name` and `str()`. The `..` components are kept, as
  `pathlib` keeps them.
- `PyStr` (`py_str.dfy`) models Python's `str()` of ints and bools, which builds
  the configuration keys.
- `PyJson` (`py_json.dfy`) models the parsed request body, with Python's truth
  value, `in`, subscripting and `isinstance(v, int)`.
- `Wrappers` (`wrappers.dfy`) holds `Option`.

The response does not depend on how playback goes. `play_audio` runs on its own
thread, and its outcome never reaches the response. So a handler's `Reply`
records only the path string handed to that thread. The handlers take no player
state as input, and `Player.Playback` states separately what the thread does
with that string.

The code has no single-process playback slot, no lock, no `/stop` handler and
no sandbox containment check, so the model has none either. A configured path is
joined to the application directory without normalisation, and
`Api.ParentStepsNotRejected` proves that a configured `../../etc/passwd` that
exists is played with status 200.

## Model

| member | source | states |
|---|---|---|
| `Api.PlayButton` | ttrpg_pi.py:112-156 | 400 iff the button is out of range. 404 iff in range but unconfigured or missing. 500 iff every check passed and the thread failed to start. 200 iff every check passed and the thread started. Playback starts exactly on 200, and the 200 payload carries the requested button. |
| `Api.OutOfRangeRejected` | ttrpg_pi.py:118-122 | Every button outside 1..8 gets the same 400 "Invalid button number" reply, whatever the configuration and files are. |
| `Api.ScriptOutOfRangeRequests` | test_api.py:62-63 | GET /play/0 and GET /play/9 get 400. |
| `Api.UnconfiguredIs404` | ttrpg_pi.py:124-131 | An in-range button gets 404 "Audio file not configured" naming the button when: there is no `audio_files` table, it has no entry for `str(n)`, or that entry is empty. |
| `Api.MissingFileIs404` | ttrpg_pi.py:133-141 | A configured file whose joined, unnormalised path does not exist gets 404 "Audio file not found". The message carries `str()` of that path and the reply carries the help text. No playback starts. |
| `Api.FirstFailingCheckDecides` | ttrpg_pi.py:118-141 | Once a check fails, the reply is the same in any environment that agrees on what the earlier checks read. A failing range check ignores everything. A failing configuration check ignores the files and the thread. A failing existence check ignores the thread. |
| `Api.PlayingReply` | ttrpg_pi.py:143-151 | When all checks pass and the thread starts, the reply is 200 with the button and the joined path's name. The thread receives `str()` of that path. |
| `Api.ThreadFailureIs500` | ttrpg_pi.py:143-156 | When all checks pass and starting the thread raises, the reply is 500 "Playback error" with that exception's message. |
| `Api.PlaybackChecksSameFile` | ttrpg_pi.py:134-150 | The string handed to the thread is non-empty and parses back to the path the handler found to exist, so the thread's own existence check looks at that file. The reply's file is that path's name. |
| `Api.ReportedFileName` | ttrpg_pi.py:150 | A file configured as `dir/f` is reported as `f`. |
| `Api.ParentStepsNotRejected` | ttrpg_pi.py:133-136 | No containment or normalisation happens. A configured `../../etc/passwd` whose unresolved joined path exists is played with 200 and file `passwd`. |
| `Api.PlayButtonPostAsWritten` | ttrpg_pi.py:158-182 | Only a truthy non-object body can make the handler raise. A falsy body (none, null, empty) gets 400 "Invalid request". |
| `Api.PlayButtonPost` | ttrpg_pi.py:158-182 | Corrected handler: 400 iff the body is not an object whose "button" is an in-range integer that is not a boolean. A valid body gets exactly GET /play/<button>. |
| `Api.PostMissingButtonRejected` | ttrpg_pi.py:167-171 | No body, an empty body, or an object without "button" gets 400 "Invalid request", both as written and corrected. |
| `Api.PostInvalidButtonRejected` | ttrpg_pi.py:173-179 | A "button" that is neither an int nor a bool, or an int outside 1..8, gets 400 "Invalid button number", both as written and corrected. |
| `Api.ScriptInvalidPost` | test_api.py:64 | POST `{"button": "invalid"}` gets 400. |
| `Api.PostMatchesGet` | ttrpg_pi.py:181-182 | A body whose "button" is an integer in 1..8 gets exactly what GET /play/<n> gets, both as written and corrected. |
| `Api.AsWrittenAgreesOtherwise` | ttrpg_pi.py:167-182 | For every falsy or object body whose button is not `true`, the corrected handler replies exactly as the written one. |
| `Api.TrueButtonConsultsTrueKey` | ttrpg_pi.py:175-182 | As written, `{"button": true}` is handled as button 1 with configuration key "True" (which `PyStr.BoolStringIsNoIntString` shows is no integer's key). |
| `Api.TrueButtonCounterexample` | ttrpg_pi.py:175 | With button 1 configured and present, as written `{"button": true}` gets 404 while GET /play/1 gets 200. The corrected handler gets 400. |
| `Api.NonObjectBodyRaises` | ttrpg_pi.py:167-173 | As written, every truthy number or boolean body raises TypeError, and so do the bodies `"button"` and `["button"]`. The corrected handler answers 400 "Invalid request" to `5`, `"button"` and `["button"]`. |
| `Player.PlayAudio` | ttrpg_pi.py:67-84 | The result and the invocations made are those of `Playback` and `PlaybackAttempts`. The lemmas below characterise both. |
| `Player.FallbackPicksFirstInstalled` | ttrpg_pi.py:72-83 | When candidate k is the first installed one, the chain ends in that program's outcome. The programs launched are exactly candidates 0..k. |
| `Player.FallbackWithoutPlayers` | ttrpg_pi.py:72-84 | The chain raises "no player" iff no candidate is installed, and it then has tried every candidate. |
| `Player.MissingFileRaisesFirst` | ttrpg_pi.py:69-70 | A missing file raises FileNotFoundError before any player is launched, whatever is installed. This includes the empty string, which names no file. |
| `Player.PlaybackUsesFirstInstalled` | ttrpg_pi.py:72-82 | An existing file is played by the first installed player of mpg123, mpg321, ffplay, after launching exactly the ones before it. |
| `Player.NoPlayerIffNoneInstalled` | ttrpg_pi.py:80-84 | RuntimeError is raised iff the file exists and none of the three players is installed. All three are tried first. |
| `Player.NoFallbackOnFailure` | ttrpg_pi.py:74-75 | An installed mpg123 that exits non-zero ends in CalledProcessError. mpg321 and ffplay are never tried. |
| `PyStr.NatToString` | ttrpg_pi.py:125 | `str()` of a non-negative int is a non-empty string of digits. It starts with '0' iff the number is 0. |
| `PyStr.IntToString` | ttrpg_pi.py:125 | `str()` of an int is non-empty and starts with '-' iff the number is negative, otherwise with a digit. |
| `PyStr.NatToStringRoundTrip` | ttrpg_pi.py:125 | Reading the digits of `str(n)` gives n back. |
| `PyStr.IntToStringInjective` | ttrpg_pi.py:125 | Equal `str()` forms come from equal ints. |
| `PyStr.BoolStringIsNoIntString` | ttrpg_pi.py:175 | `str(True)` and `str(False)` are never `str()` of an int. |
| `PyJson.Contains` | ttrpg_pi.py:167 | `'button' in data` raises TypeError exactly for null, booleans and numbers. It is a key test on objects, an element test on lists, and on strings it holds iff "button" occurs at some index. |
| `PyJson.SubstringIffOccurs` | ttrpg_pi.py:167 | The recursive substring test used for `in` on a string agrees with "the key occurs at some index of the string". |
| `PurePath.Split` | ttrpg_pi.py:134 | Splitting on '/' gives at least one field, and no field contains '/'. |
| `PurePath.Components` | ttrpg_pi.py:134 | The components kept from a split are non-empty, not ".", and slash-free. With `ComponentsOfField`, `ComponentsAppend` and `ComponentsOfComponents` this fixes the result on every input: exactly the "" and "." fields are dropped, and the rest are kept in order. |
| `PurePath.ComponentsOfField` | ttrpg_pi.py:134 | A single field "" or "." gives no component. Any other slash-free field is kept as it is. |
| `PurePath.ComponentsAppend` | ttrpg_pi.py:134 | Filtering a concatenation of field lists is the concatenation of the filtered lists. |
| `PurePath.ComponentsOfComponents` | ttrpg_pi.py:134 | A list of components is kept whole. |
| `PurePath.Parse` | ttrpg_pi.py:134 | A parsed path is well formed, and it is rooted iff the string starts with '/'. |
| `PurePath.Join` | ttrpg_pi.py:134 | Joining keeps well-formedness. An absolute right side replaces the base. Otherwise the base's components stay a prefix (`JoinIsConcatenation` says what follows them). |
| `PurePath.JoinIsConcatenation` | ttrpg_pi.py:134 | For a well-formed base and a relative string, `base / rel` is the parse of `str(base) + "/" + rel`: the base's components, then rel's, unresolved. |
| `PurePath.SplitJoin` | ttrpg_pi.py:134 | Splitting `a + "/" + t` gives a's fields followed by t's fields. |
| `PurePath.SlashedSplit` | ttrpg_pi.py:134 | Joining the fields of a split with '/' gives the string back. |
| `PurePath.SplitSlashed` | ttrpg_pi.py:134 | Splitting a '/'-join of slash-free fields gives the fields back. |
| `PurePath.ParseRender` | ttrpg_pi.py:134-145 | `str()` of a well-formed path parses back to the same path. |
| `PurePath.NameOfFile` | ttrpg_pi.py:150 | The name of `dir/f` is `f` for any component `f`. |
| `PurePath.NameOfJoin` | ttrpg_pi.py:150 | `base / rel` has rel's name whenever rel has a component. |

## Findings

| source | as written | input that shows it | evidently intended | confidence | as-written member | corrected member |
|---|---|---|---|---|---|---|
| ttrpg_pi.py:175 | `isinstance(button_number, int)` accepts a JSON boolean. `true` then passes the range check as 1, and `play_button` looks up `str(True)`, which is "True". | POST `{"button": true}` with "1" configured and present: 404 "Audio file not configured" for button True. | 400 "Invalid button number", as for any non-integer (the message says it must be an integer). | not executed; medium | `Api.TrueButtonCounterexample` | `Api.PlayButtonPost` |
| ttrpg_pi.py:167-173 | `'button' in data` and `data['button']` assume a dict. A truthy number or boolean raises TypeError at `in`. A string or list that contains "button" raises TypeError at the subscript. The exception escapes the handler. | POST body `5`, `"button"` or `["button"]` | 400 "Invalid request" (the body must contain a "button" field) | not executed; medium | `Api.NonObjectBodyRaises` | `Api.PlayButtonPost` |

## Left out

- Flask itself is not modelled: routing, `jsonify`, `request.get_json()` and `app.run`. The POST body is an already-parsed JSON value. Flask turns an exception escaping a handler into its own 500 page; the model stops at the exception (`Raised`). What the `<int:...>` converter does with negative or non-numeric path segments is not modelled.
- Api.PlayButtonPostAsWritten: the response to `{"button": true}` carries the button as Python `True` (JSON `true`). The model reports it as 1.
- Api.PlayButton: the only 500 modelled is a failure to start the playback thread. A failure of `jsonify` inside the same `try` is not modelled.
- Player.Run stands in for `subprocess.run`. It gives the exit status of an installed program or "not found", and its contract only states which of the two happens.
- PyJson.Subscript stands in for `data['button']`. It succeeds on a dict and raises TypeError on a string or a list, and its contract only repeats that.
- `threading.Thread` is not modelled. `Reply.playback` records the hand-off to the thread, and `Player.PlayAudio` is what that thread runs. Its outcome is deliberately not connected to the reply.
- `subprocess.run` is reduced to "program not found" or "exited with a status". Other OS errors on launch, such as a permission error, are not modelled; they would propagate as CalledProcessError does. The exception messages are not modelled.
- The file system is a snapshot set of paths that exist. Symlinks, `..` resolution by the OS, trailing slashes on files, and a file vanishing between the handler's check and the thread's check are not modelled. `Playback` takes its own snapshot, so a vanished file is expressible there.
- `pathlib`'s special case of exactly two leading slashes ("//") is not modelled. Such a path is treated as rooted at "/".
- `load_config` reading `config.json` is not modelled; the configuration is a fixed value given to each handler. `audio_files` values are taken to be strings. A truthy non-string entry is not modelled; it would make the join at ttrpg_pi.py:134 raise TypeError. A falsy one (`null`, `0`, `false`, `[]`, `{}`) fails the check at ttrpg_pi.py:127 and gets 404 "Audio file not configured", exactly as the empty string does, which the model covers.
- `open_website`, the `/`, `/health` and `/config` routes, `main`, and `button_listener.py` are not part of this model. They are I/O, constant responses and GPIO hardware.
- There is no `/stop` route, playback slot, lock or sandbox containment in the code, so none is modelled. The test script calls `/stop` (test_api.py:52), but no handler exists for it.
