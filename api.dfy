/**
 * The sound-effect request handlers: GET /play/<n> (play_button) and POST /play
 * (play_button_post). Each is a decision over its argument and the handler's
 * environment. Checks run in a fixed order (range, configured, file exists) and
 * the first that fails decides the response. The response never depends on how
 * playback goes, because play_audio runs on a thread whose outcome does not
 * reach the response: a Reply only records the path string handed to that thread.
 */
module Api {
  import opened Wrappers
  import opened PyStr
  import opened PurePath
  import opened PyJson

  const MinButton: int := 1
  const MaxButton: int := 8

  const InvalidButton := "Invalid button number"
  const RangeMessage := "Button number must be between 1 and 8"
  const IntegerRangeMessage := "Button number must be an integer between 1 and 8"
  const NotConfigured := "Audio file not configured"
  const NotConfiguredMessage := "No audio file configured for button "
  const NotFound := "Audio file not found"
  const NotFoundMessage := "Audio file does not exist: "
  const NotFoundHelp := "Please add MP3 files to the audio directory. See audio/README.md for details."
  const PlaybackError := "Playback error"
  const InvalidRequest := "Invalid request"
  const MissingButtonMessage := "Request body must contain \"button\" field"

  /** The part of the loaded configuration the handlers read: the audio_files table, if present. */
  datatype Config = Config(audioFiles: Option<map<string, string>>)

  /** What a handler sees besides its argument. */
  datatype Env = Env(
    config: Config,              // the configuration loaded once at startup
    appDir: WellFormedPath,      // the directory of the application module
    files: set<Path>,            // the paths that exist while the request is handled
    threadError: Option<string>) // the message of the exception starting the playback thread raises, if it does

  datatype Payload =
    | Playing(button: int, file: string)
    | Problem(error: string, message: string, help: Option<string>)

  datatype Response = Response(status: int, payload: Payload)

  /** A response, and the path string handed to play_audio on a new thread, if one was started. */
  datatype Reply = Reply(response: Response, playback: Option<string>)

  /** What the POST handler ends in: a reply, or an exception that escapes it. */
  datatype PostResult = Replied(reply: Reply) | Raised(error: PyError)

  predicate InRange(n: int) {
    MinButton <= n <= MaxButton
  }

  function Reject(status: int, error: string, message: string): Reply {
    Reply(Response(status, Problem(error, message, None)), None)
  }

  /** config.get('audio_files', {}).get(key), where a missing or empty entry is not configured. */
  function ConfiguredFile(config: Config, key: string): Option<string> {
    var audioFiles := if config.audioFiles.Some? then config.audioFiles.value else map[];
    if key in audioFiles && audioFiles[key] != "" then Some(audioFiles[key]) else None
  }

  /** The joined path of button n's configured file, if it has one. */
  function Resolved(n: int, env: Env): Option<Path> {
    match ConfiguredFile(env.config, IntToString(n))
    case None => None
    case Some(rel) => Some(Join(env.appDir, rel))
  }

  /** Button n has a configured file that exists. */
  predicate Resolves(n: int, env: Env) {
    Resolved(n, env).Some? && Resolved(n, env).value in env.files
  }

  /** play_button applied to a Python int whose value is button and whose str() is text. */
  function PlayButtonAs(button: int, text: string, env: Env): Reply {
    if !InRange(button) then Reject(400, InvalidButton, RangeMessage)
    else match ConfiguredFile(env.config, text)
      case None => Reject(404, NotConfigured, NotConfiguredMessage + text)
      case Some(rel) =>
        var path := Join(env.appDir, rel);
        if path !in env.files then
          Reply(Response(404, Problem(NotFound, NotFoundMessage + Render(path), Some(NotFoundHelp))), None)
        else match env.threadError
          case Some(message) => Reject(500, PlaybackError, message)
          case None => Reply(Response(200, Playing(button, Name(path))), Some(Render(path)))
  }

  /** GET /play/<n>: the status says which check failed first, and only success starts playback. */
  function PlayButton(n: int, env: Env): (r: Reply)
    ensures r.response.status == 400 <==> !InRange(n)
    ensures r.response.status == 404 <==> InRange(n) && !Resolves(n, env)
    ensures r.response.status == 500 <==> InRange(n) && Resolves(n, env) && env.threadError.Some?
    ensures r.response.status == 200 <==> InRange(n) && Resolves(n, env) && env.threadError.None?
    ensures r.playback.Some? <==> r.response.status == 200
    ensures r.response.status == 200 ==> r.response.payload.Playing? && r.response.payload.button == n
  {
    PlayButtonAs(n, IntToString(n), env)
  }

  /** Out-of-range buttons get 400 whatever the configuration and the files are. */
  lemma OutOfRangeRejected(n: int, env: Env)
    requires !InRange(n)
    ensures PlayButton(n, env) == Reject(400, InvalidButton, RangeMessage)
  {
  }

  /** The two out-of-range requests the API test script sends. */
  lemma ScriptOutOfRangeRequests(env: Env)
    ensures PlayButton(0, env).response.status == 400
    ensures PlayButton(9, env).response.status == 400
  {
  }

  /** An in-range button without an entry, or with an empty one, gets 404 "Audio file not configured". */
  lemma UnconfiguredIs404(n: int, env: Env)
    requires InRange(n)
    requires env.config.audioFiles.None?
          || IntToString(n) !in env.config.audioFiles.value
          || env.config.audioFiles.value[IntToString(n)] == ""
    ensures PlayButton(n, env) == Reject(404, NotConfigured, NotConfiguredMessage + IntToString(n))
  {
  }

  /** A configured file whose joined path does not exist gets 404 "Audio file not found", unnormalised. */
  lemma MissingFileIs404(n: int, env: Env, rel: string)
    requires InRange(n)
    requires env.config.audioFiles.Some? && IntToString(n) in env.config.audioFiles.value
    requires env.config.audioFiles.value[IntToString(n)] == rel && rel != ""
    requires Join(env.appDir, rel) !in env.files
    ensures PlayButton(n, env).response
         == Response(404, Problem(NotFound, NotFoundMessage + Render(Join(env.appDir, rel)), Some(NotFoundHelp)))
    ensures PlayButton(n, env).playback == None
  {
  }

  /**
   * Once a check fails, what later checks would read makes no difference: two
   * environments that agree on what the earlier checks read get the same reply.
   */
  lemma FirstFailingCheckDecides(n: int, e1: Env, e2: Env)
    ensures !InRange(n) ==> PlayButton(n, e1) == PlayButton(n, e2)
    ensures InRange(n) && e1.config == e2.config && Resolved(n, e1).None?
        ==> PlayButton(n, e1) == PlayButton(n, e2)
    ensures InRange(n) && e1.config == e2.config && e1.appDir == e2.appDir && Resolved(n, e1).Some?
            && Resolved(n, e1).value !in e1.files && Resolved(n, e1).value !in e2.files
        ==> PlayButton(n, e1) == PlayButton(n, e2)
  {
  }

  /** All checks pass: 200 with the button and the joined path's name, and that path goes to the thread. */
  lemma PlayingReply(n: int, env: Env, rel: string)
    requires InRange(n)
    requires env.config.audioFiles.Some? && IntToString(n) in env.config.audioFiles.value
    requires env.config.audioFiles.value[IntToString(n)] == rel && rel != ""
    requires Join(env.appDir, rel) in env.files
    requires env.threadError.None?
    ensures PlayButton(n, env)
         == Reply(Response(200, Playing(n, Name(Join(env.appDir, rel)))), Some(Render(Join(env.appDir, rel))))
  {
  }

  /** The only 500: starting the playback thread raised, after every check passed. */
  lemma ThreadFailureIs500(n: int, env: Env)
    requires InRange(n) && Resolves(n, env)
    requires env.threadError.Some?
    ensures PlayButton(n, env) == Reject(500, PlaybackError, env.threadError.value)
  {
  }

  /** The thread's own existence check looks at the very file the handler found, and the reply names it. */
  lemma PlaybackChecksSameFile(n: int, env: Env)
    requires PlayButton(n, env).playback.Some?
    ensures PlayButton(n, env).playback.value != ""
    ensures Parse(PlayButton(n, env).playback.value) in env.files
    ensures PlayButton(n, env).response.payload == Playing(n, Name(Parse(PlayButton(n, env).playback.value)))
  {
    var path := Resolved(n, env).value;
    ParseRender(path);
  }

  /** A file configured as dir/f is reported as f. */
  lemma ReportedFileName(n: int, env: Env, dir: string, f: string)
    requires InRange(n) && IsComponent(f)
    requires env.config.audioFiles.Some? && IntToString(n) in env.config.audioFiles.value
    requires env.config.audioFiles.value[IntToString(n)] == dir + "/" + f
    requires Join(env.appDir, dir + "/" + f) in env.files
    requires env.threadError.None?
    ensures PlayButton(n, env).response == Response(200, Playing(n, f))
  {
    NameOfFile(dir, f);
    NameOfJoin(env.appDir, dir + "/" + f);
  }

  /** No containment check: a configured path climbing out of the application directory is played if it exists. */
  lemma ParentStepsNotRejected(n: int, env: Env)
    requires InRange(n)
    requires env.config.audioFiles.Some? && IntToString(n) in env.config.audioFiles.value
    requires env.config.audioFiles.value[IntToString(n)] == "../../etc/passwd"
    requires Path(env.appDir.rooted, env.appDir.parts + ["..", "..", "etc", "passwd"]) in env.files
    requires env.threadError.None?
    ensures PlayButton(n, env).response == Response(200, Playing(n, "passwd"))
  {
    var fields := ["..", "..", "etc", "passwd"];
    assert "../../etc/passwd" == Slashed(fields);
    SplitSlashed(fields);
    ComponentsOfComponents(fields);
  }

  /** play_button_post as the handler is written. */
  function PlayButtonPostAsWritten(body: Json, env: Env): (r: PostResult)
    ensures r.Raised? ==> Truthy(body) && !body.Object?
    ensures !Truthy(body) ==> r == Replied(Reject(400, InvalidRequest, MissingButtonMessage))
  {
    if !Truthy(body) then Replied(Reject(400, InvalidRequest, MissingButtonMessage))
    else match Contains(body, "button")
      case Err(e) => Raised(e)
      case Ok(found) =>
        if !found then Replied(Reject(400, InvalidRequest, MissingButtonMessage))
        else match Subscript(body, "button")
          case Err(e) => Raised(e)
          case Ok(v) =>
            if !IsInt(v) || IntValue(v) < MinButton || IntValue(v) > MaxButton then
              Replied(Reject(400, InvalidButton, IntegerRangeMessage))
            else Replied(PlayButtonAs(IntValue(v), IntText(v), env))
  }

  /** A body the POST handler should accept: an object whose "button" is an integer, not a boolean, in range. */
  predicate ValidBody(body: Json) {
    && body.Object?
    && "button" in body.fields
    && body.fields["button"].Int?
    && InRange(body.fields["button"].i)
  }

  /**
   * play_button_post with the two corrections: a body that is not an object is
   * an invalid request, and a boolean button is not a button number.
   */
  function PlayButtonPost(body: Json, env: Env): (r: Reply)
    ensures r.response.status == 400 <==> !ValidBody(body)
    ensures ValidBody(body) ==> r == PlayButton(body.fields["button"].i, env)
  {
    if !Truthy(body) || !body.Object? || "button" !in body.fields then
      Reject(400, InvalidRequest, MissingButtonMessage)
    else
      var v := body.fields["button"];
      if !v.Int? || !InRange(v.i) then Reject(400, InvalidButton, IntegerRangeMessage)
      else PlayButton(v.i, env)
  }

  /** No body, an empty one, or an object without "button" is an invalid request. */
  lemma PostMissingButtonRejected(body: Json, env: Env)
    requires !Truthy(body) || (body.Object? && "button" !in body.fields)
    ensures PlayButtonPostAsWritten(body, env) == Replied(Reject(400, InvalidRequest, MissingButtonMessage))
    ensures PlayButtonPost(body, env) == Reject(400, InvalidRequest, MissingButtonMessage)
  {
  }

  /** A "button" that is not an int, or an int out of range, is an invalid button number. */
  lemma PostInvalidButtonRejected(body: Json, env: Env)
    requires body.Object? && "button" in body.fields
    requires var v := body.fields["button"]; (!v.Int? && !v.Bool?) || (v.Int? && !InRange(v.i))
    ensures PlayButtonPostAsWritten(body, env) == Replied(Reject(400, InvalidButton, IntegerRangeMessage))
    ensures PlayButtonPost(body, env) == Reject(400, InvalidButton, IntegerRangeMessage)
  {
  }

  /** The invalid POST the API test script sends. */
  lemma ScriptInvalidPost(env: Env)
    ensures PlayButtonPostAsWritten(Object(map["button" := Str("invalid")]), env).reply.response.status == 400
    ensures PlayButtonPost(Object(map["button" := Str("invalid")]), env).response.status == 400
  {
  }

  /** A valid integer button gets exactly what GET /play/<n> gets. */
  lemma PostMatchesGet(body: Json, env: Env, n: int)
    requires body.Object? && "button" in body.fields && body.fields["button"] == Int(n)
    requires InRange(n)
    ensures PlayButtonPostAsWritten(body, env) == Replied(PlayButton(n, env))
    ensures PlayButtonPost(body, env) == PlayButton(n, env)
  {
  }

  /** The corrected handler agrees with the written one on every body but the two kinds it corrects. */
  lemma AsWrittenAgreesOtherwise(body: Json, env: Env)
    requires !Truthy(body) || body.Object?
    requires body.Object? && "button" in body.fields ==> body.fields["button"] != Bool(true)
    ensures PlayButtonPostAsWritten(body, env) == Replied(PlayButtonPost(body, env))
  {
  }

  /**
   * As written, {"button": true} is taken as button 1 but looks up the key "True",
   * which by BoolStringIsNoIntString is no button's key.
   */
  lemma TrueButtonConsultsTrueKey(env: Env)
    ensures PlayButtonPostAsWritten(Object(map["button" := Bool(true)]), env) == Replied(PlayButtonAs(1, "True", env))
  {
  }

  /** With button 1 configured, as written {"button": true} gets 404; GET /play/1 plays; the correction rejects it. */
  lemma TrueButtonCounterexample()
    ensures var env := Env(Config(Some(map["1" := "a.mp3"])), Path(true, ["app"]), {Path(true, ["app", "a.mp3"])}, None);
            var body := Object(map["button" := Bool(true)]);
            && PlayButtonPostAsWritten(body, env)
               == Replied(Reject(404, NotConfigured, NotConfiguredMessage + "True"))
            && PlayButton(1, env).response == Response(200, Playing(1, "a.mp3"))
            && PlayButtonPost(body, env) == Reject(400, InvalidButton, IntegerRangeMessage)
  {
    var env := Env(Config(Some(map["1" := "a.mp3"])), Path(true, ["app"]), {Path(true, ["app", "a.mp3"])}, None);
    var body := Object(map["button" := Bool(true)]);
    assert IntToString(1) == "1";
    SplitNoSlash("a.mp3");
    ComponentsOfComponents(["a.mp3"]);
    assert Join(env.appDir, "a.mp3") == Path(true, ["app", "a.mp3"]);
    TrueButtonConsultsTrueKey(env);
  }

  /** As written, a truthy body that is not an object escapes the handler as a TypeError; the correction answers 400. */
  lemma NonObjectBodyRaises(env: Env)
    ensures forall body ::
              Truthy(body) && (body.Int? || body.Float? || body.Bool?)
              ==> PlayButtonPostAsWritten(body, env) == Raised(TypeError)
    ensures PlayButtonPostAsWritten(Int(5), env) == Raised(TypeError)
    ensures PlayButtonPostAsWritten(Str("button"), env) == Raised(TypeError)
    ensures PlayButtonPostAsWritten(Array([Str("button")]), env) == Raised(TypeError)
    ensures PlayButtonPost(Int(5), env) == Reject(400, InvalidRequest, MissingButtonMessage)
    ensures PlayButtonPost(Str("button"), env) == Reject(400, InvalidRequest, MissingButtonMessage)
    ensures PlayButtonPost(Array([Str("button")]), env) == Reject(400, InvalidRequest, MissingButtonMessage)
  {
  }
}
