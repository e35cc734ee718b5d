/**
 * play_audio: the existence check, then the ordered fallback over the
 * command-line players. The host is the exit status each installed program
 * would return; a program missing from it is "not found", which is the only
 * failure that moves on to the next player.
 */
module Player {
  import opened PurePath

  datatype Invocation = Invocation(program: string, args: seq<string>)

  /** Exit status of each installed program; absent means FileNotFoundError on launch. */
  type Host = map<string, int>

  datatype AudioError =
    | FileNotFound(path: string)               // FileNotFoundError: the audio file is missing
    | NoPlayerFound                            // RuntimeError: none of the players is installed
    | CalledProcessError(program: string, status: int)  // check=True on a non-zero exit

  datatype AudioResult = Played(program: string) | Raised(error: AudioError)

  const Mpg123 := "mpg123"
  const Mpg321 := "mpg321"
  const Ffplay := "ffplay"

  /** The command lines play_audio tries, in the order it tries them. */
  function Candidates(file: string): seq<Invocation> {
    [ Invocation(Mpg123, ["-q", file]),
      Invocation(Mpg321, ["-q", file]),
      Invocation(Ffplay, ["-nodisp", "-autoexit", "-loglevel", "quiet", file]) ]
  }

  /** subprocess.run(inv, check=True) for a program that was found. */
  function Completed(inv: Invocation, status: int): AudioResult {
    if status == 0 then Played(inv.program) else Raised(CalledProcessError(inv.program, status))
  }

  /** The try/except FileNotFoundError chain over cands. */
  function Fallback(cands: seq<Invocation>, host: Host): AudioResult {
    if cands == [] then Raised(NoPlayerFound)
    else if cands[0].program in host then Completed(cands[0], host[cands[0].program])
    else Fallback(cands[1..], host)
  }

  /** The invocations subprocess.run receives along that chain, in order. */
  function Attempts(cands: seq<Invocation>, host: Host): seq<Invocation> {
    if cands == [] then []
    else if cands[0].program in host then [cands[0]]
    else [cands[0]] + Attempts(cands[1..], host)
  }

  /** cands[k] is the first candidate whose program is installed. */
  ghost predicate FirstInstalled(cands: seq<Invocation>, host: Host, k: nat) {
    && k < |cands|
    && cands[k].program in host
    && forall j :: 0 <= j < k ==> cands[j].program !in host
  }

  /** os.path.exists(file): the empty string names no file; any other string names its parsed path. */
  predicate FileExists(file: string, files: set<Path>) {
    file != "" && Parse(file) in files
  }

  /** What play_audio(file) ends in: raising before any player, or the fallback's outcome. */
  function Playback(file: string, files: set<Path>, host: Host): AudioResult {
    if !FileExists(file, files) then Raised(FileNotFound(file)) else Fallback(Candidates(file), host)
  }

  /** The invocations play_audio(file) makes. */
  function PlaybackAttempts(file: string, files: set<Path>, host: Host): seq<Invocation> {
    if !FileExists(file, files) then [] else Attempts(Candidates(file), host)
  }

  lemma {:induction false} FallbackPicksFirstInstalled(cands: seq<Invocation>, host: Host, k: nat)
    requires FirstInstalled(cands, host, k)
    ensures Fallback(cands, host) == Completed(cands[k], host[cands[k].program])
    ensures Attempts(cands, host) == cands[..k + 1]
  {
    if k > 0 {
      assert cands[0].program !in host;
      assert FirstInstalled(cands[1..], host, k - 1);
      FallbackPicksFirstInstalled(cands[1..], host, k - 1);
      assert cands[..k + 1] == [cands[0]] + cands[1..][..k];
    }
  }

  lemma {:induction false} FallbackWithoutPlayers(cands: seq<Invocation>, host: Host)
    ensures Fallback(cands, host) == Raised(NoPlayerFound)
        <==> forall j :: 0 <= j < |cands| ==> cands[j].program !in host
    ensures (forall j :: 0 <= j < |cands| ==> cands[j].program !in host) ==> Attempts(cands, host) == cands
  {
    if cands != [] {
      FallbackWithoutPlayers(cands[1..], host);
      if cands[0].program !in host {
        assert forall j :: 1 <= j < |cands| ==> cands[j].program == cands[1..][j - 1].program;
        assert [cands[0]] + cands[1..] == cands;
      }
    }
  }

  /** The result of subprocess.run for one invocation: not found, or an exit status. */
  datatype Launch = NotFound | Exited(status: int)

  function Run(inv: Invocation, host: Host): (l: Launch)
    ensures l.Exited? <==> inv.program in host
  {
    if inv.program in host then Exited(host[inv.program]) else NotFound
  }

  /** play_audio(audio_file_path), together with the invocations it makes. */
  method PlayAudio(audioFilePath: string, files: set<Path>, host: Host) returns (r: AudioResult, tried: seq<Invocation>)
    ensures r == Playback(audioFilePath, files, host)
    ensures tried == PlaybackAttempts(audioFilePath, files, host)
  {
    tried := [];
    if !FileExists(audioFilePath, files) {
      r := Raised(FileNotFound(audioFilePath));
      return;
    }
    var cands := Candidates(audioFilePath);
    tried := tried + [cands[0]];
    var launch := Run(cands[0], host);
    if launch.Exited? {
      r := Completed(cands[0], launch.status);
      return;
    }
    tried := tried + [cands[1]];
    launch := Run(cands[1], host);
    if launch.Exited? {
      FallbackPicksFirstInstalled(cands, host, 1);
      r := Completed(cands[1], launch.status);
      return;
    }
    tried := tried + [cands[2]];
    launch := Run(cands[2], host);
    if launch.Exited? {
      FallbackPicksFirstInstalled(cands, host, 2);
      r := Completed(cands[2], launch.status);
      return;
    }
    FallbackWithoutPlayers(cands, host);
    r := Raised(NoPlayerFound);
  }

  /** A missing file raises before any player is launched, whatever is installed. */
  lemma MissingFileRaisesFirst(file: string, files: set<Path>, host: Host)
    requires !FileExists(file, files)
    ensures Playback(file, files, host) == Raised(FileNotFound(file))
    ensures PlaybackAttempts(file, files, host) == []
  {
  }

  /** An existing file is played by the first installed player, after trying exactly those before it. */
  lemma PlaybackUsesFirstInstalled(file: string, files: set<Path>, host: Host, k: nat)
    requires FileExists(file, files)
    requires FirstInstalled(Candidates(file), host, k)
    ensures Playback(file, files, host) == Completed(Candidates(file)[k], host[Candidates(file)[k].program])
    ensures PlaybackAttempts(file, files, host) == Candidates(file)[..k + 1]
  {
    FallbackPicksFirstInstalled(Candidates(file), host, k);
  }

  /** RuntimeError is raised exactly when the file exists and no player is installed, after trying all three. */
  lemma NoPlayerIffNoneInstalled(file: string, files: set<Path>, host: Host)
    ensures Playback(file, files, host) == Raised(NoPlayerFound)
        <==> FileExists(file, files) && Mpg123 !in host && Mpg321 !in host && Ffplay !in host
    ensures FileExists(file, files) && Mpg123 !in host && Mpg321 !in host && Ffplay !in host
        ==> PlaybackAttempts(file, files, host) == Candidates(file)
  {
    var cands := Candidates(file);
    FallbackWithoutPlayers(cands, host);
    assert cands[0].program == Mpg123 && cands[1].program == Mpg321 && cands[2].program == Ffplay;
  }

  /** A player that is found but exits non-zero ends playback with an error: no fallback. */
  lemma NoFallbackOnFailure(file: string, files: set<Path>, host: Host)
    requires FileExists(file, files)
    requires Mpg123 in host && host[Mpg123] != 0
    ensures Playback(file, files, host) == Raised(CalledProcessError(Mpg123, host[Mpg123]))
    ensures PlaybackAttempts(file, files, host) == [Candidates(file)[0]]
  {
  }
}
