/** The text-to-speech side of an emergency call: the spoken script, the
    request to the speech provider and the temporary audio files it leaves
    behind (server/services/elevenLabs.js). */
module ElevenLabs {
  import opened Wrappers
  import opened Text
  import CrisisDetection

  /** The "Sarah" voice used when no voice is configured. */
  const DefaultVoiceId: string := "EXAVITQu4vr4xnSDxMaL"
  const ApiUrl: string := "https://api.elevenlabs.io/v1"
  const SpeechModel: string := "eleven_monolingual_v1"
  /** The one error every speech failure is reported as. */
  const SpeechError: string := "Failed to generate speech"
  /** The temporary directory, `../temp` next to the services directory. */
  const TempDir: string := "server/temp"

  /** `process.env.ELEVENLABS_VOICE_ID || default`: a missing or empty
      setting falls back to the default voice. */
  function ConfiguredVoice(env: Option<string>): (r: string)
    ensures r != []
    ensures r == DefaultVoiceId || (env.Some? && r == env.value)
  {
    if Truthy(env) then env.value else DefaultVoiceId
  }

  // ---------------------------------------------------------------------
  // The call script

  /** `contactName || 'there'`. */
  function Greeting(contactName: string): (r: string)
    ensures r != []
    ensures contactName != [] ==> r == contactName
  {
    if contactName == [] then "there" else contactName
  }

  const ScriptPreamble: string :=
    ". This is an urgent automated message from ZEO AI Mental Health Support. \n    \n    "
  const EmergencyAdvice: string :=
    "\n    \n    Please try to contact them immediately. If you cannot reach them or believe "
    + "they are in immediate danger, please call emergency services at "
  const EmergencyNumber: string := "911"
  const LifelineLead: string :=
    " or your local emergency number.\n    \n    If you need additional support, you can "
    + "contact the National Suicide Prevention Lifeline at "
  const LifelineNumber: string := "988"
  const LifelineAlternative: string := "1-800-273-8255"
  const ScriptEnd: string :=
    ".\n    \n    This is an automated emergency alert. Please take immediate action. Thank you."

  /** Everything the script says before the summary. */
  function ScriptOpening(contactName: string): string
  {
    "Hello " + Greeting(contactName) + ScriptPreamble
  }

  /** Everything the script says after the summary. */
  function ScriptClosing(): string
  {
    EmergencyAdvice + EmergencyNumber + LifelineLead + LifelineNumber + " or "
    + LifelineAlternative + ScriptEnd
  }

  /** `generateCallScript(summary, contactName)`: the summary, verbatim,
      between an opening that greets the contact and a fixed closing. */
  function GenerateCallScript(summary: string, contactName: string): (r: string)
    ensures Contains(r, summary)
  {
    ContainsMiddle(ScriptOpening(contactName), summary, ScriptClosing());
    ScriptOpening(contactName) + summary + ScriptClosing()
  }

  /** The script's layout: the opening, then the summary verbatim, then the
      closing, each found at its own offset. */
  lemma ScriptLayout(summary: string, contactName: string)
    ensures var r := GenerateCallScript(summary, contactName);
      && |r| == |ScriptOpening(contactName)| + |summary| + |ScriptClosing()|
      && r[..|ScriptOpening(contactName)|] == ScriptOpening(contactName)
      && r[|ScriptOpening(contactName)|..|r| - |ScriptClosing()|] == summary
      && r[|r| - |ScriptClosing()|..] == ScriptClosing()
  {
    var opening := ScriptOpening(contactName);
    var r := GenerateCallScript(summary, contactName);
    assert r[..|opening|] == opening;
    assert r[|opening|..|r| - |ScriptClosing()|] == summary;
  }

  /** The summary can be read back from the script: different summaries
      give different scripts for the same contact. */
  lemma ScriptDeterminesSummary(s1: string, s2: string, contactName: string)
    requires GenerateCallScript(s1, contactName) == GenerateCallScript(s2, contactName)
    ensures s1 == s2
  {
    var r := GenerateCallScript(s1, contactName);
    ScriptLayout(s1, contactName);
    ScriptLayout(s2, contactName);
    assert |s1| == |s2|;
    assert s1 == r[|ScriptOpening(contactName)|..|r| - |ScriptClosing()|];
  }

  /** The script greets a named contact by name and otherwise says "there". */
  lemma ScriptGreets(summary: string, contactName: string)
    ensures contactName != [] ==> Contains(GenerateCallScript(summary, contactName), contactName)
    ensures contactName == [] ==> Contains(GenerateCallScript(summary, contactName), "there")
  {
    var g := Greeting(contactName);
    var opening := ScriptOpening(contactName);
    assert Contains(g, g);
    ContainsRight("Hello ", g, g);
    ContainsLeft("Hello " + g, ScriptPreamble, g);
    ContainsLeft(opening, summary, g);
    ContainsLeft(opening + summary, ScriptClosing(), g);
  }

  lemma ClosingNamesEmergencyNumber()
    ensures Contains(ScriptClosing(), EmergencyNumber)
  {
    var x := EmergencyAdvice + EmergencyNumber;
    assert Contains(EmergencyNumber, EmergencyNumber);
    ContainsRight(EmergencyAdvice, EmergencyNumber, EmergencyNumber);
    ContainsLeft(x, LifelineLead, EmergencyNumber);
    ContainsLeft(x + LifelineLead, LifelineNumber, EmergencyNumber);
    ContainsLeft(x + LifelineLead + LifelineNumber, " or ", EmergencyNumber);
    ContainsLeft(x + LifelineLead + LifelineNumber + " or ", LifelineAlternative, EmergencyNumber);
    ContainsLeft(x + LifelineLead + LifelineNumber + " or " + LifelineAlternative, ScriptEnd, EmergencyNumber);
  }

  lemma ClosingNamesLifeline()
    ensures Contains(ScriptClosing(), LifelineNumber)
  {
    var x := EmergencyAdvice + EmergencyNumber + LifelineLead + LifelineNumber;
    assert Contains(LifelineNumber, LifelineNumber);
    ContainsRight(EmergencyAdvice + EmergencyNumber + LifelineLead, LifelineNumber, LifelineNumber);
    ContainsLeft(x, " or ", LifelineNumber);
    ContainsLeft(x + " or ", LifelineAlternative, LifelineNumber);
    ContainsLeft(x + " or " + LifelineAlternative, ScriptEnd, LifelineNumber);
  }

  lemma ClosingNamesLifelineAlternative()
    ensures Contains(ScriptClosing(), LifelineAlternative)
  {
    var x := EmergencyAdvice + EmergencyNumber + LifelineLead + LifelineNumber + " or " + LifelineAlternative;
    assert Contains(LifelineAlternative, LifelineAlternative);
    ContainsRight(EmergencyAdvice + EmergencyNumber + LifelineLead + LifelineNumber + " or ", LifelineAlternative,
                  LifelineAlternative);
    ContainsLeft(x, ScriptEnd, LifelineAlternative);
  }

  /** The script tells the contact to dial 911 and cites both national
      lifeline numbers of the crisis-resource table. */
  lemma ScriptCitesHotlines(summary: string, contactName: string)
    ensures var r := GenerateCallScript(summary, contactName);
      && Contains(r, EmergencyNumber)
      && Contains(r, CrisisDetection.GetCrisisResources().us.suicide)
      && Contains(r, CrisisDetection.GetCrisisResources().us.crisis)
  {
    var opening := ScriptOpening(contactName);
    var r := GenerateCallScript(summary, contactName);
    ClosingNamesEmergencyNumber();
    ClosingNamesLifeline();
    ClosingNamesLifelineAlternative();
    assert r == (opening + summary) + ScriptClosing();
    ContainsRight(opening + summary, ScriptClosing(), EmergencyNumber);
    ContainsRight(opening + summary, ScriptClosing(), LifelineNumber);
    ContainsRight(opening + summary, ScriptClosing(), LifelineAlternative);
  }

  // ---------------------------------------------------------------------
  // Speech

  /** The endpoint the script is posted to. */
  function SpeechUrl(voiceId: string): string
  {
    ApiUrl + "/text-to-speech/" + voiceId
  }

  /** `textToSpeech`: the provider's audio on success; any failure, whatever
      its cause, becomes the single error "Failed to generate speech". */
  function TextToSpeech(provider: Result<seq<Byte>>): (r: Result<seq<Byte>>)
    ensures r.Ok? <==> provider.Ok?
    ensures r.Ok? ==> r.value == provider.value
    ensures r.Err? ==> r.message == SpeechError
  {
    match provider
    case Ok(audio) => Ok(audio)
    case Err(_) => Err(SpeechError)
  }

  // ---------------------------------------------------------------------
  // Temporary audio files

  /** `emergency-call-<ms>.mp3`. */
  function AudioName(now: nat): string
  {
    "emergency-call-" + NatToString(now) + ".mp3"
  }

  function AudioPath(now: nat): string
  {
    TempDir + "/" + AudioName(now)
  }

  /** Two saves get the same path exactly when they happen in the same
      millisecond. */
  lemma AudioPathInjective(t1: nat, t2: nat)
    ensures AudioPath(t1) == AudioPath(t2) <==> t1 == t2
  {
    if AudioPath(t1) == AudioPath(t2) {
      var lead := TempDir + "/" + "emergency-call-";
      assert AudioPath(t1) == lead + NatToString(t1) + ".mp3";
      assert AudioPath(t2) == lead + NatToString(t2) + ".mp3";
      assert |NatToString(t1)| == |NatToString(t2)|;
      assert NatToString(t1) == AudioPath(t1)[|lead|..|AudioPath(t1)| - 4];
      assert NatToString(t2) == AudioPath(t2)[|lead|..|AudioPath(t2)| - 4];
      NatToStringInjective(t1, t2);
    }
  }

  /** The directory after the audio is written at time `now`. */
  function Saved(files: map<string, seq<Byte>>, now: nat, audio: seq<Byte>): map<string, seq<Byte>>
  {
    files[AudioPath(now) := audio]
  }

  /** The directory after a clean-up of `path`: the file goes only when it
      exists and the unlink succeeds. */
  function CleanedUp(files: map<string, seq<Byte>>, path: string, unlinkSucceeds: bool): (r: map<string, seq<Byte>>)
    ensures path !in files ==> r == files
    ensures unlinkSucceeds ==> path !in r
    ensures forall p :: p in r <==> p in files && (p != path || !unlinkSucceeds)
    ensures forall p :: p in r ==> r[p] == files[p]
  {
    if path in files && unlinkSucceeds then files - {path} else files
  }

  /** Two saves in the same millisecond leave only the second recording. */
  lemma SameMillisecondOverwrites(files: map<string, seq<Byte>>, now: nat, a1: seq<Byte>, a2: seq<Byte>)
    ensures Saved(Saved(files, now, a1), now, a2) == Saved(files, now, a2)
  {
  }

  /** Saves in different milliseconds keep both recordings. */
  lemma DistinctMillisecondsKeepBoth(files: map<string, seq<Byte>>, t1: nat, t2: nat, a1: seq<Byte>, a2: seq<Byte>)
    requires t1 != t2
    ensures var f := Saved(Saved(files, t1, a1), t2, a2);
      AudioPath(t1) in f && f[AudioPath(t1)] == a1 && f[AudioPath(t2)] == a2
  {
    AudioPathInjective(t1, t2);
  }

  /** Cleaning up a freshly saved file restores the directory. */
  lemma CleanupUndoesSave(files: map<string, seq<Byte>>, now: nat, audio: seq<Byte>)
    requires AudioPath(now) !in files
    ensures CleanedUp(Saved(files, now, audio), AudioPath(now), true) == files
  {
    var after := CleanedUp(Saved(files, now, audio), AudioPath(now), true);
    assert forall p :: p in after <==> p in files;
  }

  /** The speech service of the server, with the part of the file system it
      touches: whether the temporary directory exists and the files in it. */
  class ElevenLabsService {
    const voiceId: string
    var tempDirExists: bool
    var files: map<string, seq<Byte>>

    constructor (env: Option<string>, dirExists: bool, existing: map<string, seq<Byte>>)
      ensures voiceId == ConfiguredVoice(env)
      ensures tempDirExists == dirExists && files == existing
    {
      voiceId := ConfiguredVoice(env);
      tempDirExists := dirExists;
      files := existing;
    }

    /** `saveAudioToFile`: creates the directory when missing, writes the
        audio under the current millisecond and returns the path. */
    method SaveAudioToFile(audio: seq<Byte>, now: nat) returns (path: string)
      modifies this
      ensures path == AudioPath(now)
      ensures tempDirExists
      ensures files == Saved(old(files), now, audio)
    {
      if !tempDirExists {
        tempDirExists := true;
      }
      var fileName := "emergency-call-" + NatToString(now) + ".mp3";
      path := TempDir + "/" + fileName;
      files := files[path := audio];
    }

    /** `cleanupAudioFile`: removes the file if it exists; a failed unlink is
        logged and swallowed, so the call never fails. */
    method CleanupAudioFile(path: string, unlinkSucceeds: bool)
      modifies this
      ensures files == CleanedUp(old(files), path, unlinkSucceeds)
      ensures tempDirExists == old(tempDirExists)
    {
      if path in files {
        if unlinkSucceeds {
          files := files - {path};
        }
      }
    }
  }
}
