/** The "Request TTS.Monster TTS" effect: its options validator and what it
    does when triggered (precondition gates, temp-file path, registering the
    synthesis under the token, waiting or not). */
module RequestTtsEffect {
  import opened Wrappers
  import opened TtsMonsterApi
  import opened Main

  const TextRequiredMessage: string := "Please provide text to synthesize."

  const PathSeparator: string := "/"

  /** The effect's saved options; the voice or the text may be missing. */
  datatype EffectModel = EffectModel(voice: Option<Voice>, text: Option<string>, waitForGeneration: bool)

  /** Why the effect returned `false`, as it logs it. */
  datatype FailReason = MissingKeyOrVoice | MissingText | TempDirUnavailable | SaveFailed

  /** What the trigger handler produces: `false` (with the logged reason),
      success with the output `ttsToken`, or a rejection by a TypeError when
      it reads a property of a missing voice or text. */
  datatype TriggerResult = Failure(reason: FailReason) | Success(ttsToken: string) | TypeErrorThrown

  /** `effect.text?.length` is truthy. */
  predicate TextProvided(text: Option<string>)
  {
    text.Some? && text.value != ""
  }

  /** Lists the problems that keep the effect from being saved: exactly the
      missing-text message when the text is missing or empty, none otherwise. */
  method OptionsValidator(effect: EffectModel) returns (errors: seq<string>)
    ensures !TextProvided(effect.text) ==> errors == [TextRequiredMessage]
    ensures TextProvided(effect.text) ==> errors == []
  {
    errors := [];
    if !TextProvided(effect.text) {
      errors := errors + [TextRequiredMessage];
    }
  }

  /** The outcome of the trigger handler's checks before any work. */
  datatype Gate = Proceed(voiceId: string, text: string) | Reject(reason: FailReason) | Crash

  /** The voice is read first (a missing voice throws); an empty key or voice
      id is rejected next, before the text is looked at; then a missing text
      throws and an empty one is rejected. */
  function Precheck(apiKey: string, effect: EffectModel): (g: Gate)
    ensures g.Proceed? <==>
              effect.voice.Some? && apiKey != "" && effect.voice.value.voiceId != "" && TextProvided(effect.text)
    ensures g.Proceed? ==> g == Proceed(effect.voice.value.voiceId, effect.text.value)
    ensures g == Reject(MissingKeyOrVoice) <==>
              effect.voice.Some? && (apiKey == "" || effect.voice.value.voiceId == "")
    ensures g == Reject(MissingText) <==>
              effect.voice.Some? && apiKey != "" && effect.voice.value.voiceId != "" && effect.text == Some("")
    ensures g.Crash? <==>
              effect.voice.None? || (apiKey != "" && effect.voice.value.voiceId != "" && effect.text.None?)
  {
    match effect.voice
    case None => Crash
    case Some(voice) =>
      if apiKey == "" || voice.voiceId == "" then Reject(MissingKeyOrVoice)
      else
        match effect.text
        case None => Crash
        case Some(text) => if text == "" then Reject(MissingText) else Proceed(voice.voiceId, text)
  }

  /** Path join, taken as concatenation with the separator. */
  function Join(dir: string, name: string): (path: string)
  {
    dir + PathSeparator + name
  }

  /** `<scripts>/../tmp/ttsmonster`. */
  function TmpDir(scriptsDir: string): (dir: string)
  {
    Join(Join(Join(scriptsDir, ".."), "tmp"), "ttsmonster")
  }

  /** The audio file of a token: `<token>.wav` directly inside `tmpDir`. */
  function WavPath(tmpDir: string, token: string): (path: string)
    ensures |path| == |tmpDir| + 1 + |token| + 4
    ensures path[..|tmpDir| + 1] == tmpDir + PathSeparator
    ensures path[|tmpDir| + 1..] == token + ".wav"
  {
    Join(tmpDir, token + ".wav")
  }

  /** Distinct tokens get distinct files in the same directory. */
  lemma WavPathInjective(tmpDir: string, t1: string, t2: string)
    requires WavPath(tmpDir, t1) == WavPath(tmpDir, t2)
    ensures t1 == t2
  {
    var path := WavPath(tmpDir, t1);
    assert t1 + ".wav" == path[|tmpDir| + 1..] == t2 + ".wav";
    assert |t1| == |t2|;
    assert t1 == (t1 + ".wav")[..|t1|];
    assert t2 == (t2 + ".wav")[..|t2|];
  }

  /** `onTriggerEvent`, with the fresh uuid `token`, whether the temp directory
      exists or could be created, and the provider's behaviour as inputs.
      When the checks fail nothing happens: the key stays, no token is
      registered and no synthesis is started. Otherwise the key is installed;
      a temp-directory failure returns `false` without synthesis; else the
      synthesis into `<tmp>/<token>.wav` is registered under the token before
      the wait decision, and the result is success unless the handler waited
      and the synthesis failed. */
  method OnTriggerEvent(script: Script, effect: EffectModel, token: string, scriptsDir: string,
                        tmpDirReady: bool, provider: SynthesisProvider)
    returns (result: TriggerResult, synthesis: Option<SpeechCall>)
    modifies script`ttsPromises, script.api
    ensures script.parameters == old(script.parameters)
    ensures old(script.ttsPromises).Keys <= script.ttsPromises.Keys
    ensures var gate := Precheck(script.parameters.apiKey, effect);
            !gate.Proceed? ==>
              && result == (if gate.Crash? then TypeErrorThrown else Failure(gate.reason))
              && synthesis == None
              && script.ttsPromises == old(script.ttsPromises)
              && script.api.apiKey == old(script.api.apiKey)
    ensures var gate := Precheck(script.parameters.apiKey, effect);
            gate.Proceed? ==> script.api.apiKey == script.parameters.apiKey
    ensures var gate := Precheck(script.parameters.apiKey, effect);
            gate.Proceed? && !tmpDirReady ==>
              && result == Failure(TempDirUnavailable)
              && synthesis == None
              && script.ttsPromises == old(script.ttsPromises)
    ensures var gate := Precheck(script.parameters.apiKey, effect);
            gate.Proceed? && tmpDirReady ==>
              && synthesis == Some(script.api.TextToSpeech(Some(gate.voiceId), WavPath(TmpDir(scriptsDir), token),
                                                           gate.text, provider))
              && synthesis.value.Attempted?
              && synthesis.value.generate.body == Some(GenerateBody(gate.voiceId, gate.text))
              && script.ttsPromises == old(script.ttsPromises)[token := synthesis.value.Settle()]
              && result == if effect.waitForGeneration && synthesis.value.Settle().Rejected?
                           then Failure(SaveFailed) else Success(token)
    ensures result.Success? ==> result.ttsToken == token && token in script.ttsPromises
    ensures result.Success? && effect.waitForGeneration ==>
              && synthesis.Some? && synthesis.value.Attempted?
              && synthesis.value.result == Fetched(SavedAudio("ok", WavPath(TmpDir(scriptsDir), token)))
  {
    var gate := Precheck(script.parameters.apiKey, effect);
    match gate
    case Crash =>
      return TypeErrorThrown, None;
    case Reject(reason) =>
      return Failure(reason), None;
    case Proceed(voiceId, text) =>
      var _ := script.api.Setup(Some(script.parameters.apiKey));
      if !tmpDirReady {
        return Failure(TempDirUnavailable), None;
      }
      var wavPath := WavPath(TmpDir(scriptsDir), token);
      var tts := script.api.TextToSpeech(Some(voiceId), wavPath, text, provider);
      synthesis := Some(tts);
      script.ttsPromises := script.ttsPromises[token := tts.Settle()];
      if effect.waitForGeneration && tts.Settle().Rejected? {
        return Failure(SaveFailed), synthesis;
      }
      result := Success(token);
  }
}
