# TTS.Monster script for Firebot — a Dafny model of its core

The script connects the Firebot automation host to the TTS.Monster
text-to-speech service. Its core is a small layer of decisions and data shaping
under the network and filesystem plumbing. This project models that layer and
proves what it promises. The remote and filesystem results are inputs to the
model.

- **Provider client** (`tts_monster_api.dfy`, module `TtsMonsterApi`). The
  class `TtsMonster` holds the one API key. `Setup` replaces that key
  unconditionally. `TextToSpeech` runs the parameter checks, applies the default
  voice "Nova", and builds the generate request (the `Authorization` header and
  a body of exactly `{voice_id, message}`). It then issues the media download
  and yields `{status: 'ok', fileName}`. `SortVoices` sorts an array of voices in
  place by name. `FetchVoices` sorts the custom and premade lists and
  concatenates them. `FetchSubscriptionData` fills in the two display fields.
  The renewal time is stored as seconds and shown as the date-time
  `renewal_time * 1000` milliseconds after the epoch.
- **Script state and host handlers** (`main.dfy`, module `Main`). The class
  `Script` holds the process-wide `parameters`, the job registry
  `tts_promises` (a map from token to how its synthesis settles) and the client
  singleton. It has the two `onAsync` handlers, each building a
  `{error, voices}` or `{error, subscriptionData}` response, and
  `parametersUpdated`. A lemma covers a run of registrations under fresh tokens.
- **The request effect** (`request_tts_effect.dfy`, module `RequestTtsEffect`).
  This is the options validator plus the trigger handler: the precondition gate,
  the temp-directory step, the `<tmp>/<token>.wav` path, registration before
  the wait decision, and the wait or no-wait result.
- `wrappers.dfy` (module `Wrappers`) holds `Option`. It stands for a
  JavaScript value that may be `undefined`.

How the inputs are modelled:

- The locale name comparison is an abstract total preorder `le` on names, where
  `le(a, b)` means `a.localeCompare(b) <= 0`.
- A remote result is an `Option` of the decoded payload. `None` means the
  call rejected: a network failure, an undecodable body, or a body without
  the expected fields (an error body makes `sortVoices`, `fetch(url)` or
  `formatNumber` throw, since `fetch` does not reject on an HTTP error status).
- A synthesis is described by the media URL the provider answers with, and
  whether downloading and streaming that URL succeeds.
- The uuid token, the scripts directory, and whether the temp directory exists
  or could be created are parameters of the trigger handler.
- Where the source only logs, the model records what the log says. Examples are
  the `Skipped(FileName)` and `Skipped(Message)` results of `TextToSpeech`, and
  the reasons carried by `Failure(...)`, which the effect returns as plain
  `false`.

Two behaviours of the trigger handler's code:

- The handler makes the token before it prepares the temp directory
  (`request-tts.effect.ts:106-117`).
- The handler can reject. It reads `effect.voice.voice_id` before any check,
  and `effect.text.length` after the key check, so a missing voice or a
  missing text throws a TypeError. The model has this as `TypeErrorThrown`.

An omitted voice id gets the default voice. An empty one (`''`) is sent as it
is, because a JavaScript destructuring default only applies to `undefined`.

## Model

| member | source | states |
|---|---|---|
| `TtsMonsterApi.TtsMonster.Setup` | src/tts-monster-api.ts:50-57 | the key becomes the argument, or `''` when omitted, in every case; the missing-key log happens exactly when the new key is empty, and the call does not fail |
| `TtsMonsterApi.TtsMonster.TextToSpeech` | src/tts-monster-api.ts:60-110 | no request is sent iff the file name or the message is empty, and an empty file name is reported before the message is looked at; otherwise the generate request is a POST to `/generate` carrying the key and a body of exactly the voice id (defaulting to `0993f688-…` only when omitted) and the message; the download goes to the returned URL without the key and happens only if generate succeeded; success (`{status: 'ok', fileName}` naming the input path) happens iff both remote steps succeed |
| `TtsMonsterApi.SpeechCall.Settle` | src/tts-monster-api.ts:69-109 | the promise resolves to undefined exactly when a parameter check skipped the call, rejects exactly when a remote step failed, and a successful attempt resolves to its saved audio `{status: 'ok', fileName}` |
| `TtsMonsterApi.TtsMonster.SortVoices` | src/tts-monster-api.ts:112-114 | returns the same array, which ends up sorted by name and a permutation of what it held |
| `TtsMonsterApi.TtsMonster.InsertInto` | src/tts-monster-api.ts:113 | one in-place sorting step: the prefix grows sorted by one element, the contents stay a permutation, and the rest of the array is untouched |
| `TtsMonsterApi.InsertingDone` | src/tts-monster-api.ts:113 | once the next element's left neighbour is no larger, the prefix is sorted (uses transitivity of the name order) |
| `TtsMonsterApi.TtsMonster.FetchVoices` | src/tts-monster-api.ts:116-146 | the request is a POST to `/voices` with the key; the call fails iff the fetch fails; otherwise the result has length \|custom\| + (shown ? \|premade\| : 0), its first \|custom\| places are the custom voices sorted and the rest the premade voices sorted, premade being shown unless the flag is false (default true) |
| `TtsMonsterApi.CatalogGroups` | src/tts-monster-api.ts:133-140 | every voice placed before position \|custom\| is a custom voice and every one after it a premade voice; with premade hidden the catalog is exactly the sorted custom voices |
| `TtsMonsterApi.HiddenPremadeExample` | src/tts-monster-api.ts:133-140 | custom voices [Zed, Ann] with premade [Mona] hidden give exactly [Ann, Zed] |
| `TtsMonsterApi.TtsMonster.FetchSubscriptionData` | src/tts-monster-api.ts:154-178 | the request is a POST to `/user` with the key; fails iff the fetch fails; on success every provider field is kept, the usage is rendered with no fractional digits, and the renewal is rendered at a millisecond time that is exactly `renewal_time` seconds |
| `Main.Script.constructor` | src/main.ts:116-122 | the script starts with the host's parameters, an empty `tts_promises` registry and a new client |
| `Main.Script.ParametersUpdated` | src/main.ts:48-50 | the parameters are replaced wholesale and the registry is unchanged |
| `Main.Script.GetVoices` | src/main.ts:62-88 | the key is installed before the fetch and the fetch carries it; `error` iff the fetch failed, then `voices` stays `[]`; otherwise `voices` is the catalog for the configured premade flag, forwarded unchanged; the registry is unchanged |
| `Main.Script.GetSubscriptionData` | src/main.ts:90-112 | the key is installed before the fetch; `error` iff the fetch failed, then `subscriptionData` stays null; otherwise it is the fetched data with its renewal rendered at `renewal_time * 1000`; the registry is unchanged |
| `Main.FreshTokensResolvable` | src/request-tts.effect.ts:106-131 | registering N jobs under N distinct fresh tokens grows the registry by exactly N, each token resolves to its own job, and every earlier entry is kept |
| `RequestTtsEffect.OptionsValidator` | src/request-tts.effect.ts:77-85 | exactly `['Please provide text to synthesize.']` when the text is missing or empty, `[]` otherwise |
| `RequestTtsEffect.Precheck` | src/request-tts.effect.ts:86-101 | the handler goes on iff a voice is present, the key and voice id are non-empty and the text is present and non-empty; an empty key or voice id is rejected whatever the text is; an empty text only after both pass; a missing voice, or a missing text once key and voice pass, throws |
| `RequestTtsEffect.WavPath` | src/request-tts.effect.ts:116 | the path is the temp directory, a separator, then `<token>.wav` |
| `RequestTtsEffect.WavPathInjective` | src/request-tts.effect.ts:106-116 | distinct tokens get distinct files in one directory |
| `RequestTtsEffect.OnTriggerEvent` | src/request-tts.effect.ts:86-149 | failed checks return `false` (or throw) with the key, the registry and the provider untouched; otherwise the key is installed; a temp-directory failure returns `false` with no synthesis and no registration; else the synthesis of the voice id and text into `<tmp>/<token>.wav` is sent, the registry becomes the old one with the token mapped to its outcome and nothing else changed, and the result is `{ttsToken: token}` unless the handler waited and the synthesis rejected, which returns `false` with the entry kept; a waited success means the audio was saved to that path |

## Left out

- HTTP `fetch`, JSON decoding, the stream `pipeline` and `fs.createWriteStream`: network and stream I/O. Their results are the `Option`/`SynthesisProvider` inputs. Two consequences follow. The target file, opened before the request is sent, is not modelled. A file left half-written after a failed stream is not modelled either.
- `fs.pathExists` and `fs.mkdirp`: filesystem calls, reduced to one boolean saying whether the temp directory is usable. `modules.path.join` is concatenation with `/` (`RequestTtsEffect.Join`, used by `RequestTtsEffect.TmpDir` for `<scripts>/../tmp/ttsmonster`) and does not normalise `..`.
- `uuid()`: randomness. The token is a parameter. Freshness is not assumed, and a repeated token overwrites its entry, as a `Map.set` does. `Main.FreshTokensResolvable` states what fresh tokens give.
- Promises, suspension and background completion: concurrency. A job is its final settlement. The order in which concurrent jobs finish is not modelled, nor is the unhandled rejection of a fire-and-forget job.
- `localeCompare`: locale behaviour, replaced by the abstract total preorder `le`.
- `TtsMonsterApi.TtsMonster.SortVoices`: does not state that equal names keep their order (the stability of `Array.prototype.sort`), because the comparison is abstract and only sortedness and permutation are promised.
- `formatNumber`, `toLocaleString` and `new Date(...).toLocaleString()`: Intl formatting. The display fields record what is rendered (the number with zero fractional digits, the epoch in milliseconds), not the text.
- JavaScript numbers: `character_usage` and `renewal_time` are integers here. Fractional values are not modelled.
- The logger: each log is reduced to the flag or reason it records.
- `optionsController`, the HTML template, the manifest, the default-parameter metadata, `autoload`, and the `modules`/`settings` assignments in `run`: UI and host wiring.
- The lazy construction of `TTSMonster.instance`: the script holds exactly one client. Its key starts as `''` rather than `undefined`, and every path installs a key before use.
- A missing `api_key` in the host's parameters, and a `null` premade flag: `api_key` is a string, and the flag is either given or omitted (`undefined`).
