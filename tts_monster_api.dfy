/** The TTS.Monster provider client: the credential it holds, the three remote
    operations (voice list, account status, speech synthesis) with their remote
    results passed in, and the shaping of the voice catalog. */
module TtsMonsterApi {
  import opened Wrappers

  const ApiBase: string := "https://api.console.tts.monster"

  /** Voice used when the caller gives none (the provider's voice "Nova"). */
  const DefaultVoiceId: string := "0993f688-6719-4cf6-9769-fee7b77b1df5"

  const MillisecondsPerSecond: int := 1000

  datatype Voice = Voice(voiceId: string, name: string, sample: string, metadata: string)

  /** The decoded body of `POST /voices`. */
  datatype VoicesPayload = VoicesPayload(voices: seq<Voice>, customVoices: seq<Voice>)

  /** A display value produced by the runtime's locale formatting; the model
      records what is rendered, not the rendered text. */
  datatype Rendering =
    | LocaleNumber(number: int, maximumFractionDigits: nat)
    | LocaleDateTime(epochMilliseconds: int)

  /** The decoded body of `POST /user`, plus the two display fields the
      client fills in (absent in what the provider sends). */
  datatype SubscriptionData = SubscriptionData(
    characterUsage: int,
    currentPlan: string,
    downgradingToPlan: string,
    hasPaymentMethod: bool,
    portalUrl: string,
    renewalTime: int,            // epoch seconds
    status: string,
    characterUsageFormatted: Option<Rendering>,
    renewalTimeFormatted: Option<Rendering>)

  /** Body of the generate request: exactly these two properties. */
  datatype GenerateBody = GenerateBody(voiceId: string, message: string)

  /** One outbound HTTP request. */
  datatype ProviderRequest = ProviderRequest(
    httpMethod: string, url: string, authorization: Option<string>, body: Option<GenerateBody>)

  /** How a remote step ended: its decoded value, or a rejection
      (network failure, undecodable body, failed stream). */
  datatype Fetch<T> = Fetched(value: T) | Failed

  /** A remote operation: the request it sent and how it ended. */
  datatype Call<T> = Call(request: ProviderRequest, result: Fetch<T>)

  /** What the provider does with one synthesis: the media URL it answers the
      generate request with (None: that request or its decoding failed), and
      whether fetching that URL and streaming it to the file succeeds. */
  datatype SynthesisProvider = SynthesisProvider(generateReply: Option<string>, downloadOk: bool)

  /** The value a successful synthesis resolves to. */
  datatype SavedAudio = SavedAudio(status: string, fileName: string)

  /** The parameter whose absence `textToSpeech` logs. */
  datatype Parameter = FileName | Message

  /** One call of `textToSpeech`: skipped by a parameter check (it resolves to
      undefined and sends nothing), or the generate request, the media
      download it led to, and the outcome. */
  datatype SpeechCall =
    | Skipped(missing: Parameter)
    | Attempted(generate: ProviderRequest, download: Option<ProviderRequest>, result: Fetch<SavedAudio>)
  {
    /** How the promise returned by `textToSpeech` settles. */
    function Settle(): (s: Settlement)
      ensures s.Rejected? <==> Attempted? && result.Failed?
      ensures s == Resolved(None) <==> Skipped?
      ensures Attempted? && result.Fetched? ==> s == Resolved(Some(result.value))
    {
      match this
      case Skipped(_) => Resolved(None)
      case Attempted(_, _, Fetched(audio)) => Resolved(Some(audio))
      case Attempted(_, _, Failed) => Rejected
    }
  }

  /** A settled synthesis promise: resolved with undefined or with the saved
      audio, or rejected. */
  datatype Settlement = Resolved(value: Option<SavedAudio>) | Rejected

  function Endpoint(route: string): (url: string)
  {
    ApiBase + route
  }

  /** An authenticated POST to one of the provider's routes. */
  function Post(route: string, apiKey: string, body: Option<GenerateBody>): (request: ProviderRequest)
  {
    ProviderRequest("POST", Endpoint(route), Some(apiKey), body)
  }

  // ---------------------------------------------------------------------
  // Name order

  /** The locale comparison on names, as `le(a, b)` meaning
      `a.localeCompare(b) <= 0`: a total preorder. */
  ghost predicate TotalPreorder(le: (string, string) -> bool)
  {
    && (forall a, b :: le(a, b) || le(b, a))
    && (forall a, b, c {:trigger Chain(le, a, b, c)} :: Chain(le, a, b, c) ==> le(a, c))
  }

  /** `a <= b <= c`; transitivity is applied only where a proof names such a
      chain, which keeps the solver from chaining comparisons unasked. */
  ghost predicate Chain(le: (string, string) -> bool, a: string, b: string, c: string)
  {
    le(a, b) && le(b, c)
  }

  ghost predicate SortedByName(s: seq<Voice>, le: (string, string) -> bool)
  {
    forall i, j :: 0 <= i < j < |s| ==> le(s[i].name, s[j].name)
  }

  /** `s` is `of` rearranged into ascending name order. */
  ghost predicate SortedPermutation(s: seq<Voice>, of: seq<Voice>, le: (string, string) -> bool)
  {
    SortedByName(s, le) && multiset(s) == multiset(of)
  }

  /** The catalog the client returns for a voices payload: the custom voices
      sorted, followed by the premade voices sorted when they are shown. */
  ghost predicate CombinedCatalog(payload: VoicesPayload, showPremade: bool, combined: seq<Voice>,
                                  le: (string, string) -> bool)
  {
    var n := |payload.customVoices|;
    && |combined| == n + (if showPremade then |payload.voices| else 0)
    && SortedPermutation(combined[..n], payload.customVoices, le)
    && SortedPermutation(combined[n..], if showPremade then payload.voices else [], le)
  }

  /** Every voice of the catalog's first |customVoices| places is a custom
      voice and every later one a premade voice; without premade voices the
      catalog is exactly the custom voices, sorted. */
  lemma CatalogGroups(payload: VoicesPayload, showPremade: bool, combined: seq<Voice>,
                      le: (string, string) -> bool)
    requires CombinedCatalog(payload, showPremade, combined, le)
    ensures forall i :: 0 <= i < |payload.customVoices| ==> combined[i] in payload.customVoices
    ensures forall j :: |payload.customVoices| <= j < |combined| ==> showPremade && combined[j] in payload.voices
    ensures !showPremade ==> SortedPermutation(combined, payload.customVoices, le)
  {
    var n := |payload.customVoices|;
    forall i | 0 <= i < n
      ensures combined[i] in payload.customVoices
    {
      assert combined[..n][i] == combined[i];
      assert combined[i] in multiset(combined[..n]);
    }
    forall j | n <= j < |combined|
      ensures showPremade && combined[j] in payload.voices
    {
      assert combined[n..][j - n] == combined[j];
      assert combined[j] in multiset(combined[n..]);
    }
    if !showPremade {
      assert combined[..n] == combined;
    }
  }

  /** Custom voices Zed and Ann and premade voice Mona, with premade voices
      hidden, give Ann then Zed. */
  lemma HiddenPremadeExample(le: (string, string) -> bool, combined: seq<Voice>)
    requires TotalPreorder(le) && le("Ann", "Zed") && !le("Zed", "Ann")
    requires CombinedCatalog(VoicesPayload([Voice("m", "Mona", "", "")],
                                           [Voice("z", "Zed", "", ""), Voice("a", "Ann", "", "")]),
                             false, combined, le)
    ensures combined == [Voice("a", "Ann", "", ""), Voice("z", "Zed", "", "")]
  {
  }

  // ---------------------------------------------------------------------
  // Insertion, stated on sequences

  /** Midway through inserting `s[j]` into `s[..i + 1]`: apart from place
      `j` the prefix is sorted, what lies left of `j` is below what lies right
      of it, and `s[j]` is below everything right of it. */
  ghost predicate Inserting(s: seq<Voice>, i: nat, j: nat, le: (string, string) -> bool)
  {
    && j <= i < |s|
    && (forall p, q :: 0 <= p < q <= i && p != j && q != j ==> le(s[p].name, s[q].name))
    && (forall p, q :: 0 <= p < j < q <= i ==> le(s[p].name, s[q].name))
    && (forall q :: j < q <= i ==> le(s[j].name, s[q].name))
  }

  /** Before any swap the element to insert sits at `i`. */
  lemma InsertingStart(s: seq<Voice>, i: nat, le: (string, string) -> bool)
    requires i < |s| && SortedByName(s[..i], le)
    ensures Inserting(s, i, i, le)
  {
  }

  /** Swapping `s[j]` with its larger left neighbour moves the insertion
      point one place left. */
  lemma InsertingStep(s: seq<Voice>, i: nat, j: nat, le: (string, string) -> bool)
    requires TotalPreorder(le)
    requires Inserting(s, i, j, le) && 0 < j && !le(s[j - 1].name, s[j].name)
    ensures Inserting(s[j - 1 := s[j]][j := s[j - 1]], i, j - 1, le)
  {
  }

  /** Once the left neighbour is not larger, the prefix up to `i` is sorted. */
  lemma InsertingDone(s: seq<Voice>, i: nat, j: nat, le: (string, string) -> bool)
    requires TotalPreorder(le)
    requires Inserting(s, i, j, le) && (j == 0 || le(s[j - 1].name, s[j].name))
    ensures SortedByName(s[..i + 1], le)
  {
    forall p, q | 0 <= p < q <= i
      ensures le(s[p].name, s[q].name)
    {
      if q == j && 0 < j && p < j - 1 {
        assert Chain(le, s[p].name, s[j - 1].name, s[j].name);
      }
    }
  }

  // ---------------------------------------------------------------------
  // The client

  class TtsMonster {
    var apiKey: string

    constructor ()
      ensures apiKey == ""
    {
      apiKey := "";
    }

    /** Replaces the credential unconditionally, defaulting to ''. An empty
        key is only logged (`missingKeyLogged`); the call does not fail. */
    method Setup(key: Option<string>) returns (missingKeyLogged: bool)
      modifies this
      ensures apiKey == key.GetOr("")
      ensures missingKeyLogged <==> apiKey == ""
    {
      apiKey := key.GetOr("");
      missingKeyLogged := apiKey == "";
    }

    /** Requests speech for `message` into `fileName`. The file name is checked
        before the message; either missing skips the call without sending
        anything. Otherwise the generate request carries the credential and
        exactly the voice id (defaulted when omitted) and the message, the
        media URL it answers with is fetched without credential, and the
        result names the input file. */
    function TextToSpeech(voiceId: Option<string>, fileName: string, message: string,
                          provider: SynthesisProvider): (r: SpeechCall)
      reads this
      ensures r.Skipped? <==> fileName == "" || message == ""
      ensures fileName == "" ==> r == Skipped(FileName)
      ensures fileName != "" && message == "" ==> r == Skipped(Message)
      ensures r.Attempted? ==>
                && r.generate.httpMethod == "POST"
                && r.generate.url == ApiBase + "/generate"
                && r.generate.authorization == Some(apiKey)
                && r.generate.body == Some(GenerateBody(voiceId.GetOr(DefaultVoiceId), message))
      ensures r.Attempted? ==>
                && (r.download.Some? <==> provider.generateReply.Some?)
                && (r.download.Some? ==>
                      r.download.value == ProviderRequest("GET", provider.generateReply.value, None, None))
                && (r.result.Fetched? <==> provider.generateReply.Some? && provider.downloadOk)
                && (r.result.Fetched? ==> r.result.value == SavedAudio("ok", fileName))
    {
      if fileName == "" then Skipped(FileName)
      else if message == "" then Skipped(Message)
      else
        var generate := Post("/generate", apiKey, Some(GenerateBody(voiceId.GetOr(DefaultVoiceId), message)));
        match provider.generateReply
        case None => Attempted(generate, None, Failed)
        case Some(url) =>
          var download := ProviderRequest("GET", url, None, None);
          Attempted(generate, Some(download), if provider.downloadOk then Fetched(SavedAudio("ok", fileName)) else Failed)
    }

    /** Sorts `voices` in place into ascending name order and returns it. */
    method SortVoices(voices: array<Voice>, le: (string, string) -> bool) returns (sorted: array<Voice>)
      requires TotalPreorder(le)
      modifies voices
      ensures sorted == voices
      ensures SortedPermutation(voices[..], old(voices[..]), le)
    {
      var i := 0;
      while i < voices.Length
        invariant 0 <= i <= voices.Length
        invariant SortedByName(voices[..i], le)
        invariant multiset(voices[..]) == multiset(old(voices[..]))
      {
        InsertInto(voices, i, le);
        i := i + 1;
      }
      assert voices[..voices.Length] == voices[..];
      sorted := voices;
    }

    /** One insertion step: moves `voices[i]` left into the sorted prefix
        `voices[..i]`, leaving the suffix after it alone. */
    static method InsertInto(voices: array<Voice>, i: nat, le: (string, string) -> bool)
      requires TotalPreorder(le)
      requires i < voices.Length && SortedByName(voices[..i], le)
      modifies voices
      ensures SortedByName(voices[..i + 1], le)
      ensures multiset(voices[..]) == multiset(old(voices[..]))
      ensures voices[i + 1..] == old(voices[i + 1..])
    {
      var j := i;
      InsertingStart(voices[..], i, le);
      while 0 < j && !le(voices[j - 1].name, voices[j].name)
        invariant 0 <= j <= i
        invariant Inserting(voices[..], i, j, le)
        invariant multiset(voices[..]) == multiset(old(voices[..]))
        invariant voices[i + 1..] == old(voices[i + 1..])
      {
        InsertingStep(voices[..], i, j, le);
        voices[j - 1], voices[j] := voices[j], voices[j - 1];
        j := j - 1;
      }
      InsertingDone(voices[..], i, j, le);
    }
    /** Lists the voices: the request carries the credential; a failed fetch
        rejects; otherwise the result is the catalog of the payload, premade
        voices shown unless the flag is false (it defaults to true). */
    method FetchVoices(showPremadeVoices: Option<bool>, reply: Option<VoicesPayload>,
                       le: (string, string) -> bool)
      returns (request: ProviderRequest, result: Fetch<seq<Voice>>)
      requires TotalPreorder(le)
      ensures request == ProviderRequest("POST", ApiBase + "/voices", Some(apiKey), None)
      ensures result.Failed? <==> reply.None?
      ensures result.Fetched? ==> CombinedCatalog(reply.value, showPremadeVoices.GetOr(true), result.value, le)
    {
      request := Post("/voices", apiKey, None);
      if reply.None? {
        return request, Failed;
      }
      var payload := reply.value;
      var custom := new Voice[|payload.customVoices|](i requires 0 <= i < |payload.customVoices| => payload.customVoices[i]);
      var premade := new Voice[|payload.voices|](i requires 0 <= i < |payload.voices| => payload.voices[i]);
      assert custom[..] == payload.customVoices;
      assert premade[..] == payload.voices;
      var _ := SortVoices(custom, le);
      var _ := SortVoices(premade, le);
      var combined := if showPremadeVoices.GetOr(true) then custom[..] + premade[..] else custom[..];
      assert combined[..custom.Length] == custom[..];
      assert combined[custom.Length..] == if showPremadeVoices.GetOr(true) then premade[..] else [];
      result := Fetched(combined);
    }

    /** Fetches the account status; on success every provider field is kept
        and the two display fields are filled in: the usage as a number with
        no fractional digits, the renewal time as a date-time at
        `renewal_time` seconds, scaled to milliseconds. */
    function FetchSubscriptionData(reply: Option<SubscriptionData>): (call: Call<SubscriptionData>)
      reads this
      ensures call.request == ProviderRequest("POST", ApiBase + "/user", Some(apiKey), None)
      ensures call.result.Failed? <==> reply.None?
      ensures call.result.Fetched? ==>
                var d, raw := call.result.value, reply.value;
                && d.(characterUsageFormatted := None, renewalTimeFormatted := None)
                   == raw.(characterUsageFormatted := None, renewalTimeFormatted := None)
                && d.characterUsageFormatted == Some(LocaleNumber(raw.characterUsage, 0))
                && d.renewalTimeFormatted.Some? && d.renewalTimeFormatted.value.LocaleDateTime?
                && d.renewalTimeFormatted.value.epochMilliseconds / MillisecondsPerSecond == raw.renewalTime
                && d.renewalTimeFormatted.value.epochMilliseconds % MillisecondsPerSecond == 0
    {
      var request := Post("/user", apiKey, None);
      match reply
      case None => Call(request, Failed)
      case Some(subData) =>
        Call(request, Fetched(subData.(
          characterUsageFormatted := Some(LocaleNumber(subData.characterUsage, 0)),
          renewalTimeFormatted := Some(LocaleDateTime(subData.renewalTime * MillisecondsPerSecond)))))
    }
  }
}
