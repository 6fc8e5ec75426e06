/** The script's process-wide state (its parameters, the job registry and the
    client singleton) and the two request/response handlers it registers with
    the host's frontend communicator. */
module Main {
  import opened Wrappers
  import opened TtsMonsterApi

  /** The script's settings as the host hands them over. */
  datatype Params = Params(apiKey: string, showPremadeVoices: Option<bool>)

  datatype VoicesResponse = VoicesResponse(error: bool, voices: seq<Voice>)

  datatype SubscriptionResponse = SubscriptionResponse(error: bool, subscriptionData: Option<SubscriptionData>)

  /** The registry maps each token to how its synthesis settles. */
  type Registry = map<string, Settlement>

  class Script {
    var parameters: Params
    /** `tts_promises`: only ever inserted into. */
    var ttsPromises: Registry
    /** `TTSMonster.instance`. */
    const api: TtsMonster

    /** `run`: takes the host's parameters; the registry starts empty. */
    constructor (params: Params)
      ensures parameters == params && ttsPromises == map[]
      ensures fresh(api) && api.apiKey == ""
    {
      parameters := params;
      ttsPromises := map[];
      api := new TtsMonster();
    }

    /** `parametersUpdated`: replaces the parameters wholesale. */
    method ParametersUpdated(params: Params)
      modifies this`parameters
      ensures parameters == params
      ensures ttsPromises == old(ttsPromises)
    {
      parameters := params;
    }

    /** `tts-monster-get-voices`: installs the configured key, then fetches
        with the configured premade flag forwarded unchanged. The response
        starts as no error and no voices; a successful fetch replaces the
        voices with the catalog, a failed one only sets the error flag. */
    method GetVoices(reply: Option<VoicesPayload>, le: (string, string) -> bool)
      returns (response: VoicesResponse, request: ProviderRequest)
      requires TotalPreorder(le)
      modifies api
      ensures api.apiKey == parameters.apiKey
      ensures request == ProviderRequest("POST", ApiBase + "/voices", Some(parameters.apiKey), None)
      ensures response.error <==> reply.None?
      ensures response.error ==> response.voices == []
      ensures !response.error ==>
                CombinedCatalog(reply.value, parameters.showPremadeVoices.GetOr(true), response.voices, le)
      ensures ttsPromises == old(ttsPromises)
    {
      response := VoicesResponse(false, []);
      var _ := api.Setup(Some(parameters.apiKey));
      var result;
      request, result := api.FetchVoices(parameters.showPremadeVoices, reply, le);
      match result
      case Fetched(voices) =>
        response := response.(voices := voices);
      case Failed =>
        response := response.(error := true);
    }

    /** `tts-monster-get-subscription-data`: installs the configured key and
        fetches the account status. The response starts as no error and no
        data; success stores the data, failure only sets the error flag. */
    method GetSubscriptionData(reply: Option<SubscriptionData>)
      returns (response: SubscriptionResponse, request: ProviderRequest)
      modifies api
      ensures api.apiKey == parameters.apiKey
      ensures request == ProviderRequest("POST", ApiBase + "/user", Some(parameters.apiKey), None)
      ensures response.error <==> reply.None?
      ensures response.error ==> response.subscriptionData == None
      ensures !response.error ==>
                && response.subscriptionData.Some?
                && response.subscriptionData.value.renewalTime == reply.value.renewalTime
                && response.subscriptionData.value.renewalTimeFormatted
                   == Some(LocaleDateTime(reply.value.renewalTime * MillisecondsPerSecond))
                && response.subscriptionData == Some(api.FetchSubscriptionData(reply).result.value)
      ensures ttsPromises == old(ttsPromises)
    {
      response := SubscriptionResponse(false, None);
      var _ := api.Setup(Some(parameters.apiKey));
      var call := api.FetchSubscriptionData(reply);
      request := call.request;
      match call.result
      case Fetched(data) =>
        response := response.(subscriptionData := Some(data));
      case Failed =>
        response := response.(error := true);
    }
  }

  // ---------------------------------------------------------------------
  // The registry over a run of requests

  /** The registry after inserting each `(token, settlement)` in turn, as
      successive requests do. */
  function RegisterAll(registry: Registry, jobs: seq<(string, Settlement)>): (r: Registry)
    decreases |jobs|
  {
    if jobs == [] then registry else RegisterAll(registry[jobs[0].0 := jobs[0].1], jobs[1..])
  }

  ghost predicate DistinctTokens(jobs: seq<(string, Settlement)>)
  {
    forall i, j :: 0 <= i < j < |jobs| ==> jobs[i].0 != jobs[j].0
  }

  /** Registering N jobs under N fresh tokens grows the registry by exactly N
      entries, each token resolving to its own job, and keeps every earlier
      entry. */
  lemma {:induction false} FreshTokensResolvable(registry: Registry, jobs: seq<(string, Settlement)>)
    requires DistinctTokens(jobs)
    requires forall i :: 0 <= i < |jobs| ==> jobs[i].0 !in registry
    ensures |RegisterAll(registry, jobs)| == |registry| + |jobs|
    ensures forall i :: 0 <= i < |jobs| ==>
              jobs[i].0 in RegisterAll(registry, jobs) && RegisterAll(registry, jobs)[jobs[i].0] == jobs[i].1
    ensures forall k :: k in registry ==> k in RegisterAll(registry, jobs) && RegisterAll(registry, jobs)[k] == registry[k]
    decreases |jobs|
  {
    if jobs != [] {
      var (token, job) := jobs[0];
      var next := registry[token := job];
      assert next.Keys == registry.Keys + {token};
      assert |next| == |registry| + 1;
      forall i | 0 <= i < |jobs[1..]|
        ensures jobs[1..][i].0 !in next
      {
        assert jobs[1..][i] == jobs[i + 1];
      }
      assert DistinctTokens(jobs[1..]) by {
        forall i, j | 0 <= i < j < |jobs[1..]|
          ensures jobs[1..][i].0 != jobs[1..][j].0
        {
          assert jobs[1..][i] == jobs[i + 1] && jobs[1..][j] == jobs[j + 1];
        }
      }
      FreshTokensResolvable(next, jobs[1..]);
      forall i | 0 <= i < |jobs|
        ensures jobs[i].0 in RegisterAll(registry, jobs) && RegisterAll(registry, jobs)[jobs[i].0] == jobs[i].1
      {
        if 0 < i {
          assert jobs[1..][i - 1] == jobs[i];
        }
      }
    }
  }
}
