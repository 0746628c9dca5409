/**
 * The remaining small endpoints: the summary report, the user and the voice
 * actors.  Each one clones the client's base URL and pushes its path
 * segments before sending; the voice-actor collection also takes the
 * shared id/updated-after filter.
 */
module Endpoints {
  import opened Text
  import opened Query
  import opened WaniKani
  import opened Client

  const SummaryPath: string := "summary"
  const UserPath: string := "user"
  const VoiceActorPath: string := "voice_actors"

  /** `get_summary`, before sending: `/v2/summary`. */
  method SummaryUrl(client: WKClient) returns (url: Url)
    requires client.Valid()
    ensures fresh(url)
    ensures url.path == BasePath + [SummaryPath] && url.query == []
  {
    url := client.baseUrl.Clone();
    url.Push(SummaryPath);
  }

  /** `get_user_information` and `update_user_information`, before sending: `/v2/user`. */
  method UserUrl(client: WKClient) returns (url: Url)
    requires client.Valid()
    ensures fresh(url)
    ensures url.path == BasePath + [UserPath] && url.query == []
  {
    url := client.baseUrl.Clone();
    url.Push(UserPath);
  }

  /** `get_voice_actors`, before sending: `/v2/voice_actors` with the filter's query. */
  method VoiceActorsUrl(client: WKClient, f: IdFilter, rfc3339: Timestamp -> string) returns (url: Url)
    requires client.Valid()
    ensures fresh(url)
    ensures url.path == BasePath + [VoiceActorPath] && url.query == IdFilterQuery(f, rfc3339)
  {
    url := client.baseUrl.Clone();
    url.Push(VoiceActorPath);
    ApplyIdFilter(f, rfc3339, url);
    assert [] + IdFilterQuery(f, rfc3339) == IdFilterQuery(f, rfc3339);
  }

  /** `get_specific_voice_actor`, before sending: `/v2/voice_actors/{id}`. */
  method SpecificVoiceActorUrl(client: WKClient, id: Id) returns (url: Url)
    requires client.Valid()
    ensures fresh(url)
    ensures url.path == BasePath + [VoiceActorPath, NatToString(id)] && url.query == []
    ensures DigitsValue(url.path[2]) == id
  {
    url := client.baseUrl.Clone();
    url.Push(VoiceActorPath);
    url.Push(NatToString(id));
    NatToStringValue(id);
  }
}
